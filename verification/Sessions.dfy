/** Statement-level programs of the three transactions, as run by one database session. */
module Sessions {
  import opened Options
  import opened Identifiers
  import opened Tables
  import opened Statements
  import opened Atomic

  /** What the worker is told about one claimed row. */
  datatype Item = Item(requestId: string, outcome: string, code: string, failures: int, generation: int)

  function Seen(db: DB, id: Id): Item {
    if id in db.usage && id in db.pending then
      Item(db.usage[id].priced.requestId, "", "", db.pending[id].failures, db.pending[id].generation)
    else Item("", "", "", 0, 0)
  }

  function ItemPosted(i: Item): Item { i.(outcome := "processed") }

  function ItemRejected(i: Item, code: string): Item {
    i.(failures := i.failures + 1, code := code,
       outcome := if i.failures + 1 == QUARANTINE then "quarantined" else "retry_scheduled")
  }

  /** On an error only the request id survives. */
  function Redact(items: seq<Item>): (r: seq<Item>)
    ensures |r| == |items|
    ensures forall i :: 0 <= i < |items| ==> r[i] == Item(items[i].requestId, "", "", 0, 0)
  {
    seq(|items|, i requires 0 <= i < |items| => Item(items[i].requestId, "", "", 0, 0))
  }

  /** Locals of ProcessBatch; `outcomes` records the verdicts seen so far, `next` is the loop index.
      `seen` and `skipped` are history: the tables and the locked rows when the claim ran. */
  datatype Batch = Batch(
    limit: nat, ids: seq<Id>, items: seq<Item>, next: nat, outcomes: map<Id, Outcome>, processed: nat,
    seen: DB, skipped: set<Id>)

  /** Program counters; each names the statement that runs next, `Done` ones await COMMIT. */
  datatype Program =
    | AcceptInsert(e: Priced, limit: nat)
    | AcceptLock(e: Priced, limit: nat)
    | AcceptCount(e: Priced, limit: nat)
    | AcceptEnqueue(e: Priced, limit: nat)
    | AcceptRead(e: Priced, limit: nat, created: bool)
    | AcceptDone(e: Priced, limit: nat, created: bool, stored: Event)
    | BatchClaim(size: nat)
    | BatchSave(b: Batch)
    | BatchProbe(b: Batch)
    | BatchDelete(b: Batch)
    | BatchRestore(b: Batch)
    | EventSave(b: Batch)
    | EventPost(b: Batch)
    | EventRemove(b: Batch)
    | EventRestore(b: Batch, code: string)
    | EventRecord(b: Batch, code: string)
    | EventRelease(b: Batch)
    | BatchDone(b: Batch)
    | RetryLock(id: Id, generation: int)
    | RetryUpdate(id: Id, generation: int)
    | RetryRead(id: Id, generation: int, retried: bool)
    | RetryDone(id: Id, generation: int, retried: bool, event: Event)
  {
    predicate Finished() { AcceptDone? || BatchDone? || RetryDone? }

    predicate InAccept() {
      AcceptInsert? || AcceptLock? || AcceptCount? || AcceptEnqueue? || AcceptRead? || AcceptDone?
    }

    predicate InBulk() { BatchSave? || BatchProbe? || BatchDelete? || BatchRestore? }

    predicate InEvent() {
      EventSave? || EventPost? || EventRemove? || EventRestore? || EventRecord? || EventRelease?
    }

    predicate InBatch() { InBulk() || InEvent() || BatchDone? }

    /** ROLLBACK TO SAVEPOINT runs next. */
    predicate Restores() { BatchRestore? || EventRestore? }

    predicate InRetry() { RetryLock? || RetryUpdate? || RetryRead? || RetryDone? }

    /** A call whose argument checks pass before the transaction begins. */
    predicate Startable() {
      match this
      case AcceptInsert(_, limit) => 1 <= limit <= 1000000
      case BatchClaim(size) => 1 <= size <= 1000
      case RetryLock(id, g) => ValidId(id) && 0 <= g < MAX_INT64
      case _ => false
    }
  }

  datatype Session = Session(prog: Program, work: Work)

  // ------------------------------------------------------------- statements

  const BATCH_SAVE := "ledger_batch"
  const EVENT_SAVE := "ledger_event"

  /** The allowlist of `integrityCode`. */
  predicate Confirmed(code: string) { code in INTEGRITY_CODES }

  function ExecAccept(db: DB, s: Session, now: nat): Option<Session>
    requires s.prog.InAccept() && !s.prog.Finished()
  {
    var k, e, limit := s.work, s.prog.e, s.prog.limit;
    var id := e.input.eventId;
    match s.prog
    case AcceptInsert(_, _) =>
      if !ValidPriced(e) then None
      else if id in View(db, k).usage then Some(Session(AcceptRead(e, limit, false), k))
      else Some(Session(AcceptLock(e, limit), InsertUsage(db, k, e, now)))
    case AcceptLock(_, _) => Some(Session(AcceptCount(e, limit), TakeAdmission(k)))
    case AcceptCount(_, _) =>
      if BoundedCount(db, k, limit) >= limit then None
      else Some(Session(AcceptEnqueue(e, limit), k))
    case AcceptEnqueue(_, _) =>
      if id in View(db, k).pending then None
      else Some(Session(AcceptRead(e, limit, true), Enqueue(k, id, now)))
    case AcceptRead(_, _, created) =>
      match ReadEvent(View(db, k), id)
      case None => None
      case Some(stored) =>
        if stored.usage.priced.input != e.input then None
        else Some(Session(AcceptDone(e, limit, created, stored), k))
  }

  function ExecClaim(db: DB, s: Session, held: set<Id>): Option<Session>
    requires s.prog.BatchClaim?
  {
    var ids := ClaimIds(db, s.work, held, s.prog.size);
    var view := View(db, s.work);
    var b := Batch(s.prog.size, ids, seq(|ids|, i requires 0 <= i < |ids| => Seen(view, ids[i])), 0, map[], 0, view, held);
    var k := LockRows(s.work, Members(ids));
    Some(Session(if ids == [] then BatchDone(b) else BatchSave(b), k))
  }

  function AllPosted(ids: seq<Id>): map<Id, Outcome> {
    if ids == [] then map[] else map id | id in Members(ids) :: Posted
  }

  function MarkAll(items: seq<Item>): seq<Item> {
    seq(|items|, i requires 0 <= i < |items| => ItemPosted(items[i]))
  }

  /** The bulk attempt: savepoint, one INSERT for all ids, then one DELETE or the rollback. */
  function ExecBulk(db: DB, s: Session, verdict: Verdict): Option<Session>
    requires s.prog.InBulk()
  {
    var k, b := s.work, s.prog.b;
    var ids := Members(b.ids);
    match s.prog
    case BatchSave(_) => Some(Session(BatchProbe(b), Savepoint(k, BATCH_SAVE)))
    case BatchProbe(_) =>
      if verdict.Passes? then Some(Session(BatchDelete(b), Post(db, k, ids)))
      else if Confirmed(verdict.code) then Some(Session(BatchRestore(b), Spoil(db, k, ids, verdict.marked)))
      else None
    case BatchDelete(_) =>
      Some(Session(BatchDone(NoteAll(b, |Removed(db, k, ids)|)), Remove(db, k, ids)))
    case BatchRestore(_) =>
      if !HasSavepoint(k, BATCH_SAVE) then None
      else Some(Session(EventSave(b), RollbackTo(k, BATCH_SAVE)))
  }

  /** Bookkeeping of one settled event in the local variables. */
  function Note(b: Batch, o: Outcome): Batch
    requires b.next < |b.ids| == |b.items|
  {
    var id, item := b.ids[b.next], b.items[b.next];
    b.(outcomes := b.outcomes[id := o],
       items := b.items[b.next := if o.Posted? then ItemPosted(item) else ItemRejected(item, o.code)],
       processed := b.processed + if o.Posted? then 1 else 0)
  }

  /** Bookkeeping of a bulk post that removed `count` rows. */
  function NoteAll(b: Batch, count: nat): Batch {
    b.(outcomes := AllPosted(b.ids), items := MarkAll(b.items), next := |b.ids|, processed := count)
  }

  /** One iteration of `processIndividually`. */
  function ExecEvent(db: DB, s: Session, verdict: Verdict): Option<Session>
    requires s.prog.InEvent()
  {
    var k, b := s.work, s.prog.b;
    if b.next >= |b.ids| || |b.items| != |b.ids| then None
    else
      var id := b.ids[b.next];
      match s.prog
      case EventSave(_) => Some(Session(EventPost(b), Savepoint(k, EVENT_SAVE)))
      case EventPost(_) =>
        if verdict.Passes? then Some(Session(EventRemove(b), Post(db, k, {id})))
        else if Confirmed(verdict.code) then
          Some(Session(EventRestore(b, verdict.code), Spoil(db, k, {id}, verdict.marked)))
        else None
      case EventRemove(_) => Some(Session(EventRelease(Note(b, Posted)), Remove(db, k, {id})))
      case EventRestore(_, code) =>
        if !HasSavepoint(k, EVENT_SAVE) then None
        else Some(Session(EventRecord(b, code), RollbackTo(k, EVENT_SAVE)))
      case EventRecord(_, code) =>
        var p := View(db, k).pending;
        if id in p && !ValidPending(Bump(p[id], code)) then None
        else Some(Session(EventRelease(Note(b, Rejected(code))), RecordFailure(db, k, id, code)))
      case EventRelease(_) =>
        if !HasSavepoint(k, EVENT_SAVE) then None
        else
          var b' := b.(next := b.next + 1);
          Some(Session(if b'.next == |b'.ids| then BatchDone(b') else EventSave(b'), Release(k, EVENT_SAVE)))
  }

  function ExecRetry(db: DB, s: Session, now: nat): Option<Session>
    requires s.prog.InRetry() && !s.prog.Finished()
  {
    var k, id, g := s.work, s.prog.id, s.prog.generation;
    var view := View(db, k);
    match s.prog
    case RetryLock(_, _) =>
      if id !in view.pending then Some(Session(RetryRead(id, g, false), k))
      else
        var row, k' := view.pending[id], LockRows(k, {id});
        if row.failures == QUARANTINE && row.generation == g then Some(Session(RetryUpdate(id, g), k'))
        else if row.failures < QUARANTINE && row.generation == g + 1 then Some(Session(RetryRead(id, g, false), k'))
        else None
    case RetryUpdate(_, _) =>
      if id in view.pending && !ValidPending(Reactivated(view.pending[id], now)) then None
      else Some(Session(RetryRead(id, g, true), Reactivate(db, k, id, now)))
    case RetryRead(_, _, retried) =>
      match ReadEvent(view, id)
      case None => None
      case Some(event) => Some(Session(RetryDone(id, g, retried, event), k))
  }

  /** One statement; None is an error that makes the transaction roll back. In an aborted
      transaction only the rollback to a savepoint succeeds.
      `held` are the queue rows locked by other sessions, `verdict` the ledger constraint's answer. */
  function Exec(db: DB, s: Session, held: set<Id>, now: nat, verdict: Verdict): Option<Session>
    requires !s.prog.Finished()
  {
    if s.work.aborted && !s.prog.Restores() then None
    else if s.prog.InAccept() then ExecAccept(db, s, now)
    else if s.prog.BatchClaim? then ExecClaim(db, s, held)
    else if s.prog.InBulk() then ExecBulk(db, s, verdict)
    else if s.prog.InRetry() then ExecRetry(db, s, now)
    else ExecEvent(db, s, verdict)
  }

  // ------------------------------------------------------------------ locks

  /** Keys and rows that the next statement must obtain. A claim skips locked rows, and
      SELECT ... FOR UPDATE waits only for a row that exists. */
  function WantsUsage(p: Program): set<Id> { if p.AcceptInsert? then {p.e.input.eventId} else {} }

  predicate WantsAdmission(p: Program) { p.AcceptLock? }

  function WantsRows(db: DB, p: Program): set<Id> {
    match p
    case AcceptEnqueue(e, _) => {e.input.eventId}
    case BatchDelete(b) => Members(b.ids)
    case EventRemove(b) => if b.next < |b.ids| then {b.ids[b.next]} else {}
    case EventRecord(b, _) => if b.next < |b.ids| then {b.ids[b.next]} else {}
    case RetryLock(id, _) => if id in db.pending then {id} else {}
    case RetryUpdate(id, _) => {id}
    case _ => {}
  }

  function WantsLedger(p: Program): set<Id> {
    match p
    case BatchProbe(b) => Members(b.ids)
    case EventPost(b) => if b.next < |b.ids| then {b.ids[b.next]} else {}
    case _ => {}
  }

  /** The wait-for relation: the next statement of `p` needs something that `k` holds. */
  ghost predicate Waits(db: DB, p: Program, k: Work) {
    || !(WantsUsage(p) !! k.writes.usage.Keys)
    || (WantsAdmission(p) && k.admission)
    || !(WantsRows(db, p) !! k.rows)
    || !(WantsLedger(p) !! k.writes.ledger)
  }

  /** Two transactions hold nothing in common. */
  ghost predicate Disjoint(a: Work, b: Work) {
    && a.writes.usage.Keys !! b.writes.usage.Keys
    && a.rows !! b.rows
    && a.writes.ledger !! b.writes.ledger
    && !(a.admission && b.admission)
  }

  // -------------------------------------------------------------- coherence

  /** The writes that settle the outcomes `m` against the committed queue. */
  function SettleWrites(p: map<Id, PendingRow>, m: map<Id, Outcome>): Writes {
    Writes(map[],
           if m == map[] then map[]
           else map id | id in m && id in p :: if m[id].Posted? then None else Some(Bump(p[id], m[id].code)),
           PostedIn(m))
  }

  /** The report for `id` once the outcomes `m` are known. */
  function Report(db: DB, id: Id, m: map<Id, Outcome>): Item {
    if id !in m then Seen(db, id)
    else if m[id].Posted? then ItemPosted(Seen(db, id))
    else ItemRejected(Seen(db, id), m[id].code)
  }

  ghost predicate OwnsInsert(db: DB, e: Priced, k: Work) {
    var id := e.input.eventId;
    && ValidPriced(e)
    && id !in db.usage
    && id in k.writes.usage && k.writes.usage[id].priced == e
    && k.writes == NO_WRITES.(usage := map[id := k.writes.usage[id]], pending := k.writes.pending)
    && k.saves == [] && !k.aborted
  }

  ghost predicate OwnsAdmission(db: DB, e: Priced, limit: nat, k: Work) {
    var id := e.input.eventId;
    && OwnsInsert(db, e, k)
    && k.admission && k.rows == {id} && |db.pending| < limit
    && id in k.writes.pending && k.writes.pending[id].Some?
    && k.writes.pending == map[id := Some(Fresh(k.writes.pending[id].value.enqueuedAt))]
  }

  ghost predicate AcceptCoherent(db: DB, s: Session)
    requires s.prog.InAccept()
  {
    var k, e := s.work, s.prog.e;
    var id := e.input.eventId;
    match s.prog
    case AcceptInsert(_, _) => k == IDLE
    case AcceptLock(_, _) => OwnsInsert(db, e, k) && k.writes.pending == map[] && k.rows == {} && !k.admission
    case AcceptCount(_, _) => OwnsInsert(db, e, k) && k.writes.pending == map[] && k.rows == {} && k.admission
    case AcceptEnqueue(_, limit) =>
      OwnsInsert(db, e, k) && k.writes.pending == map[] && k.rows == {} && k.admission && |db.pending| < limit
    case AcceptRead(_, limit, created) =>
      if created then OwnsAdmission(db, e, limit, k) else k == IDLE && id in db.usage
    case AcceptDone(_, limit, created, stored) =>
      && stored.usage.priced.input == e.input
      && if created then OwnsAdmission(db, e, limit, k) && stored == Event(k.writes.usage[id], false, 0, "", 0)
         else k == IDLE && id in db.usage && stored.usage == db.usage[id]
  }

  /** The claimed rows are locked, unchanged since the claim, and still eligible. */
  ghost predicate Claimed(db: DB, b: Batch, k: Work) {
    && Distinct(b.ids) && |b.ids| <= b.limit && |b.items| == |b.ids| && b.next <= |b.ids|
    && k.rows == Members(b.ids) && !k.admission
    && Members(b.ids) <= Eligible(db.pending)
  }

  /** Outcomes, reports and count after the first `n` ids. */
  ghost predicate Recorded(db: DB, b: Batch, n: nat) {
    && |b.items| == |b.ids| && n <= |b.ids|
    && b.outcomes.Keys == Members(b.ids[..n])
    && (forall id <- b.outcomes :: b.outcomes[id].Rejected? ==> Confirmed(b.outcomes[id].code))
    && b.processed == |PostedIn(b.outcomes)|
    && (forall i :: 0 <= i < |b.ids| ==> b.items[i] == Report(db, b.ids[i], b.outcomes))
  }

  /** The batch savepoint at the base of the stack, taken before any write. */
  function BaseSave(b: Batch): Save { Save(BATCH_SAVE, NO_WRITES, Members(b.ids), false) }

  function InnerSave(p: map<Id, PendingRow>, b: Batch): Save {
    Save(EVENT_SAVE, SettleWrites(p, b.outcomes), Members(b.ids), false)
  }

  /** No outcome is known yet and nothing is written. */
  ghost predicate Untried(db: DB, b: Batch, k: Work) {
    Claimed(db, b, k) && b.next == 0 && Recorded(db, b, 0) && k.writes == NO_WRITES
  }

  /** The bulk INSERT failed: some marks are left and the transaction is aborted. */
  ghost predicate BulkSpoiled(db: DB, b: Batch, k: Work) {
    && Claimed(db, b, k) && b.next == 0 && Recorded(db, b, 0)
    && k.writes.ledger <= Members(b.ids) && k.writes == NO_WRITES.(ledger := k.writes.ledger)
  }

  /** The bulk INSERT went through, the DELETE is due. */
  ghost predicate BulkPosted(db: DB, b: Batch, k: Work) {
    Claimed(db, b, k) && b.next == 0 && Recorded(db, b, 0) && k.writes == NO_WRITES.(ledger := Members(b.ids))
  }

  /** Exactly the first `next` ids are settled. */
  ghost predicate Settling(db: DB, b: Batch, k: Work) {
    && Claimed(db, b, k) && b.next < |b.ids| && Recorded(db, b, b.next)
    && k.writes == SettleWrites(db.pending, b.outcomes)
  }

  /** The current event's mark is written, its queue row not yet removed. */
  ghost predicate EventPosted(db: DB, b: Batch, k: Work) {
    && Claimed(db, b, k) && b.next < |b.ids| && Recorded(db, b, b.next)
    && k.writes == PlusMark(SettleWrites(db.pending, b.outcomes), b.ids[b.next])
  }

  /** The current event's INSERT failed, with or without its mark left behind. */
  ghost predicate EventSpoiled(db: DB, b: Batch, k: Work) {
    && Claimed(db, b, k) && b.next < |b.ids| && Recorded(db, b, b.next)
    && var w := SettleWrites(db.pending, b.outcomes); k.writes == w || k.writes == PlusMark(w, b.ids[b.next])
  }

  function PlusMark(w: Writes, id: Id): Writes { w.(ledger := w.ledger + {id}) }

  /** The current event is settled, its savepoint not yet released. */
  ghost predicate EventSettled(db: DB, b: Batch, k: Work) {
    && Claimed(db, b, k) && b.next < |b.ids| && Recorded(db, b, b.next + 1)
    && k.writes == SettleWrites(db.pending, b.outcomes)
  }

  ghost predicate AllSettled(db: DB, b: Batch, k: Work) {
    Claimed(db, b, k) && Recorded(db, b, |b.ids|) && k.writes == SettleWrites(db.pending, b.outcomes)
  }

  /** The transaction is aborted exactly when the rollback to a savepoint is due. */
  ghost predicate BatchCoherent(db: DB, s: Session)
    requires s.prog.InBatch()
  {
    var k, b := s.work, s.prog.b;
    k.aborted == s.prog.Restores() &&
    match s.prog
    case BatchSave(_) => Untried(db, b, k) && b.ids != [] && k.saves == []
    case BatchProbe(_) => Untried(db, b, k) && b.ids != [] && k.saves == [BaseSave(b)]
    case BatchRestore(_) => BulkSpoiled(db, b, k) && b.ids != [] && k.saves == [BaseSave(b)]
    case BatchDelete(_) => BulkPosted(db, b, k)
    case EventSave(_) => Settling(db, b, k) && k.saves == [BaseSave(b)]
    case EventPost(_) => Settling(db, b, k) && k.saves == [BaseSave(b), InnerSave(db.pending, b)]
    case EventRemove(_) => EventPosted(db, b, k) && k.saves == [BaseSave(b), InnerSave(db.pending, b)]
    case EventRestore(_, code) =>
      EventSpoiled(db, b, k) && k.saves == [BaseSave(b), InnerSave(db.pending, b)] && Confirmed(code)
    case EventRecord(_, code) =>
      Settling(db, b, k) && k.saves == [BaseSave(b), InnerSave(db.pending, b)] && Confirmed(code)
    case EventRelease(_) =>
      EventSettled(db, b, k) && |k.saves| == 2 && k.saves[0] == BaseSave(b) && k.saves[1].name == EVENT_SAVE
    case BatchDone(_) => AllSettled(db, b, k)
  }

  /** A queued write of the reactivation of exactly the quarantined generation `g`. */
  ghost predicate OwnsRevival(db: DB, id: Id, g: int, k: Work) {
    && CanRevive(db, id, g)
    && k.rows == {id}
    && id in k.writes.pending && k.writes.pending[id].Some?
    && k.writes == NO_WRITES.(pending := map[id := Some(PendingRow(0, "", g + 1, k.writes.pending[id].value.enqueuedAt))])
    && !k.admission && k.saves == [] && !k.aborted
  }

  /** The queued row shows that the reactivation of generation `g` was applied before. */
  ghost predicate Reactive(db: DB, id: Id, g: int) {
    id in db.pending && db.pending[id].failures < QUARANTINE && db.pending[id].generation == g + 1
  }

  ghost predicate Harmless(db: DB, id: Id, g: int, k: Work) {
    k == IDLE || (k == IDLE.(rows := {id}) && Reactive(db, id, g))
  }

  ghost predicate RetryCoherent(db: DB, s: Session)
    requires s.prog.InRetry()
  {
    var k, id, g := s.work, s.prog.id, s.prog.generation;
    match s.prog
    case RetryLock(_, _) => k == IDLE && 0 <= g < MAX_INT64 && ValidId(id)
    case RetryUpdate(_, _) => k == IDLE.(rows := {id}) && CanRevive(db, id, g)
    case RetryRead(_, _, retried) => if retried then OwnsRevival(db, id, g, k) else Harmless(db, id, g, k)
    case RetryDone(_, _, retried, event) =>
      if retried then
        OwnsRevival(db, id, g, k) && id in db.usage && event == Event(db.usage[id], false, 0, "", g + 1)
      else Harmless(db, id, g, k)
  }

  /** The private state of a session agrees with running its statements so far, alone, against
      the tables as committed now. */
  ghost predicate Coherent(db: DB, s: Session) {
    if s.prog.InAccept() then AcceptCoherent(db, s)
    else if s.prog.BatchClaim? then s.work == IDLE
    else if s.prog.InRetry() then RetryCoherent(db, s)
    else BatchCoherent(db, s)
  }
}
