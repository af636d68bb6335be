/** The store: Accept, ProcessBatch and Retry as sequences of statements in one transaction.
    The statements and the specifications of their effects are those of the interleaved machine. */
module Store {
  import opened Options
  import opened Identifiers
  import opened Tables
  import opened Statements
  import opened Atomic
  import opened Sessions
  import opened SessionProofs
  import opened Interference

  datatype Error = Invalid | Conflict | NotFound | QueueFull | RetryConflict | Unavailable

  datatype Result<+T> = Ok(value: T) | Err(error: Error)

  /** `reliable` is an environment in which no statement and no COMMIT is lost. */
  class Database {
    var db: DB
    var clock: nat
    const reliable: bool

    constructor (db: DB, clock: nat, reliable: bool)
      ensures this.db == db && this.clock == clock && this.reliable == reliable
    {
      this.db, this.clock, this.reliable := db, clock, reliable;
    }
  }

  /** The first rejected event decides the error of a bulk INSERT. */
  function FirstViolation(ids: seq<Id>, c: Constraint): (v: Option<string>)
    ensures v.None? <==> forall id <- ids :: c(id).None?
    ensures v.Some? ==> exists id <- ids :: c(id) == v
  {
    if ids == [] then None
    else if c(ids[0]).Some? then c(ids[0])
    else FirstViolation(ids[1..], c)
  }

  /** A statement's error: an SQLSTATE, or a lost connection, timeout or cancellation. */
  datatype SqlError = Sqlstate(code: string) | Lost

  function IntegrityCode(e: SqlError): string {
    if e.Sqlstate? && e.code in INTEGRITY_CODES then e.code else ""
  }

  /** The allowlist, spelled out: five integrity codes, and nothing for any other error. */
  lemma IntegrityCodesListed(e: SqlError)
    ensures e.Sqlstate? && e.code in {"23502", "23503", "23505", "23514", "23P01"} ==> IntegrityCode(e) == e.code
    ensures !(e.Sqlstate? && e.code in {"23502", "23503", "23505", "23514", "23P01"}) ==> IntegrityCode(e) == ""
  {
  }

  /** An open transaction: nothing reaches the tables before Commit. */
  class Tx {
    const base: Database
    var work: Work

    constructor (base: Database)
      ensures this.base == base && work == IDLE
    {
      this.base, work := base, IDLE;
    }

    /** Whether the environment loses the next statement; time passes either way. */
    method Fault() returns (lost: bool)
      modifies base`clock
      ensures base.reliable ==> !lost
      ensures base.clock == old(base.clock) + 1
    {
      base.clock := base.clock + 1;
      lost := *;
      if base.reliable {
        lost := false;
      }
    }

    /** Whether the next statement fails whatever it says; it does in an aborted transaction.
        A failed statement aborts the transaction. */
    method Fails() returns (failed: bool)
      modifies this`work, base`clock
      ensures base.clock == old(base.clock) + 1
      ensures if failed then work == old(work).(aborted := true) else work == old(work) && !work.aborted
      ensures base.reliable && !old(work).aborted ==> !failed
    {
      failed := Fault();
      failed := failed || work.aborted;
      if failed {
        Break();
      }
    }

    method Break()
      modifies this`work
      ensures work == old(work).(aborted := true)
    {
      work := work.(aborted := true);
    }

    method InsertUsage(e: Priced) returns (created: bool, ok: bool)
      modifies this`work, base`clock
      ensures ok ==> !old(work).aborted && ValidPriced(e)
      ensures ok ==> work == Statements.InsertUsage(base.db, old(work), e, old(base.clock))
      ensures !ok ==> work.aborted
      ensures created <==> ok && e.input.eventId !in View(base.db, old(work)).usage
      ensures base.reliable && !old(work).aborted && ValidPriced(e) ==> ok
    {
      var now := base.clock;
      var failed := Fails();
      if failed || !ValidPriced(e) {
        Break();
        return false, false;
      }
      created := e.input.eventId !in View(base.db, work).usage;
      work := Statements.InsertUsage(base.db, work, e, now);
      ok := true;
    }

    method LockAdmission() returns (ok: bool)
      modifies this`work, base`clock
      ensures ok ==> !old(work).aborted && work == TakeAdmission(old(work))
      ensures !ok ==> work.aborted
      ensures base.reliable && !old(work).aborted ==> ok
    {
      var failed := Fails();
      if !failed {
        work := TakeAdmission(work);
      }
      ok := !failed;
    }

    method CountPending(limit: nat) returns (count: nat, ok: bool)
      modifies this`work, base`clock
      ensures ok ==> !work.aborted && work == old(work) && count == BoundedCount(base.db, work, limit)
      ensures !ok ==> work.aborted
      ensures base.reliable && !old(work).aborted ==> ok
    {
      var failed := Fails();
      count, ok := BoundedCount(base.db, work, limit), !failed;
    }

    method Enqueue(id: Id) returns (ok: bool)
      modifies this`work, base`clock
      ensures ok ==> && !old(work).aborted && id !in View(base.db, old(work)).pending
                     && work == Statements.Enqueue(old(work), id, old(base.clock))
      ensures !ok ==> work.aborted
      ensures base.reliable && !old(work).aborted && id !in View(base.db, old(work)).pending ==> ok
    {
      var now := base.clock;
      var failed := Fails();
      ok := !failed && id !in View(base.db, work).pending;
      if ok {
        work := Statements.Enqueue(work, id, now);
      } else {
        Break();
      }
    }

    method ReadEvent(id: Id) returns (event: Option<Event>, ok: bool)
      modifies this`work, base`clock
      ensures ok ==> !work.aborted && work == old(work) && event == Tables.ReadEvent(View(base.db, work), id)
      ensures !ok ==> work.aborted
      ensures base.reliable && !old(work).aborted ==> ok
    {
      var failed := Fails();
      event, ok := Tables.ReadEvent(View(base.db, work), id), !failed;
    }

    /** The claim query joins each claimed row with its request id. */
    method Claim(limit: nat) returns (rows: seq<(Id, Item)>, ok: bool)
      modifies this`work, base`clock
      ensures ok ==> var view := View(base.db, old(work)); var ids := ClaimIds(base.db, old(work), {}, limit);
                     && !old(work).aborted && |rows| == |ids|
                     && (forall i :: 0 <= i < |ids| ==> rows[i] == (ids[i], Seen(view, ids[i])))
                     && work == LockRows(old(work), Members(ids))
      ensures !ok ==> work.aborted
      ensures base.reliable && !old(work).aborted ==> ok
    {
      var failed := Fails();
      if failed {
        return [], false;
      }
      var view, ids := View(base.db, work), ClaimIds(base.db, work, {}, limit);
      rows := seq(|ids|, i requires 0 <= i < |ids| => (ids[i], Seen(view, ids[i])));
      work := LockRows(work, Members(ids));
      ok := true;
    }

    method Savepoint(name: string) returns (ok: bool)
      modifies this`work, base`clock
      ensures ok ==> !old(work).aborted && work == Statements.Savepoint(old(work), name)
      ensures !ok ==> work.aborted
      ensures base.reliable && !old(work).aborted ==> ok
    {
      var failed := Fails();
      if !failed {
        work := Statements.Savepoint(work, name);
      }
      ok := !failed;
    }

    /** The one statement that an aborted transaction accepts. */
    method RollbackTo(name: string) returns (ok: bool)
      modifies this`work, base`clock
      ensures ok ==> HasSavepoint(old(work), name) && work == Statements.RollbackTo(old(work), name)
      ensures !ok ==> work.aborted
      ensures base.reliable && HasSavepoint(old(work), name) ==> ok
    {
      var lost := Fault();
      ok := !lost && HasSavepoint(work, name);
      if ok {
        work := Statements.RollbackTo(work, name);
      } else {
        Break();
      }
    }

    method Release(name: string) returns (ok: bool)
      modifies this`work, base`clock
      ensures ok ==> && !old(work).aborted && HasSavepoint(old(work), name)
                     && work == Statements.Release(old(work), name)
      ensures !ok ==> work.aborted
      ensures base.reliable && !old(work).aborted && HasSavepoint(old(work), name) ==> ok
    {
      var failed := Fails();
      ok := !failed && HasSavepoint(work, name);
      if ok {
        work := Statements.Release(work, name);
      } else {
        Break();
      }
    }

    /** The ledger INSERT of one or more ids under the constraint `c`. A refused INSERT leaves some
        of its marks, those in `marked`, and the transaction aborted. */
    method Post(ids: seq<Id>, c: Constraint) returns (err: Option<SqlError>, ghost marked: set<Id>)
      modifies this`work, base`clock
      ensures err.None? ==> && !old(work).aborted && FirstViolation(ids, c).None?
                            && work == Statements.Post(base.db, old(work), Members(ids))
      ensures err.Some? ==> work.aborted
      ensures err.Some? && err.value.Sqlstate? ==>
                && !old(work).aborted && FirstViolation(ids, c) == Some(err.value.code)
                && work == Spoil(base.db, old(work), Members(ids), marked)
      ensures base.reliable && !old(work).aborted ==> err != Some(Lost)
    {
      marked := {};
      var failed := Fails();
      if failed {
        return Some(Lost), marked;
      }
      var v := FirstViolation(ids, c);
      if v.Some? {
        var left: set<Id> := *;
        work := Spoil(base.db, work, Members(ids), left);
        return Some(Sqlstate(v.value)), left;
      }
      work := Statements.Post(base.db, work, Members(ids));
      err := None;
    }

    method Remove(ids: seq<Id>) returns (count: nat, ok: bool)
      modifies this`work, base`clock
      ensures ok ==> && !old(work).aborted && count == |Removed(base.db, old(work), Members(ids))|
                     && work == Statements.Remove(base.db, old(work), Members(ids))
      ensures !ok ==> work.aborted
      ensures base.reliable && !old(work).aborted ==> ok
    {
      var failed := Fails();
      if failed {
        return 0, false;
      }
      count := |Removed(base.db, work, Members(ids))|;
      work := Statements.Remove(base.db, work, Members(ids));
      ok := true;
    }

    method RecordFailure(id: Id, code: string) returns (ok: bool)
      modifies this`work, base`clock
      ensures var p := View(base.db, old(work)).pending;
              && (ok ==> !old(work).aborted && (id in p ==> ValidPending(Bump(p[id], code)))
                         && work == Statements.RecordFailure(base.db, old(work), id, code))
              && (base.reliable && !old(work).aborted && (id in p ==> ValidPending(Bump(p[id], code))) ==> ok)
      ensures !ok ==> work.aborted
    {
      var failed := Fails();
      var p := View(base.db, work).pending;
      ok := !failed && (id in p ==> ValidPending(Bump(p[id], code)));
      if ok {
        work := Statements.RecordFailure(base.db, work, id, code);
      } else {
        Break();
      }
    }

    method LockPending(id: Id) returns (row: Option<PendingRow>, ok: bool)
      modifies this`work, base`clock
      ensures var p := View(base.db, old(work)).pending;
              ok ==> !old(work).aborted && row == (if id in p then Some(p[id]) else None)
                     && work == if id in p then LockRows(old(work), {id}) else old(work)
      ensures !ok ==> work.aborted
      ensures base.reliable && !old(work).aborted ==> ok
    {
      var failed := Fails();
      var p := View(base.db, work).pending;
      row := None;
      if !failed && id in p {
        row := Some(p[id]);
        work := LockRows(work, {id});
      }
      ok := !failed;
    }

    method Reactivate(id: Id) returns (ok: bool)
      modifies this`work, base`clock
      ensures var p := View(base.db, old(work)).pending; var now := old(base.clock);
              && (ok ==> !old(work).aborted && (id in p ==> ValidPending(Reactivated(p[id], now)))
                         && work == Statements.Reactivate(base.db, old(work), id, now))
              && (base.reliable && !old(work).aborted && (id in p ==> ValidPending(Reactivated(p[id], now))) ==> ok)
      ensures !ok ==> work.aborted
    {
      var now := base.clock;
      var failed := Fails();
      var p := View(base.db, work).pending;
      ok := !failed && (id in p ==> ValidPending(Reactivated(p[id], now)));
      if ok {
        work := Statements.Reactivate(base.db, work, id, now);
      } else {
        Break();
      }
    }

    /** COMMIT: done, lost, or done although an error is reported; an aborted transaction rolls back. */
    method Commit() returns (ok: bool)
      modifies base
      ensures ok ==> !work.aborted && base.db == Apply(old(base.db), work.writes)
      ensures !ok ==> base.db == old(base.db) || (!work.aborted && base.db == Apply(old(base.db), work.writes))
      ensures base.reliable && !work.aborted ==> ok
    {
      var lost := Fault();
      var reported := Fault();
      if !lost && !work.aborted {
        base.db := Apply(base.db, work.writes);
      }
      ok := !lost && !reported && !work.aborted;
    }
  }

  // ----------------------------------------------------------------- results

  /** The tables after admitting `e`, with whatever stamps its rows carry. */
  ghost predicate Admitted(before: DB, after: DB, e: Priced, limit: nat) {
    var id := e.input.eventId;
    && CanAdmit(before, e, limit)
    && id in after.usage && id in after.pending
    && after == AdmitEffect(before, e, after.usage[id].createdAt, after.pending[id].enqueuedAt)
  }

  ghost predicate AcceptAnswer(before: DB, after: DB, e: Priced, limit: nat, reliable: bool, r: Result<(Event, bool)>) {
    var id := e.input.eventId;
    match r
    case Ok((event, created)) =>
      && event.usage.priced.input == e.input
      && EventShows(after, id, event)
      && if created then Admitted(before, after, e, limit) else after == before
    case Err(QueueFull) => after == before && id !in before.usage && |before.pending| >= limit
    case Err(Conflict) => after == before && id in before.usage && before.usage[id].priced.input != e.input
    case Err(Unavailable) =>
      || (after == before && (!reliable || !ValidPriced(e)))
      || (Admitted(before, after, e, limit) && !reliable)
    case Err(_) => false
  }

  ghost predicate Revived(before: DB, after: DB, id: Id, g: int) {
    CanRevive(before, id, g) && id in after.pending && after == ReviveEffect(before, id, after.pending[id].enqueuedAt)
  }

  /** A retry that is not applied and not refused: already posted, or already reactivated. */
  ghost predicate Applied(db: DB, id: Id, g: int) {
    id in db.usage
    && (id in db.pending ==> db.pending[id].failures < QUARANTINE && db.pending[id].generation == g + 1)
  }

  ghost predicate RetryAnswer(before: DB, after: DB, id: Id, g: int, reliable: bool, r: Result<(Event, bool)>) {
    match r
    case Ok((event, retried)) =>
      && EventShows(after, id, event)
      && if retried then Revived(before, after, id, g) else after == before && Applied(before, id, g)
    case Err(Invalid) => after == before && !(ValidId(id) && 0 <= g < MAX_INT64)
    case Err(NotFound) => after == before && id !in before.usage
    case Err(RetryConflict) => after == before && id in before.pending && !CanRevive(before, id, g) && !Applied(before, id, g)
    case Err(Unavailable) => !reliable && (after == before || Revived(before, after, id, g))
    case Err(_) => false
  }

  lemma AcceptCommitted(db: DB, e: Priced, limit: nat, stored: Event, k: Work)
    requires Consistent(db) && AcceptCoherent(db, Session(AcceptDone(e, limit, true, stored), k))
    ensures var db' := Apply(db, k.writes);
            && Admitted(db, db', e, limit) && Consistent(db')
            && Tables.ReadEvent(db', e.input.eventId) == Some(stored)
  {
    var id := e.input.eventId;
    AdmitCommits(db, e, limit, k);
    StepConsistent(db, Admit(e, k.writes.usage[id].createdAt, k.writes.pending[id].value.enqueuedAt, limit));
    ReadsOwnEvent(db, e, limit, k);
  }

  lemma RetryCommitted(db: DB, id: Id, g: int, event: Event, k: Work)
    requires Consistent(db) && RetryCoherent(db, Session(RetryDone(id, g, true, event), k))
    ensures var db' := Apply(db, k.writes);
            && Revived(db, db', id, g) && Consistent(db')
            && Tables.ReadEvent(db', id) == Some(event)
  {
    ReviveCommits(db, id, g, k);
    StepConsistent(db, Revive(id, g, k.writes.pending[id].value.enqueuedAt));
    ReadsRevival(db, id, g, k);
  }

  // ----------------------------------------------------------------- batches

  datatype BatchResult = BatchResult(processed: nat, events: seq<Item>)

  /** Between two iterations of the per-event loop: the first `next` ids are settled as the
      constraint demands and the savepoint stack is back at its base. */
  ghost predicate Between(db: DB, b: Batch, k: Work, c: Constraint) {
    && Claimed(db, b, k) && Recorded(db, b, b.next)
    && b.outcomes == Outcomes(b.ids[..b.next], c)
    && k.writes == SettleWrites(db.pending, b.outcomes) && k.saves == [BaseSave(b)] && !k.aborted
    && b.seen == db && b.skipped == {}
  }

  /** The loop is about to handle `id`. */
  ghost predicate Current(db: DB, b: Batch, k: Work, c: Constraint, id: Id) {
    |b.items| == |b.ids| && b.next < |b.ids| && b.ids[b.next] == id && Between(db, b, k, c)
  }

  /** One more id settled, its savepoint not yet released. */
  ghost predicate Noted(db: DB, b: Batch, k: Work, c: Constraint) {
    && EventSettled(db, b, k)
    && b.outcomes == Outcomes(b.ids[..b.next + 1], c)
    && |k.saves| == 2 && k.saves[0] == BaseSave(b) && k.saves[1].name == EVENT_SAVE && !k.aborted
    && b.seen == db && b.skipped == {}
  }

  /** Every violation among `ids` is a confirmed integrity error. */
  ghost predicate Confirming(ids: seq<Id>, c: Constraint) {
    forall id <- ids :: Confirms(c, id)
  }

  ghost predicate Confirms(c: Constraint, id: Id) {
    c(id).Some? ==> c(id).value in INTEGRITY_CODES
  }

  ghost predicate SameIds(a: seq<Item>, b: seq<Item>) {
    |a| == |b| && forall i :: 0 <= i < |a| ==> a[i].requestId == b[i].requestId
  }

  /** The workspace once the current event is settled inside its savepoint. */
  function SettledInside(db: DB, m: map<Id, Outcome>, k: Work, id: Id, o: Outcome): Work {
    Savepoint(k, EVENT_SAVE).(writes := SettleWrites(db.pending, m[id := o]))
  }

  /** An unsettled claimed event, its savepoint due, after the outcomes `m`. */
  ghost predicate Ready(db: DB, m: map<Id, Outcome>, k: Work, id: Id) {
    && id in db.pending && db.pending[id].failures < QUARANTINE && id !in db.ledger
    && id !in m && id in k.rows
    && k.writes == SettleWrites(db.pending, m) && !k.aborted
  }

  lemma CurrentReady(db: DB, b: Batch, k: Work, c: Constraint, id: Id)
    requires Partition(db) && Current(db, b, k, c, id)
    ensures Ready(db, b.outcomes, k, id)
  {
    CurrentEvent(db, b, k);
    assert id in Members(b.ids);
  }

  lemma ClaimedNoted(db: DB, b: Batch, k: Work, o: Outcome, k': Work)
    requires Claimed(db, b, k) && b.next < |b.ids| && k'.rows == k.rows && k'.admission == k.admission
    ensures Claimed(db, Note(b, o), k')
  {
  }

  lemma NotedWork(db: DB, b: Batch, k: Work, id: Id, o: Outcome)
    requires b.next < |b.ids| == |b.items| && b.ids[b.next] == id && k.saves == [BaseSave(b)] && !k.aborted
    ensures var k' := SettledInside(db, b.outcomes, k, id, o); var b' := Note(b, o);
            && k'.writes == SettleWrites(db.pending, b'.outcomes) && k'.rows == k.rows && k'.admission == k.admission
            && |k'.saves| == 2 && k'.saves[0] == BaseSave(b') && k'.saves[1].name == EVENT_SAVE && !k'.aborted
            && b'.seen == b.seen && b'.skipped == b.skipped
  {
  }

  lemma NotedOutcomes(b: Batch, c: Constraint, id: Id)
    requires b.next < |b.ids| == |b.items| && b.ids[b.next] == id && b.outcomes == Outcomes(b.ids[..b.next], c)
    ensures Note(b, OutcomeOf(id, c)).outcomes == Outcomes(b.ids[..b.next + 1], c)
  {
    OutcomesNext(b.ids, b.next, c);
  }

  lemma NotedParts(db: DB, b: Batch, k: Work, c: Constraint)
    requires Claimed(db, b, k) && b.next < |b.ids| && Recorded(db, b, b.next + 1)
    requires k.writes == SettleWrites(db.pending, b.outcomes) && b.outcomes == Outcomes(b.ids[..b.next + 1], c)
    requires |k.saves| == 2 && k.saves[0] == BaseSave(b) && k.saves[1].name == EVENT_SAVE && !k.aborted
    requires b.seen == db && b.skipped == {}
    ensures Noted(db, b, k, c)
  {
  }

  lemma CurrentParts(db: DB, b: Batch, k: Work, c: Constraint, id: Id)
    requires Current(db, b, k, c, id)
    ensures b.next < |b.ids| == |b.items| && b.ids[b.next] == id && k.saves == [BaseSave(b)] && Distinct(b.ids)
    ensures Claimed(db, b, k) && Recorded(db, b, b.next) && b.outcomes == Outcomes(b.ids[..b.next], c)
    ensures !k.aborted && b.seen == db && b.skipped == {}
  {
  }

  lemma SettledNoted(db: DB, b: Batch, k: Work, c: Constraint, id: Id)
    requires Current(db, b, k, c, id) && (c(id).Some? ==> Confirmed(c(id).value))
    ensures Noted(db, Note(b, OutcomeOf(id, c)), SettledInside(db, b.outcomes, k, id, OutcomeOf(id, c)), c)
  {
    var o := OutcomeOf(id, c);
    var k' := SettledInside(db, b.outcomes, k, id, o);
    CurrentParts(db, b, k, c, id);
    NotedWork(db, b, k, id, o);
    ClaimedNoted(db, b, k, o, k');
    NoteRecorded(db, b, o);
    NotedOutcomes(b, c, id);
    NotedParts(db, Note(b, o), k', c);
  }

  /** INSERT and DELETE settle an accepted event. */
  lemma PostedSettled(db: DB, m: map<Id, Outcome>, k: Work, id: Id)
    requires Ready(db, m, k, id)
    ensures var k1 := Post(db, Savepoint(k, EVENT_SAVE), {id});
            Remove(db, k1, {id}) == SettledInside(db, m, k, id, Posted)
  {
    PostOne(db, Savepoint(k, EVENT_SAVE), id);
    RemoveOne(db, m, Post(db, Savepoint(k, EVENT_SAVE), {id}), id);
  }

  /** Rolling back to the event's savepoint undoes what the failed INSERT left and nothing else,
      and the failure record then settles the event. */
  lemma RejectedSettled(db: DB, m: map<Id, Outcome>, k: Work, id: Id, code: string, marked: set<Id>)
    requires Ready(db, m, k, id)
    ensures var k1 := Savepoint(k, EVENT_SAVE); var k2 := Spoil(db, k1, {id}, marked);
            && HasSavepoint(k2, EVENT_SAVE) && RollbackTo(k2, EVENT_SAVE) == k1
            && RecordFailure(db, k1, id, code) == SettledInside(db, m, k, id, Rejected(code))
  {
    RollbackUndoes(db, k, EVENT_SAVE, {id}, marked);
    RecordOne(db, m, Savepoint(k, EVENT_SAVE), id, code);
  }

  lemma RejectedRow(db: DB, m: map<Id, Outcome>, k: Work, id: Id, code: string)
    requires QueueValid(db) && Ready(db, m, k, id) && Confirmed(code)
    ensures var p := View(db, Savepoint(k, EVENT_SAVE)).pending; id in p && ValidPending(Bump(p[id], code))
  {
    UnsettledView(db, m, Savepoint(k, EVENT_SAVE), id);
    BumpValid(db, id, code);
  }

  lemma BumpValid(db: DB, id: Id, code: string)
    requires QueueValid(db) && id in Eligible(db.pending) && Confirmed(code)
    ensures ValidPending(Bump(db.pending[id], code))
  {
  }

  /** RELEASE returns the stack to its base. */
  lemma ReleasedBetween(db: DB, b: Batch, k: Work, c: Constraint)
    requires Noted(db, b, k, c)
    ensures HasSavepoint(k, EVENT_SAVE)
    ensures Between(db, b.(next := b.next + 1), Release(k, EVENT_SAVE), c)
  {
    assert Upto(k.saves, EVENT_SAVE) == k.saves;
    assert Release(k, EVENT_SAVE).saves == [BaseSave(b)];
  }

  /** The reports of a batch whose events were all settled as the constraint demands. */
  function Reports(db: DB, ids: seq<Id>, c: Constraint): (r: seq<Item>)
    ensures |r| == |ids|
  {
    seq(|ids|, i requires 0 <= i < |ids| => Report(db, ids[i], Outcomes(ids, c)))
  }

  /** The batch of `ids` after its last event. */
  function SettledBatch(db: DB, ids: seq<Id>, limit: nat, c: Constraint): Batch {
    Batch(limit, ids, Reports(db, ids, c), |ids|, Outcomes(ids, c), |PostedIn(Outcomes(ids, c))|, db, {})
  }

  /** Reports keep the request ids of the claim. */
  lemma BetweenIds(db: DB, b: Batch, k: Work, c: Constraint)
    requires Between(db, b, k, c)
    ensures SameIds(b.items, ClaimedBatch(db, b.ids, b.limit).items)
  {
    forall i | 0 <= i < |b.ids| ensures b.items[i].requestId == Seen(db, b.ids[i]).requestId {
      assert b.items[i] == Report(db, b.ids[i], b.outcomes);
    }
  }

  lemma BetweenEnd(db: DB, b: Batch, k: Work, c: Constraint)
    requires Between(db, b, k, c) && b.next == |b.ids|
    ensures b == SettledBatch(db, b.ids, b.limit, c) && AllSettled(db, b, k)
  {
    assert b.ids[..|b.ids|] == b.ids;
    assert b.items == Reports(db, b.ids, c);
  }

  /** The savepoint of the batch, set right after the claim, starts the per-event loop. */
  lemma SaveBetween(db: DB, ids: seq<Id>, limit: nat, k: Work, c: Constraint)
    requires Untried(db, ClaimedBatch(db, ids, limit), k) && k.saves == [] && !k.aborted
    ensures Between(db, ClaimedBatch(db, ids, limit), Savepoint(k, BATCH_SAVE), c)
  {
    assert ids[..0] == [];
    NothingRecorded(db, ids, limit, {});
  }

  /** When no event is rejected, one INSERT and one DELETE settle the batch. */
  lemma BulkSettles(db: DB, ids: seq<Id>, limit: nat, k: Work, c: Constraint, k1: Work, k2: Work)
    requires Partition(db) && Untried(db, ClaimedBatch(db, ids, limit), k)
    requires forall id <- ids :: c(id).None?
    requires k1 == Post(db, Savepoint(k, BATCH_SAVE), Members(ids)) && k2 == Remove(db, k1, Members(ids))
    ensures AllSettled(db, SettledBatch(db, ids, limit, c), k2)
    ensures |Removed(db, k1, Members(ids))| == |PostedIn(Outcomes(ids, c))|
  {
    var b := ClaimedBatch(db, ids, limit);
    BulkPostWrites(db, Members(ids), Savepoint(k, BATCH_SAVE));
    BulkRemoveWrites(db, ids, k1);
    BulkOutcomes(ids, c);
    AllPostedRecorded(db, b);
    DistinctCard(ids);
    BulkReports(db, ids, limit, c);
    assert NoteAll(b, |ids|) == SettledBatch(db, ids, limit, c);
  }

  lemma BulkReports(db: DB, ids: seq<Id>, limit: nat, c: Constraint)
    requires Outcomes(ids, c) == AllPosted(ids)
    ensures Reports(db, ids, c) == MarkAll(ClaimedBatch(db, ids, limit).items)
  {
    forall i | 0 <= i < |ids| ensures Reports(db, ids, c)[i] == ItemPosted(Seen(db, ids[i])) {
      assert ids[i] in AllPosted(ids);
    }
  }

  /** Marking every report of a bulk post is what the per-event loop would report. */
  lemma BulkMarks(db: DB, ids: seq<Id>, limit: nat, c: Constraint, items: seq<Item>)
    requires AcceptsAll(ids, c) && items == ClaimedBatch(db, ids, limit).items
    ensures MarkAll(items) == Reports(db, ids, c) && SameIds(MarkAll(items), items) && Confirming(ids, c)
  {
    BulkOutcomes(ids, c);
    BulkReports(db, ids, limit, c);
  }

  /** The ids an undisturbed batch claims. */
  function BatchIds(db: DB, limit: nat): seq<Id> { Tables.Claim(db.pending, Eligible(db.pending), limit) }

  /** What a batch of at most `limit` does to the tables and tells the worker, bulk or not. */
  ghost predicate Settled(before: DB, after: DB, limit: nat, c: Constraint) {
    var m := Outcomes(BatchIds(before, limit), c);
    Confirming(BatchIds(before, limit), c) && CanSettle(before, m, limit) && after == SettleEffect(before, m)
  }

  ghost predicate BatchAnswer(before: DB, after: DB, limit: int, c: Constraint, reliable: bool, r: BatchResult, ok: bool) {
    if limit < 1 || limit > 1000 then !ok && r == BatchResult(0, []) && after == before
    else
      var ids := BatchIds(before, limit);
      && (ok ==> && Settled(before, after, limit, c)
                 && r.events == Reports(before, ids, c)
                 && r.processed == |PostedIn(Outcomes(ids, c))|)
      && (!ok ==> && (after == before || (!reliable && Settled(before, after, limit, c)))
                  && r.processed == 0
                  && (r.events == [] || |r.events| == |ids|)
                  && forall i :: 0 <= i < |r.events| ==> r.events[i] == Item(Seen(before, ids[i]).requestId, "", "", 0, 0))
      && (reliable && Confirming(ids, c) ==> ok)
  }

  /** Every id settled as the constraint demands, in a transaction that can commit. */
  ghost predicate Complete(db: DB, ids: seq<Id>, limit: nat, c: Constraint, k: Work) {
    AllSettled(db, SettledBatch(db, ids, limit, c), k) && !k.aborted
  }

  /** The one result of a batch on `ids`, whichever path led to it: every violation is a confirmed
      integrity error, and the writes, the reports and the count are those of the constraint. */
  ghost predicate SettledAs(db: DB, ids: seq<Id>, limit: nat, c: Constraint, k: Work, reports: seq<Item>, processed: nat) {
    && Confirming(ids, c) && reports == Reports(db, ids, c)
    && Complete(db, ids, limit, c, k) && processed == |PostedIn(Outcomes(ids, c))|
  }

  lemma BatchCommitted(db: DB, ids: seq<Id>, limit: nat, c: Constraint, k: Work)
    requires Consistent(db) && Complete(db, ids, limit, c, k)
    ensures CanSettle(db, Outcomes(ids, c), limit) && Apply(db, k.writes) == SettleEffect(db, Outcomes(ids, c))
    ensures Consistent(Apply(db, k.writes))
  {
    var s := Session(BatchDone(SettledBatch(db, ids, limit, c)), k);
    SettleCommits(db, s);
    StepConsistent(db, Settle(Outcomes(ids, c), limit));
  }

  /** An empty claim commits nothing. */
  lemma BatchSettles(db: DB, limit: nat, c: Constraint, k: Work)
    requires Consistent(db) && Confirming(BatchIds(db, limit), c)
    requires Complete(db, BatchIds(db, limit), limit, c, k)
    ensures Settled(db, Apply(db, k.writes), limit, c) && Consistent(Apply(db, k.writes))
  {
    BatchCommitted(db, BatchIds(db, limit), limit, c, k);
  }

  /** Each report is a fact about its row before and after the batch: processed and in the ledger exactly
      if the constraint accepts it, else one failure more with the constraint's code, and quarantined
      exactly at three. The count is that of the processed ones. */
  ghost predicate ReportsTrue(before: DB, after: DB, ids: seq<Id>, c: Constraint, r: BatchResult) {
    && |r.events| == |ids| && r.processed == |after.ledger| - |before.ledger|
    && forall i :: 0 <= i < |ids| ==>
         && Truthful(before, after, ids[i], r.events[i])
         && (r.events[i].outcome == "processed" <==> c(ids[i]) == None)
         && (c(ids[i]) != None ==> c(ids[i]) == Some(r.events[i].code))
  }

  lemma ReportTrue(before: DB, ids: seq<Id>, c: Constraint, i: nat)
    requires Partition(before) && Members(ids) <= Eligible(before.pending) && i < |ids|
    ensures var item := Reports(before, ids, c)[i];
            && Truthful(before, SettleEffect(before, Outcomes(ids, c)), ids[i], item)
            && (item.outcome == "processed" <==> c(ids[i]) == None)
            && (c(ids[i]) != None ==> c(ids[i]) == Some(item.code))
  {
    assert ids[i] in Members(ids);
    OutcomesMean(ids, c, ids[i]);
    ReportTruthful(before, Outcomes(ids, c), ids[i]);
  }

  lemma ReportedTruly(before: DB, after: DB, limit: nat, c: Constraint, r: BatchResult)
    requires Partition(before) && Settled(before, after, limit, c)
    requires r.events == Reports(before, BatchIds(before, limit), c)
    requires r.processed == |PostedIn(Outcomes(BatchIds(before, limit), c))|
    ensures ReportsTrue(before, after, BatchIds(before, limit), c, r)
  {
    var ids := BatchIds(before, limit);
    var posted := PostedIn(Outcomes(ids, c));
    forall i | 0 <= i < |ids|
      ensures Truthful(before, after, ids[i], r.events[i])
      ensures r.events[i].outcome == "processed" <==> c(ids[i]) == None
      ensures c(ids[i]) != None ==> c(ids[i]) == Some(r.events[i].code)
    {
      ReportTrue(before, ids, c, i);
    }
    assert posted <= Eligible(before.pending);
    assert |before.ledger + posted| == |before.ledger| + |posted|;
  }

  /** Claimed earlier: the smaller stamp, or the same stamp and the smaller id in dictionary order. */
  ghost predicate Sooner(p: map<Id, PendingRow>, x: Id, y: Id)
    requires x in p && y in p
  {
    p[x].enqueuedAt < p[y].enqueuedAt || (p[x].enqueuedAt == p[y].enqueuedAt && exists k :: SmallerAt(x, y, k))
  }

  lemma PrecedesIsSooner(p: map<Id, PendingRow>, x: Id, y: Id)
    requires x in p && y in p
    ensures Precedes(p, x, y) <==> Sooner(p, x, y)
  {
    LessIsDictionaryOrder(x, y);
  }

  /** The rows an undisturbed batch claims, in figures: the first `limit` queued rows with fewer than
      three failures, by stamp and then by id in dictionary order. */
  lemma BatchIdsMean(db: DB, limit: nat)
    ensures var ids := BatchIds(db, limit); var p := db.pending;
            && (forall id <- ids :: id in p && p[id].failures < 3)
            && (forall i, j :: 0 <= i < j < |ids| ==> ids[i] != ids[j] && Sooner(p, ids[i], ids[j]))
            && |ids| <= limit
            && forall x, y :: x in ids && y in p && p[y].failures < 3 && y !in ids ==> |ids| == limit && Sooner(p, x, y)
  {
    var ids, p := BatchIds(db, limit), db.pending;
    ClaimIsQueuePrefix(p, Eligible(p), limit);
    DistinctCard(ids);
    forall i, j | 0 <= i < j < |ids| ensures Sooner(p, ids[i], ids[j]) {
      PrecedesIsSooner(p, ids[i], ids[j]);
    }
    forall x, y | x in ids && y in p && p[y].failures < 3 && y !in ids ensures |ids| == limit && Sooner(p, x, y) {
      PrecedesIsSooner(p, x, y);
      assert y in Eligible(p);
      if |ids| != limit {
        AllClaimed(Members(ids), Eligible(p));
        assert false;
      }
    }
  }

  lemma AllClaimed(a: set<Id>, b: set<Id>)
    requires a <= b && |a| == |b|
    ensures a == b
  {
    assert b == a + (b - a);
  }

  lemma FailedAnswer(before: DB, after: DB, limit: nat, c: Constraint, reliable: bool, events: seq<Item>)
    requires 1 <= limit <= 1000 && !(reliable && Confirming(BatchIds(before, limit), c))
    requires after == before || (!reliable && Settled(before, after, limit, c))
    requires events == [] || SameIds(events, ClaimedBatch(before, BatchIds(before, limit), limit).items)
    ensures BatchAnswer(before, after, limit, c, reliable, BatchResult(0, Redact(events)), false)
  {
  }

  /** What an idle transaction claims when nothing else is locked. */
  lemma ClaimAlone(db: DB, limit: nat)
    ensures View(db, IDLE) == db && ClaimIds(db, IDLE, {}, limit) == BatchIds(db, limit)
    ensures var ids := BatchIds(db, limit); Untried(db, ClaimedBatch(db, ids, limit), LockRows(IDLE, Members(ids)))
  {
    NothingWritten(db);
    assert Eligible(db.pending) - {} == Eligible(db.pending);
    ClaimUntried(db, {}, limit);
  }

  lemma NothingClaimed(db: DB, limit: nat, k: Work, c: Constraint)
    requires Untried(db, ClaimedBatch(db, [], limit), k)
    ensures AllSettled(db, SettledBatch(db, [], limit, c), k)
  {
    var b := SettledBatch(db, [], limit, c);
    NothingRecorded(db, [], limit, {});
    assert PostedIn(map[]) == {};
    assert b == ClaimedBatch(db, [], limit);
  }

  /** The store of one database. All instances sharing a queue use the same limit. */
  class Store {
    const base: Database
    const maxPending: nat

    constructor (base: Database, limit: nat)
      ensures this.base == base && this.maxPending == limit
    {
      this.base, this.maxPending := base, limit;
    }

    /** The part of Accept that only a new event runs: admission lock, fresh count, enqueue. */
    method Admit(tx: Tx, e: Priced) returns (r: Result<()>)
      requires tx.base == base
      requires AcceptCoherent(base.db, Session(AcceptLock(e, maxPending), tx.work)) && Partition(base.db)
      modifies tx`work, base`clock
      ensures r.Ok? ==> AcceptCoherent(base.db, Session(AcceptRead(e, maxPending, true), tx.work))
      ensures r == Err(QueueFull) ==> |base.db.pending| >= maxPending
      ensures r.Err? ==> r.error == QueueFull || (r.error == Unavailable && !base.reliable)
    {
      PendingUnwritten(base.db, tx.work.writes);
      var ok := tx.LockAdmission();
      if !ok {
        return Err(Unavailable);
      }
      var pending;
      pending, ok := tx.CountPending(maxPending);
      if !ok {
        return Err(Unavailable);
      }
      if pending >= maxPending {
        return Err(QueueFull);
      }
      ghost var s, now := Session(AcceptEnqueue(e, maxPending), tx.work), base.clock;
      ok := tx.Enqueue(e.input.eventId);
      if !ok {
        return Err(Unavailable);
      }
      EnqueueCoherent(base.db, s, now);
      return Ok(());
    }

    /** The statements of Accept inside its transaction. */
    method AcceptWork(tx: Tx, e: Priced) returns (r: Result<(Event, bool)>)
      requires tx.base == base && tx.work == IDLE && Consistent(base.db)
      modifies tx`work, base`clock
      ensures r.Ok? ==> AcceptCoherent(base.db, Session(AcceptDone(e, maxPending, r.value.1, r.value.0), tx.work))
      ensures r.Ok? && !r.value.1 ==> Tables.ReadEvent(base.db, e.input.eventId) == Some(r.value.0)
      ensures r.Err? ==> AcceptAnswer(base.db, base.db, e, maxPending, base.reliable, r)
    {
      var created, ok := tx.InsertUsage(e);
      if !ok {
        return Err(Unavailable);
      }
      NothingWritten(base.db);
      if created {
        var admitted := Admit(tx, e);
        if admitted.Err? {
          return Err(admitted.error);
        }
      }
      ghost var s := Session(AcceptRead(e, maxPending, created), tx.work);
      var stored;
      stored, ok := tx.ReadEvent(e.input.eventId);
      if !ok {
        return Err(Unavailable);
      }
      if stored.None? {
        return Err(NotFound);
      }
      if stored.value.usage.priced.input != e.input {
        return Err(Conflict);
      }
      ReadCoherent(base.db, s, 0);
      return Ok((stored.value, created));
    }

    /** Accept commits both the frozen input and its queue row, or neither. */
    method Accept(e: Priced) returns (r: Result<(Event, bool)>)
      requires Consistent(base.db)
      modifies base
      ensures Consistent(base.db)
      ensures AcceptAnswer(old(base.db), base.db, e, maxPending, base.reliable, r)
    {
      var tx := new Tx(base);
      r := AcceptWork(tx, e);
      if r.Err? {
        return;
      }
      if r.value.1 {
        AcceptCommitted(base.db, e, maxPending, r.value.0, tx.work);
      } else {
        NothingWritten(base.db);
      }
      var ok := tx.Commit();
      if !ok {
        return Err(Unavailable);
      }
      ReadEventShows(base.db, e.input.eventId);
    }

    method Get(id: Id) returns (r: Result<Event>)
      modifies base`clock
      ensures r.Ok? ==> EventShows(base.db, id, r.value)
      ensures r == Err(NotFound) ==> id !in base.db.usage
      ensures r.Err? ==> r == Err(NotFound) || (r == Err(Unavailable) && !base.reliable)
    {
      var tx := new Tx(base);
      var event, ok := tx.ReadEvent(id);
      NothingWritten(base.db);
      ReadEventShows(base.db, id);
      if !ok {
        return Err(Unavailable);
      }
      return if event.None? then Err(NotFound) else Ok(event.value);
    }

    /** The statements of Retry inside its transaction. */
    method RetryWork(tx: Tx, id: Id, generation: int) returns (r: Result<(Event, bool)>)
      requires tx.base == base && tx.work == IDLE && Consistent(base.db) && ValidId(id) && 0 <= generation < MAX_INT64
      modifies tx`work, base`clock
      ensures r.Ok? ==> RetryCoherent(base.db, Session(RetryDone(id, generation, r.value.1, r.value.0), tx.work))
      ensures r.Ok? && !r.value.1 ==>
                Tables.ReadEvent(base.db, id) == Some(r.value.0) && Applied(base.db, id, generation)
      ensures r.Err? ==> RetryAnswer(base.db, base.db, id, generation, base.reliable, r)
    {
      NothingWritten(base.db);
      var retried := false;
      var row, ok := tx.LockPending(id);
      if !ok {
        return Err(Unavailable);
      }
      if row.Some? {
        if row.value.failures == QUARANTINE && row.value.generation == generation {
          ghost var now := base.clock;
          ok := tx.Reactivate(id);
          if !ok {
            return Err(Unavailable);
          }
          ReactivateWrites(base.db, id, generation, now);
          retried := true;
        } else if row.value.failures < QUARANTINE && row.value.generation == generation + 1 {
          // The request was applied before; nothing to do.
        } else {
          return Err(RetryConflict);
        }
      }
      ghost var s := Session(RetryRead(id, generation, retried), tx.work);
      var event;
      event, ok := tx.ReadEvent(id);
      if !ok {
        return Err(Unavailable);
      }
      if event.None? {
        return Err(NotFound);
      }
      RetryReadStep(base.db, s, 0);
      return Ok((event.value, retried));
    }

    /** Retry reactivates exactly the quarantined generation it names. */
    method Retry(id: Id, generation: int) returns (r: Result<(Event, bool)>)
      requires Consistent(base.db)
      modifies base
      ensures Consistent(base.db)
      ensures RetryAnswer(old(base.db), base.db, id, generation, base.reliable, r)
    {
      var valid := ValidateID(id);
      if !valid || generation < 0 || generation >= MAX_INT64 {
        return Err(Invalid);
      }
      var tx := new Tx(base);
      r := RetryWork(tx, id, generation);
      if r.Err? {
        return;
      }
      if r.value.1 {
        RetryCommitted(base.db, id, generation, r.value.0, tx.work);
      } else {
        NothingWritten(base.db);
      }
      var ok := tx.Commit();
      if !ok {
        return Err(Unavailable);
      }
      ReadEventShows(base.db, id);
    }

    /** The failed branch of an iteration: undo the INSERT, then record the failure. */
    method RejectIsolated(tx: Tx, ghost m: map<Id, Outcome>, ghost k: Work, id: Id, code: string, ghost marked: set<Id>)
      returns (ok: bool)
      requires tx.base == base && QueueValid(base.db) && Ready(base.db, m, k, id) && Confirmed(code)
      requires tx.work == Spoil(base.db, Statements.Savepoint(k, EVENT_SAVE), {id}, marked)
      modifies tx`work, base`clock
      ensures ok ==> tx.work == SettledInside(base.db, m, k, id, Rejected(code))
      ensures base.reliable ==> ok
    {
      RejectedSettled(base.db, m, k, id, code, marked);
      RejectedRow(base.db, m, k, id, code);
      ok := tx.RollbackTo(EVENT_SAVE);
      if ok {
        ok := tx.RecordFailure(id, code);
      }
    }

    /** The statements of one iteration of `processIndividually`, up to the release. */
    method AttemptEvent(tx: Tx, ghost m: map<Id, Outcome>, id: Id, c: Constraint) returns (outcome: Outcome, ok: bool)
      requires tx.base == base && QueueValid(base.db) && Ready(base.db, m, tx.work, id)
      modifies tx`work, base`clock
      ensures ok ==> outcome == OutcomeOf(id, c) && Confirms(c, id)
      ensures ok ==> tx.work == SettledInside(base.db, m, old(tx.work), id, outcome)
      ensures base.reliable && Confirms(c, id) ==> ok
    {
      ghost var k := tx.work;
      outcome := Posted;
      ok := tx.Savepoint(EVENT_SAVE);
      if !ok {
        return;
      }
      assert Members([id]) == {id};
      var postErr, marked := tx.Post([id], c);
      if postErr.Some? {
        var code := IntegrityCode(postErr.value);
        if code == "" {
          return Posted, false;
        }
        outcome := Rejected(code);
        ok := RejectIsolated(tx, m, k, id, code, marked);
      } else {
        PostedSettled(base.db, m, k, id);
        var removed;
        removed, ok := tx.Remove([id]);
      }
    }

    /** One iteration of `processIndividually`. */
    method PostIsolated(tx: Tx, ghost b: Batch, id: Id, c: Constraint) returns (outcome: Outcome, ok: bool)
      requires tx.base == base && Partition(base.db) && QueueValid(base.db)
      requires Current(base.db, b, tx.work, c, id)
      modifies tx`work, base`clock
      ensures ok ==> outcome == OutcomeOf(id, c) && Confirms(c, id)
      ensures ok ==> Between(base.db, Note(b, outcome).(next := b.next + 1), tx.work, c)
      ensures base.reliable && Confirms(c, id) ==> ok
    {
      ghost var k := tx.work;
      CurrentReady(base.db, b, k, c, id);
      outcome, ok := AttemptEvent(tx, b.outcomes, id, c);
      if ok {
        SettledNoted(base.db, b, k, c, id);
        ReleasedBetween(base.db, Note(b, outcome), tx.work, c);
        ok := tx.Release(EVENT_SAVE);
      }
    }

    /** One iteration with its report, updated in place. */
    method SettleNext(tx: Tx, ghost b: Batch, id: Id, i: nat, results: array<Item>, c: Constraint)
      returns (posted: bool, ok: bool)
      requires tx.base == base && Partition(base.db) && QueueValid(base.db)
      requires Current(base.db, b, tx.work, c, id) && b.next == i && results[..] == b.items
      modifies tx`work, base`clock, results
      ensures ok ==> posted == c(id).None? && Confirms(c, id)
      ensures ok ==> var b' := Note(b, OutcomeOf(id, c)).(next := i + 1);
                     results[..] == b'.items && Between(base.db, b', tx.work, c)
      ensures !ok ==> results[..] == b.items
      ensures base.reliable && Confirms(c, id) ==> ok
    {
      var outcome;
      outcome, ok := PostIsolated(tx, b, id, c);
      posted := outcome.Posted?;
      if ok {
        assert results[..][i] == results[i];
        results[i] := if outcome.Rejected? then ItemRejected(results[i], outcome.code) else ItemPosted(results[i]);
        assert results[..] == Note(b, outcome).items;
      }
    }

    /** The per-event fallback; `results` is updated in place. */
    method ProcessIndividually(tx: Tx, ids: seq<Id>, results: array<Item>, c: Constraint, ghost limit: nat)
      returns (processed: nat, ok: bool)
      requires tx.base == base && Partition(base.db) && QueueValid(base.db) && results.Length == |ids|
      requires results[..] == ClaimedBatch(base.db, ids, limit).items
      requires Between(base.db, ClaimedBatch(base.db, ids, limit), tx.work, c)
      modifies tx`work, base`clock, results
      ensures ok ==> SettledAs(base.db, ids, limit, c, tx.work, results[..], processed)
      ensures ok ==> tx.work.saves == [BaseSave(ClaimedBatch(base.db, ids, limit))]
      ensures base.reliable && Confirming(ids, c) ==> ok
      ensures SameIds(results[..], ClaimedBatch(base.db, ids, limit).items)
    {
      processed := 0;
      ghost var b := ClaimedBatch(base.db, ids, limit);
      var i: nat := 0;
      while i < |ids|
        invariant i <= |ids|
        invariant b.ids == ids && b.limit == limit && b.next == i && b.processed == processed && |b.items| == |ids|
        invariant b.items == results[..]
        invariant Between(base.db, b, tx.work, c)
        invariant forall j :: 0 <= j < i ==> Confirms(c, ids[j])
      {
        ghost var before := b;
        ghost var k := tx.work;
        var posted;
        posted, ok := SettleNext(tx, b, ids[i], i, results, c);
        if !ok {
          BetweenIds(base.db, before, k, c);
          return 0, false;
        }
        if posted {
          processed := processed + 1;
        }
        b := Note(b, OutcomeOf(ids[i], c)).(next := i + 1);
        i := i + 1;
      }
      ok := true;
      BetweenEnd(base.db, b, tx.work, c);
      BetweenIds(base.db, b, tx.work, c);
    }

    method MarkProcessed(results: array<Item>)
      modifies results
      ensures results[..] == MarkAll(old(results[..]))
    {
      var i := 0;
      while i < results.Length
        invariant 0 <= i <= results.Length
        invariant forall j :: 0 <= j < i ==> results[j] == ItemPosted(old(results[j]))
        invariant forall j :: i <= j < results.Length ==> results[j] == old(results[j])
      {
        results[i] := ItemPosted(results[i]);
        i := i + 1;
      }
    }

    /** The DELETE of the bulk path; its row count is the number of posted events. */
    method RemovePosted(tx: Tx, ids: seq<Id>, c: Constraint, ghost limit: nat, ghost k: Work) returns (processed: nat, ok: bool)
      requires tx.base == base && Partition(base.db)
      requires Untried(base.db, ClaimedBatch(base.db, ids, limit), k) && AcceptsAll(ids, c) && !k.aborted
      requires tx.work == Statements.Post(base.db, Statements.Savepoint(k, BATCH_SAVE), Members(ids))
      modifies tx`work, base`clock
      ensures ok ==> Complete(base.db, ids, limit, c, tx.work)
      ensures ok ==> processed == |PostedIn(Outcomes(ids, c))|
      ensures base.reliable ==> ok
    {
      ghost var k1 := tx.work;
      processed, ok := tx.Remove(ids);
      if ok {
        BulkSettles(base.db, ids, limit, k, c, k1, tx.work);
      }
    }

    /** The bulk INSERT went through: one DELETE, and every row is reported processed. */
    method FinishBulk(tx: Tx, ids: seq<Id>, results: array<Item>, c: Constraint, ghost limit: nat, ghost k: Work)
      returns (processed: nat, ok: bool)
      requires tx.base == base && Partition(base.db)
      requires results[..] == ClaimedBatch(base.db, ids, limit).items
      requires Untried(base.db, ClaimedBatch(base.db, ids, limit), k) && AcceptsAll(ids, c) && !k.aborted
      requires tx.work == Statements.Post(base.db, Statements.Savepoint(k, BATCH_SAVE), Members(ids))
      modifies tx`work, base`clock, results
      ensures ok ==> SettledAs(base.db, ids, limit, c, tx.work, results[..], processed)
      ensures base.reliable ==> ok
      ensures SameIds(results[..], ClaimedBatch(base.db, ids, limit).items)
    {
      processed, ok := RemovePosted(tx, ids, c, limit, k);
      BulkMarks(base.db, ids, limit, c, results[..]);
      if ok {
        MarkProcessed(results);
      }
    }

    /** The bulk INSERT met a confirmed integrity error: back to the savepoint, then one by one. */
    method FallBack(
      tx: Tx, ids: seq<Id>, results: array<Item>, c: Constraint, ghost limit: nat, ghost k: Work, ghost marked: set<Id>)
      returns (processed: nat, ok: bool)
      requires tx.base == base && Partition(base.db) && QueueValid(base.db) && results.Length == |ids|
      requires results[..] == ClaimedBatch(base.db, ids, limit).items
      requires Untried(base.db, ClaimedBatch(base.db, ids, limit), k) && k.saves == [] && !k.aborted
      requires tx.work == Spoil(base.db, Statements.Savepoint(k, BATCH_SAVE), Members(ids), marked)
      modifies tx`work, base`clock, results
      ensures ok ==> SettledAs(base.db, ids, limit, c, tx.work, results[..], processed)
      ensures base.reliable && Confirming(ids, c) ==> ok
      ensures SameIds(results[..], ClaimedBatch(base.db, ids, limit).items)
    {
      SaveBetween(base.db, ids, limit, k, c);
      RollbackUndoes(base.db, k, BATCH_SAVE, Members(ids), marked);
      processed := 0;
      ok := tx.RollbackTo(BATCH_SAVE);
      if ok {
        processed, ok := ProcessIndividually(tx, ids, results, c, limit);
      }
    }

    /** Savepoint and bulk INSERT; not accepted is a confirmed integrity error. */
    method ProbeBulk(tx: Tx, ids: seq<Id>, c: Constraint) returns (accepted: bool, ok: bool, ghost marked: set<Id>)
      requires tx.base == base && !tx.work.aborted
      modifies tx`work, base`clock
      ensures ok ==> accepted == AcceptsAll(ids, c)
      ensures ok && accepted ==> tx.work == Statements.Post(base.db, Statements.Savepoint(old(tx.work), BATCH_SAVE), Members(ids))
      ensures ok && !accepted ==>
                tx.work == Spoil(base.db, Statements.Savepoint(old(tx.work), BATCH_SAVE), Members(ids), marked)
      ensures base.reliable && Confirming(ids, c) ==> ok
    {
      accepted, marked := false, {};
      ok := tx.Savepoint(BATCH_SAVE);
      if !ok {
        return;
      }
      var err;
      err, marked := tx.Post(ids, c);
      accepted := err.None?;
      if err.Some? && IntegrityCode(err.value) == "" {
        ok := false;
      }
    }

    /** The bulk attempt; on a confirmed integrity error, the per-event fallback. */
    method SettleClaimed(tx: Tx, ids: seq<Id>, results: array<Item>, c: Constraint, ghost limit: nat)
      returns (processed: nat, ok: bool)
      requires tx.base == base && Partition(base.db) && QueueValid(base.db) && results.Length == |ids|
      requires results[..] == ClaimedBatch(base.db, ids, limit).items
      requires Untried(base.db, ClaimedBatch(base.db, ids, limit), tx.work) && tx.work.saves == [] && !tx.work.aborted
      modifies tx`work, base`clock, results
      ensures ok ==> SettledAs(base.db, ids, limit, c, tx.work, results[..], processed)
      ensures base.reliable && Confirming(ids, c) ==> ok
      ensures SameIds(results[..], ClaimedBatch(base.db, ids, limit).items)
    {
      ghost var k := tx.work;
      processed := 0;
      var accepted;
      ghost var marked;
      accepted, ok, marked := ProbeBulk(tx, ids, c);
      if !ok {
        return;
      }
      if accepted {
        processed, ok := FinishBulk(tx, ids, results, c, limit, k);
      } else {
        processed, ok := FallBack(tx, ids, results, c, limit, k, marked);
      }
    }

    /** The claim and the loop that reads its rows. */
    method ReadClaimed(tx: Tx, limit: nat) returns (ids: seq<Id>, events: seq<Item>, ok: bool)
      requires tx.base == base && tx.work == IDLE
      modifies tx`work, base`clock
      ensures ok ==> ids == BatchIds(base.db, limit) && events == ClaimedBatch(base.db, ids, limit).items
      ensures ok ==> Untried(base.db, ClaimedBatch(base.db, ids, limit), tx.work) && tx.work.saves == [] && !tx.work.aborted
      ensures !ok ==> events == []
      ensures base.reliable ==> ok
    {
      ClaimAlone(base.db, limit);
      ids, events := [], [];
      var rows;
      rows, ok := tx.Claim(limit);
      if !ok {
        return;
      }
      var i := 0;
      while i < |rows|
        invariant 0 <= i <= |rows| && |ids| == |events| == i
        invariant forall j :: 0 <= j < i ==> ids[j] == rows[j].0 && events[j] == rows[j].1
      {
        ids, events := ids + [rows[i].0], events + [rows[i].1];
        i := i + 1;
      }
      assert ids == BatchIds(base.db, limit);
    }

    /** The statements of ProcessBatch inside its transaction. */
    method BatchWork(tx: Tx, limit: nat, c: Constraint) returns (events: seq<Item>, processed: nat, ok: bool)
      requires tx.base == base && tx.work == IDLE && Partition(base.db) && QueueValid(base.db)
      modifies tx`work, base`clock
      ensures events == [] || SameIds(events, ClaimedBatch(base.db, BatchIds(base.db, limit), limit).items)
      ensures ok ==> var ids := BatchIds(base.db, limit);
                     && Confirming(ids, c) && events == Reports(base.db, ids, c)
                     && Complete(base.db, ids, limit, c, tx.work)
                     && processed == |PostedIn(Outcomes(ids, c))|
      ensures base.reliable && Confirming(BatchIds(base.db, limit), c) ==> ok
    {
      processed := 0;
      var ids;
      ids, events, ok := ReadClaimed(tx, limit);
      if !ok {
        return;
      }
      if |ids| == 0 {
        assert ids == [];
        NothingClaimed(base.db, limit, tx.work, c);
        return;
      }
      var claimed := events;
      var results := new Item[|claimed|](i requires 0 <= i < |claimed| => claimed[i]);
      assert results[..] == claimed;
      processed, ok := SettleClaimed(tx, ids, results, c, limit);
      events := results[..];
    }

    /** On an error no tentative outcome is reported. */
    method Unconfirmed(events: seq<Item>) returns (redacted: seq<Item>)
      ensures redacted == Redact(events)
    {
      redacted := events;
      var i := 0;
      while i < |redacted|
        invariant 0 <= i <= |redacted| == |events|
        invariant forall j :: i <= j < |events| ==> redacted[j] == events[j]
        invariant forall j :: 0 <= j < i ==> redacted[j] == Item(events[j].requestId, "", "", 0, 0)
      {
        redacted := redacted[i := Item(redacted[i].requestId, "", "", 0, 0)];
        i := i + 1;
      }
    }

    /** Claim, post and remove in one transaction; outcomes are reported only after the commit. */
    method ProcessBatchWithResults(limit: int, c: Constraint) returns (r: BatchResult, ok: bool)
      requires Consistent(base.db)
      modifies base
      ensures Consistent(base.db)
      ensures BatchAnswer(old(base.db), base.db, limit, c, base.reliable, r, ok)
      ensures ok ==> 1 <= limit <= 1000 && ReportsTrue(old(base.db), base.db, BatchIds(old(base.db), limit), c, r)
    {
      if limit < 1 || limit > 1000 {
        return BatchResult(0, []), false;
      }
      var tx := new Tx(base);
      var events, processed;
      ghost var before := base.db;
      events, processed, ok := BatchWork(tx, limit, c);
      if ok {
        BatchSettles(before, limit, c, tx.work);
        ok := tx.Commit();
      }
      if !ok {
        var redacted := Unconfirmed(events);
        FailedAnswer(before, base.db, limit, c, base.reliable, events);
        return BatchResult(0, redacted), false;
      }
      ReportedTruly(before, base.db, limit, c, BatchResult(processed, events));
      return BatchResult(processed, events), true;
    }
  }

  method NewWithQueueLimit(base: Database?, limit: int) returns (store: Store?)
    ensures store == null <==> base == null || limit < 1 || limit > 1000000
    ensures store != null ==> fresh(store) && store.base == base && store.maxPending == limit
  {
    if base == null || limit < 1 || limit > 1000000 {
      return null;
    }
    store := new Store(base, limit);
  }
}
