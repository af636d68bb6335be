/** The atomic level: one step per committed transaction, and what every run of such steps keeps. */
module Atomic {
  import opened Options
  import opened Identifiers
  import opened Tables
  import opened Statements
  import Sums

  datatype Outcome = Posted | Rejected(code: string)

  /** A fixed ledger constraint: None accepts the event, a code rejects it. */
  type Constraint = Id -> Option<string>

  /** What the per-event attempts yield under a fixed constraint. */
  function Outcomes(ids: seq<Id>, c: Constraint): map<Id, Outcome> {
    if ids == [] then map[]
    else map id | id in Members(ids) :: if c(id).None? then Posted else Rejected(c(id).value)
  }

  /** The verdict on one event, under a fixed constraint. */
  function OutcomeOf(id: Id, c: Constraint): Outcome {
    if c(id).None? then Posted else Rejected(c(id).value)
  }

  lemma OutcomesNext(ids: seq<Id>, i: nat, c: Constraint)
    requires i < |ids|
    ensures Outcomes(ids[..i + 1], c) == Outcomes(ids[..i], c)[ids[i] := OutcomeOf(ids[i], c)]
  {
    assert ids[..i + 1] == ids[..i] + [ids[i]];
  }

  /** One outcome per id: posted exactly when the constraint has no objection, else its code. */
  lemma OutcomesMean(ids: seq<Id>, c: Constraint, id: Id)
    ensures id in Outcomes(ids, c) <==> id in ids
    ensures id in ids && c(id) == None ==> Outcomes(ids, c)[id] == Posted
    ensures forall code :: id in ids && c(id) == Some(code) ==> Outcomes(ids, c)[id] == Rejected(code)
  {
  }

  /** Every event of the batch satisfies the constraint. */
  ghost predicate AcceptsAll(ids: seq<Id>, c: Constraint) { forall id <- ids :: c(id).None? }

  /** The committed effect of Accept, ProcessBatch and Retry. Order inside a batch is immaterial. */
  datatype Op =
    | Admit(event: Priced, createdAt: nat, enqueuedAt: nat, limit: nat)
    | Settle(outcomes: map<Id, Outcome>, limit: nat)
    | Revive(id: Id, generation: int, now: nat)

  /** A committed transaction and whether its caller was told that it committed. */
  datatype Commit = Commit(op: Op, confirmed: bool)

  function PostedIn(m: map<Id, Outcome>): set<Id> { set id | id in m && m[id].Posted? }

  function SettlePending(p: map<Id, PendingRow>, m: map<Id, Outcome>): map<Id, PendingRow> {
    map id | id in p && !(id in m && m[id].Posted?) ::
      if id in m && m[id].Rejected? then Bump(p[id], m[id].code) else p[id]
  }

  ghost predicate CanAdmit(db: DB, e: Priced, limit: nat) {
    ValidPriced(e) && e.input.eventId !in db.usage && |db.pending| < limit
  }

  ghost predicate CanSettle(db: DB, m: map<Id, Outcome>, limit: nat) {
    && |m| <= limit
    && m.Keys <= Eligible(db.pending)
    && (forall id <- m :: m[id].Rejected? ==> m[id].code in INTEGRITY_CODES)
  }

  ghost predicate CanRevive(db: DB, id: Id, g: int) {
    && 0 <= g < MAX_INT64
    && id in db.pending && db.pending[id].failures == QUARANTINE && db.pending[id].generation == g
  }

  ghost predicate Legal(db: DB, op: Op) {
    match op
    case Admit(e, _, _, limit) => CanAdmit(db, e, limit)
    case Settle(m, limit) => CanSettle(db, m, limit)
    case Revive(id, g, _) => CanRevive(db, id, g)
  }

  function AdmitEffect(db: DB, e: Priced, createdAt: nat, enqueuedAt: nat): DB {
    var id := e.input.eventId;
    DB(db.usage[id := Usage(e, createdAt)], db.pending[id := Fresh(enqueuedAt)], db.ledger)
  }

  function SettleEffect(db: DB, m: map<Id, Outcome>): DB {
    DB(db.usage, SettlePending(db.pending, m), db.ledger + PostedIn(m))
  }

  function ReviveEffect(db: DB, id: Id, now: nat): DB {
    if id !in db.pending then db
    else db.(pending := db.pending[id := Reactivated(db.pending[id], now)])
  }

  function Effect(db: DB, op: Op): DB {
    match op
    case Admit(e, createdAt, enqueuedAt, _) => AdmitEffect(db, e, createdAt, enqueuedAt)
    case Settle(m, _) => SettleEffect(db, m)
    case Revive(id, _, now) => ReviveEffect(db, id, now)
  }

  /** A run: the committed states between the commits of `log`, in commit order. */
  ghost predicate Behaves(states: seq<DB>, log: seq<Commit>) {
    && |states| == |log| + 1
    && forall i :: 0 <= i < |log| ==> StepAt(states, log, i)
  }

  ghost predicate StepAt(states: seq<DB>, log: seq<Commit>, i: nat)
    requires |states| == |log| + 1 && i < |log|
  {
    Legal(states[i], log[i].op) && states[i + 1] == Effect(states[i], log[i].op)
  }

  // ---------------------------------------------------------------- one step

  lemma AdmitPartition(db: DB, e: Priced, createdAt: nat, enqueuedAt: nat)
    requires Partition(db) && e.input.eventId !in db.usage
    ensures Partition(AdmitEffect(db, e, createdAt, enqueuedAt))
  {
  }

  lemma AdmitRows(db: DB, e: Priced, createdAt: nat, enqueuedAt: nat)
    requires UsageValid(db) && QueueValid(db) && ValidPriced(e)
    ensures var db' := AdmitEffect(db, e, createdAt, enqueuedAt); UsageValid(db') && QueueValid(db')
  {
  }

  lemma SettlePartition(db: DB, m: map<Id, Outcome>)
    requires Partition(db) && m.Keys <= Eligible(db.pending)
    ensures Partition(SettleEffect(db, m))
  {
    assert SettlePending(db.pending, m).Keys == db.pending.Keys - PostedIn(m);
    assert PostedIn(m) <= db.pending.Keys;
  }

  lemma SettleRows(p: map<Id, PendingRow>, m: map<Id, Outcome>)
    requires AllValid(p)
    requires m.Keys <= Eligible(p)
    requires forall id <- m :: m[id].Rejected? ==> m[id].code in INTEGRITY_CODES
    ensures var p' := SettlePending(p, m); forall id <- p' :: ValidPending(p'[id])
  {
    var p' := SettlePending(p, m);
    forall id <- p' ensures ValidPending(p'[id]) {
      assert ValidPending(p[id]);
    }
  }

  lemma RevivePartition(db: DB, id: Id, now: nat)
    requires Partition(db)
    ensures Partition(ReviveEffect(db, id, now))
  {
  }

  lemma ReviveRows(db: DB, id: Id, g: int, now: nat)
    requires UsageValid(db) && QueueValid(db) && CanRevive(db, id, g)
    ensures var db' := ReviveEffect(db, id, now); UsageValid(db') && QueueValid(db')
  {
  }

  /** No committed transaction breaks a key, a reference or a CHECK. */
  lemma StepConsistent(db: DB, op: Op)
    requires Consistent(db) && Legal(db, op)
    ensures Consistent(Effect(db, op))
  {
    match op
    case Admit(e, createdAt, enqueuedAt, _) =>
      AdmitPartition(db, e, createdAt, enqueuedAt);
      AdmitRows(db, e, createdAt, enqueuedAt);
    case Settle(m, _) =>
      SettlePartition(db, m);
      SettleRows(db.pending, m);
    case Revive(id, g, now) =>
      RevivePartition(db, id, now);
      ReviveRows(db, id, g, now);
  }

  /** The failure-state machine: the only ways a committed transaction can move a queued row. */
  ghost predicate RowMoves(db: DB, op: Op, id: Id)
    requires id in db.pending
  {
    var row, db' := db.pending[id], Effect(db, op);
    if op.Settle? && id in op.outcomes then
      && row.failures < 3
      && (match op.outcomes[id]
          case Posted => id !in db'.pending && id in db'.ledger
          case Rejected(code) => id in db'.pending && db'.pending[id] == row.(failures := row.failures + 1, code := code))
    else if op.Revive? && id == op.id then
      && row.failures == 3 && row.generation == op.generation
      && id in db'.pending && db'.pending[id] == PendingRow(0, "", row.generation + 1, op.now)
    else id in db'.pending && db'.pending[id] == row
  }

  lemma StepMovesRow(db: DB, op: Op, id: Id)
    requires Partition(db) && Legal(db, op) && id in db.pending
    ensures RowMoves(db, op, id)
  {
  }

  /** What an admission adds: the priced input, and a queue row without failures at generation 0. */
  lemma StepAdmits(db: DB, op: Op)
    requires Legal(db, op) && op.Admit?
    ensures var id, db' := op.event.input.eventId, Effect(db, op);
            && id !in db.usage && |db.pending| < op.limit
            && db'.usage == db.usage[id := Usage(op.event, op.createdAt)]
            && db'.pending == db.pending[id := PendingRow(0, "", 0, op.enqueuedAt)]
            && db'.ledger == db.ledger
  {
  }

  /** What a batch leaves: exactly the posted ids gain a mark and lose their row; no other row goes. */
  lemma StepSettles(db: DB, op: Op)
    requires Legal(db, op) && op.Settle?
    ensures var db' := Effect(db, op);
            && db'.usage == db.usage
            && (forall id :: id in db'.ledger <==> id in db.ledger || (id in op.outcomes && op.outcomes[id].Posted?))
            && (forall id :: id in db'.pending <==> id in db.pending && !(id in op.outcomes && op.outcomes[id].Posted?))
  {
  }

  /** Accepted rows are frozen and posted marks stay. */
  ghost predicate Extends(a: DB, b: DB) {
    && a.ledger <= b.ledger
    && (forall id <- a.usage :: id in b.usage && b.usage[id] == a.usage[id])
  }

  lemma StepExtends(db: DB, op: Op)
    requires Legal(db, op)
    ensures Extends(db, Effect(db, op))
  {
  }

  // ------------------------------------------------------------- whole runs

  /** Single charge and no loss, part one: in every reachable state the accepted ids are the
      disjoint union of queued and posted ids, and every row meets its CHECKs. */
  lemma {:induction false} RunConsistent(states: seq<DB>, log: seq<Commit>, i: nat)
    requires Behaves(states, log) && Consistent(states[0]) && i < |states|
    ensures Consistent(states[i])
  {
    if i > 0 {
      RunConsistent(states, log, i - 1);
      assert StepAt(states, log, i - 1);
      StepConsistent(states[i - 1], log[i - 1].op);
    }
  }

  /** Part two: between any two points of a run nothing accepted changes and no mark disappears. */
  lemma {:induction false} RunExtends(states: seq<DB>, log: seq<Commit>, i: nat, j: nat)
    requires Behaves(states, log) && i <= j < |states|
    ensures Extends(states[i], states[j])
  {
    if i < j {
      RunExtends(states, log, i, j - 1);
      assert StepAt(states, log, j - 1);
      StepExtends(states[j - 1], log[j - 1].op);
    }
  }

  /** What the commit of `op` leaves alone. */
  ghost predicate Untouched(op: Op, id: Id) {
    match op
    case Admit(e, _, _, _) => e.input.eventId != id
    case Settle(m, _) => id !in m
    case Revive(r, _, _) => r != id
  }

  lemma PostedUntouched(db: DB, op: Op, id: Id)
    requires Partition(db) && Legal(db, op) && id in db.ledger
    ensures Untouched(op, id) && id !in Effect(db, op).pending
  {
  }

  /** Part three: a posted id is never queued, claimed, posted or reactivated again. */
  lemma PostedForever(states: seq<DB>, log: seq<Commit>, id: Id, i: nat, j: nat)
    requires Behaves(states, log) && Consistent(states[0]) && i <= j < |log|
    requires id in states[i].ledger
    ensures id in states[j].ledger && id !in states[j].pending && id !in states[j + 1].pending
    ensures Untouched(log[j].op, id)
  {
    RunExtends(states, log, i, j);
    RunConsistent(states, log, j);
    assert StepAt(states, log, j);
    PostedUntouched(states[j], log[j].op, id);
  }

  lemma SettlePosts(db: DB, op: Op)
    requires op.Settle?
    ensures PostedIn(op.outcomes) <= Effect(db, op).ledger
  {
  }

  /** Each event is posted by at most one batch of a run. */
  lemma OneChargePerEvent(states: seq<DB>, log: seq<Commit>, i: nat, j: nat)
    requires Behaves(states, log) && Consistent(states[0]) && i < j < |log|
    requires log[i].op.Settle? && log[j].op.Settle?
    ensures PostedIn(log[i].op.outcomes) !! PostedIn(log[j].op.outcomes)
  {
    assert StepAt(states, log, i);
    SettlePosts(states[i], log[i].op);
    forall id <- PostedIn(log[i].op.outcomes) ensures id !in PostedIn(log[j].op.outcomes) {
      PostedForever(states, log, id, i + 1, j);
    }
  }

  lemma OneAdmissionPerEvent(states: seq<DB>, log: seq<Commit>, i: nat, j: nat)
    requires Behaves(states, log) && i < j < |log| && log[i].op.Admit? && log[j].op.Admit?
    ensures log[i].op.event.input.eventId != log[j].op.event.input.eventId
  {
    assert StepAt(states, log, i);
    assert StepAt(states, log, j);
    RunExtends(states, log, i + 1, j);
    assert log[i].op.event.input.eventId in states[i + 1].usage;
  }

  // ---------------------------------------------------------- admission bound

  ghost predicate OneLimit(log: seq<Commit>, limit: nat) {
    forall i :: 0 <= i < |log| && log[i].op.Admit? ==> log[i].op.limit == limit
  }

  function Max(a: int, b: int): int { if a < b then b else a }

  lemma StepBounded(db: DB, op: Op, limit: nat, bound: int)
    requires Legal(db, op) && (op.Admit? ==> op.limit == limit)
    requires |db.pending| <= bound && limit <= bound
    ensures |Effect(db, op).pending| <= bound
  {
    match op
    case Admit(e, c, t, _) =>
      assert AdmitEffect(db, e, c, t).pending.Keys == db.pending.Keys + {e.input.eventId};
    case Settle(m, _) => Sums.SubsetCard(SettlePending(db.pending, m).Keys, db.pending.Keys);
    case Revive(id, _, now) =>
      assert ReviveEffect(db, id, now).pending.Keys == db.pending.Keys;
  }

  /** If every admission uses one limit, the queue never exceeds the larger of it and the start. */
  lemma {:induction false} RunBounded(states: seq<DB>, log: seq<Commit>, limit: nat, i: nat)
    requires Behaves(states, log) && OneLimit(log, limit) && i < |states|
    ensures |states[i].pending| <= Max(|states[0].pending|, limit)
  {
    if i > 0 {
      RunBounded(states, log, limit, i - 1);
      assert StepAt(states, log, i - 1);
      StepBounded(states[i - 1], log[i - 1].op, limit, Max(|states[0].pending|, limit));
    }
  }

  // ------------------------------------------------------ retry generations

  /** The event is posted, or its stored generation exceeds `g`. */
  ghost predicate Beyond(db: DB, id: Id, g: int) {
    id in db.ledger || (id in db.pending && db.pending[id].generation > g)
  }

  lemma StepBeyond(db: DB, op: Op, id: Id, g: int)
    requires Partition(db) && Legal(db, op)
    requires Beyond(db, id, g) || (op.Revive? && op.id == id && op.generation == g)
    ensures Beyond(Effect(db, op), id, g)
  {
    if id in db.pending {
      StepMovesRow(db, op, id);
    }
  }

  lemma {:induction false} GenerationAdvances(states: seq<DB>, log: seq<Commit>, i: nat, j: nat)
    requires Behaves(states, log) && Consistent(states[0]) && i < j < |states| && log[i].op.Revive?
    ensures Beyond(states[j], log[i].op.id, log[i].op.generation)
    decreases j
  {
    RunConsistent(states, log, j - 1);
    assert StepAt(states, log, j - 1);
    if i + 1 < j {
      GenerationAdvances(states, log, i, j - 1);
    }
    StepBeyond(states[j - 1], log[j - 1].op, log[i].op.id, log[i].op.generation);
  }

  /** Each (event, generation) is reactivated at most once: generations strictly increase,
      so a stale generation never revives a later failure. */
  lemma RetryOncePerGeneration(states: seq<DB>, log: seq<Commit>, i: nat, j: nat)
    requires Behaves(states, log) && Consistent(states[0]) && i < j < |log|
    requires log[i].op.Revive? && log[j].op.Revive? && log[i].op.id == log[j].op.id
    ensures log[i].op.generation < log[j].op.generation < 9223372036854775807
  {
    GenerationAdvances(states, log, i, j);
    RunConsistent(states, log, j);
    assert StepAt(states, log, j);
  }

  ghost predicate Shows(db: DB, id: Id, row: PendingRow) { id in db.pending && db.pending[id] == row }

  ghost predicate NotRevived(log: seq<Commit>, id: Id, i: nat, j: nat)
    requires j <= |log|
  {
    forall n :: i <= n < j && log[n].op.Revive? ==> log[n].op.id != id
  }

  ghost predicate NotClaimed(log: seq<Commit>, id: Id, i: nat, j: nat)
    requires j <= |log|
  {
    forall n :: i <= n < j && log[n].op.Settle? ==> id !in log[n].op.outcomes
  }

  lemma QuarantineStep(states: seq<DB>, log: seq<Commit>, id: Id, row: PendingRow, n: nat)
    requires Behaves(states, log) && n < |log| && Partition(states[n])
    requires Shows(states[n], id, row) && row.failures == 3 && (log[n].op.Revive? ==> log[n].op.id != id)
    ensures Shows(states[n + 1], id, row)
    ensures log[n].op.Settle? ==> id !in log[n].op.outcomes
  {
    assert StepAt(states, log, n);
    StepMovesRow(states[n], log[n].op, id);
  }

  /** A quarantined row is neither claimed nor changed until a reactivation of it commits. */
  lemma {:induction false} QuarantineHolds(states: seq<DB>, log: seq<Commit>, id: Id, row: PendingRow, i: nat, j: nat)
    requires Behaves(states, log) && Consistent(states[0]) && i <= j < |states|
    requires Shows(states[i], id, row) && row.failures == 3 && NotRevived(log, id, i, j)
    ensures Shows(states[j], id, row) && NotClaimed(log, id, i, j)
    decreases j
  {
    if i < j {
      QuarantineHolds(states, log, id, row, i, j - 1);
      RunConsistent(states, log, j - 1);
      QuarantineStep(states, log, id, row, j - 1);
    }
  }

  // ------------------------------------------------------------ three attempts

  /** How many batches of commits `i` to `j` claimed the event. */
  function Claims(log: seq<Commit>, id: Id, i: nat, j: nat): nat
    requires i <= j <= |log|
  {
    if i == j then 0
    else Claims(log, id, i, j - 1) + if log[j - 1].op.Settle? && id in log[j - 1].op.outcomes then 1 else 0
  }

  /** Every batch of commits `i` to `j` that claimed the event had it rejected. */
  ghost predicate AlwaysRejected(log: seq<Commit>, id: Id, i: nat, j: nat)
    requires j <= |log|
  {
    forall n :: i <= n < j && log[n].op.Settle? && id in log[n].op.outcomes ==> log[n].op.outcomes[id].Rejected?
  }

  lemma RejectedStep(states: seq<DB>, log: seq<Commit>, id: Id, n: nat)
    requires Behaves(states, log) && n < |log| && Partition(states[n]) && id in states[n].pending
    requires log[n].op.Revive? ==> log[n].op.id != id
    requires log[n].op.Settle? && id in log[n].op.outcomes ==> log[n].op.outcomes[id].Rejected?
    ensures id in states[n + 1].pending
    ensures states[n + 1].pending[id].failures ==
            states[n].pending[id].failures + if log[n].op.Settle? && id in log[n].op.outcomes then 1 else 0
  {
    assert StepAt(states, log, n);
    StepMovesRow(states[n], log[n].op, id);
  }

  /** A freshly admitted or reactivated event that is always rejected: its failures count the batches
      that claimed it, they are never more than three, and it can be claimed again exactly before the
      third. So three batches claim it, and no fourth until it is reactivated. */
  lemma {:induction false} ThreeAttempts(states: seq<DB>, log: seq<Commit>, id: Id, i: nat, j: nat)
    requires Behaves(states, log) && Consistent(states[0]) && i <= j < |states|
    requires id in states[i].pending && states[i].pending[id].failures == 0
    requires NotRevived(log, id, i, j) && AlwaysRejected(log, id, i, j)
    ensures id in states[j].pending && states[j].pending[id].failures == Claims(log, id, i, j) <= 3
    ensures id in Eligible(states[j].pending) <==> Claims(log, id, i, j) < 3
    decreases j
  {
    RunConsistent(states, log, j);
    if i < j {
      ThreeAttempts(states, log, id, i, j - 1);
      RunConsistent(states, log, j - 1);
      RejectedStep(states, log, id, j - 1);
    }
    assert ValidPending(states[j].pending[id]);
  }
}
