/** No starvation: failing rows keep their place at the head, yet every batch that finds an eligible
    row unlocked brings it nearer, under every schedule and any number of workers. */
module Fairness {
  import opened Options
  import opened Identifiers
  import opened Tables
  import opened Statements
  import opened Atomic
  import opened Sessions
  import opened SessionProofs
  import opened Interference
  import opened Machine
  import opened Claims
  import opened Attempts
  import opened Traces
  import Sums

  /** The attempts of the rows ahead of `x`: what can still delay it. */
  ghost function Delay(p: map<Id, PendingRow>, x: Id): int
    requires x in p
  {
    Credits(p, Ahead(p, x))
  }

  lemma SettleAhead(p: map<Id, PendingRow>, m: map<Id, Outcome>, x: Id)
    requires x in p && x !in m && m.Keys <= Eligible(p)
    ensures x in SettlePending(p, m) && SettlePending(p, m)[x] == p[x]
    ensures Ahead(SettlePending(p, m), x) <= Ahead(p, x)
  {
  }

  lemma SubsetCredits(p: map<Id, PendingRow>, a: set<Id>, b: set<Id>)
    requires AllValid(p) && a <= b
    ensures Credits(p, a) <= Credits(p, b)
  {
    assert b == a + (b - a);
    Sums.SumUnion(a, b - a, id => Credit(p, id));
    CreditsBounds(p, b - a);
  }

  /** A batch without `x` never adds to what is ahead of it, and a batch of rows ahead uses them up. */
  lemma SettleDelay(p: map<Id, PendingRow>, m: map<Id, Outcome>, x: Id)
    requires AllValid(p) && AllValid(SettlePending(p, m)) && x in p && x !in m && m.Keys <= Eligible(p)
    ensures x in SettlePending(p, m) && Delay(SettlePending(p, m), x) <= Delay(p, x)
    ensures m.Keys <= Ahead(p, x) ==> Delay(SettlePending(p, m), x) + |m| <= Delay(p, x)
  {
    var p', ahead := SettlePending(p, m), Ahead(p, x);
    SettleAhead(p, m, x);
    SubsetCredits(p', Ahead(p', x), ahead);
    forall id <- ahead ensures Credit(p', id) <= Credit(p, id) {
      SettleCredit(p, m, id);
    }
    Sums.SumMonotone(ahead, id => Credit(p', id), id => Credit(p, id));
    if m.Keys <= ahead {
      SettleCredits(p, m, ahead);
    }
  }

  /** The place of a row with stamp `r` in the claim order, against the row of `x`. */
  predicate EarlyRow(r: PendingRow, id: Id, row: PendingRow, x: Id) {
    r.enqueuedAt < row.enqueuedAt || (r.enqueuedAt == row.enqueuedAt && Less(id, x))
  }

  /** A new eligible row goes behind `x`, or is one more row ahead. */
  lemma NewRowDelay(p: map<Id, PendingRow>, x: Id, id: Id, r: PendingRow)
    requires AllValid(p) && ValidPending(r) && x in p && id != x && id !in Eligible(p)
    ensures !EarlyRow(r, id, p[x], x) ==> Delay(p[id := r], x) == Delay(p, x)
    ensures Delay(p[id := r], x) <= Delay(p, x) + 3
  {
    var p', ahead := p[id := r], Ahead(p, x);
    Sums.SumEqual(ahead, y => Credit(p', y), y => Credit(p, y));
    if EarlyRow(r, id, p[x], x) {
      assert Ahead(p', x) <= ahead + {id};
      SubsetCredits(p', Ahead(p', x), ahead + {id});
      assert (ahead + {id}) - {id} == ahead;
      Sums.SumRemove(ahead + {id}, y => Credit(p', y), id);
    } else {
      assert Ahead(p', x) == ahead;
    }
  }

  // ------------------------------------------------------ uncommitted rows

  /** The queue row that an open Accept or Retry has written and not yet committed. */
  function InFlight(s: Session): Option<(Id, PendingRow)> {
    var p := s.work.writes.pending;
    if s.prog.InAccept() then
      var id := s.prog.e.input.eventId;
      if id in p && p[id].Some? then Some((id, p[id].value)) else None
    else if s.prog.InRetry() then
      if s.prog.id in p && p[s.prog.id].Some? then Some((s.prog.id, p[s.prog.id].value)) else None
    else None
  }

  predicate IsEarly(s: Session, x: Id, row: PendingRow) {
    InFlight(s).Some? && EarlyRow(InFlight(s).value.1, InFlight(s).value.0, row, x)
  }

  /** The open sessions whose commit will put a row ahead of `x`. */
  function Early(sessions: map<Sid, Session>, x: Id, row: PendingRow): set<Sid> {
    set sid | sid in sessions && IsEarly(sessions[sid], x, row)
  }

  lemma AcceptNotEarly(db: DB, s: Session, now: nat, x: Id, row: PendingRow)
    requires s.prog.InAccept() && !s.prog.Finished() && ExecAccept(db, s, now).Some? && now > row.enqueuedAt
    requires IsEarly(ExecAccept(db, s, now).value, x, row)
    ensures IsEarly(s, x, row)
  {
  }

  lemma RetryNotEarly(db: DB, s: Session, now: nat, x: Id, row: PendingRow)
    requires s.prog.InRetry() && !s.prog.Finished() && ExecRetry(db, s, now).Some? && now > row.enqueuedAt
    requires IsEarly(ExecRetry(db, s, now).value, x, row)
    ensures IsEarly(s, x, row)
  {
  }

  /** Statements stamp rows with the present, hence behind `x`. */
  lemma ExecNotEarly(db: DB, s: Session, held: set<Id>, now: nat, verdict: Verdict, next: Session, x: Id, row: PendingRow)
    requires !s.prog.Finished() && Exec(db, s, held, now, verdict) == Some(next) && now > row.enqueuedAt
    requires IsEarly(next, x, row)
    ensures IsEarly(s, x, row)
  {
    ExecIs(db, s, held, now, verdict, next);
    if s.prog.InAccept() {
      AcceptNotEarly(db, s, now, x, row);
    } else if s.prog.InRetry() {
      RetryNotEarly(db, s, now, x, row);
    } else if !s.prog.BatchClaim? {
      ExecKeepsClaim(db, s, held, now, verdict, next);
    }
  }

  /** What committing `s` adds to the queue: the row in flight, under an id that is not eligible. */
  ghost predicate AddsRow(db: DB, s: Session, op: Op) {
    && InFlight(s).Some? && InFlight(s).value.0 !in Eligible(db.pending) && ValidPending(InFlight(s).value.1)
    && Effect(db, op).pending == db.pending[InFlight(s).value.0 := InFlight(s).value.1]
  }

  lemma AcceptAddsRow(db: DB, s: Session, op: Op)
    requires Partition(db) && s.prog.AcceptDone? && AcceptCoherent(db, s) && OpOf(s) == Some(op)
    ensures AddsRow(db, s, op)
  {
  }

  lemma RetryAddsRow(db: DB, s: Session, op: Op)
    requires s.prog.RetryDone? && RetryCoherent(db, s) && OpOf(s) == Some(op)
    ensures AddsRow(db, s, op)
  {
  }

  // ---------------------------------------------------------- the potential

  ghost predicate Waiting(db: DB, x: Id, row: PendingRow) {
    x in db.pending && db.pending[x] == row && row.failures < QUARANTINE
  }

  ghost function Potential(st: State, x: Id, row: PendingRow): int
    requires x in st.db.pending
  {
    Delay(st.db.pending, x) + 3 * |Early(st.sessions, x, row)|
  }

  /** The claim of this batch saw the row of `x`, and the row was not locked, or at least as many
      unlocked rows were ahead of it as the batch could take. */
  ghost predicate Fair(b: Batch, x: Id, row: PendingRow, k: nat) {
    && b.limit >= k && x in b.seen.pending && b.seen.pending[x] == row
    && (x !in b.skipped || |Ahead(b.seen.pending, x) - b.skipped| >= b.limit)
  }

  lemma FairBatchAhead(db: DB, b: Batch, x: Id, row: PendingRow, k: nat)
    requires Genuine(b) && AsSeen(db, b) && Waiting(db, x, row) && x !in b.ids && k > 0
    requires Fair(b, x, row, k) && Members(b.ids) <= Eligible(db.pending)
    ensures |b.ids| >= k && Members(b.ids) <= Ahead(db.pending, x)
  {
    ClaimAdvances(b.seen.pending, b.skipped, x, b.limit);
    forall id <- b.ids ensures id in Ahead(db.pending, x) {
      assert RowAsSeen(db, b, id);
      assert id in Members(b.ids);
    }
  }

  /** What a finished batch settles. */
  lemma BatchOutcomes(db: DB, s: Session)
    requires s.prog.BatchDone? && BatchCoherent(db, s)
    ensures var b := s.prog.b; b.outcomes.Keys == Members(b.ids) <= Eligible(db.pending) && |b.outcomes| == |b.ids|
  {
    OutcomesCount(s.prog.b);
    assert s.prog.b.ids[..|s.prog.b.ids|] == s.prog.b.ids;
  }

  lemma BatchDelay(db: DB, s: Session, x: Id, row: PendingRow, k: nat)
    requires Consistent(db) && s.prog.BatchDone? && Coherent(db, s) && Remembers(db, s)
    requires Waiting(db, x, row) && x !in s.prog.b.ids && k > 0
    ensures var p := Apply(db, s.work.writes).pending;
            && x in p && p[x] == row && Delay(p, x) <= Delay(db.pending, x)
            && (Fair(s.prog.b, x, row, k) ==> Delay(p, x) + k <= Delay(db.pending, x))
  {
    var b := s.prog.b;
    BatchOutcomes(db, s);
    FinishedCommits(db, s);
    StepConsistent(db, Settle(b.outcomes, b.limit));
    SettleDelay(db.pending, b.outcomes, x);
    if Fair(b, x, row, k) {
      FairBatchAhead(db, b, x, row, k);
    }
  }

  lemma AddedRowDelay(db: DB, s: Session, op: Op, x: Id, row: PendingRow)
    requires QueueValid(db) && AddsRow(db, s, op) && Waiting(db, x, row)
    ensures var p := Effect(db, op).pending;
            && x in p && p[x] == row
            && Delay(p, x) <= Delay(db.pending, x) + (if IsEarly(s, x, row) then 3 else 0)
  {
    NewRowDelay(db.pending, x, InFlight(s).value.0, InFlight(s).value.1);
  }

  lemma OtherDelay(db: DB, s: Session, x: Id, row: PendingRow)
    requires Consistent(db) && s.prog.Finished() && !s.prog.BatchDone? && Coherent(db, s) && Waiting(db, x, row)
    ensures var p := Apply(db, s.work.writes).pending;
            && x in p && p[x] == row
            && Delay(p, x) <= Delay(db.pending, x) + (if IsEarly(s, x, row) then 3 else 0)
  {
    FinishedCommits(db, s);
    if OpOf(s).Some? {
      if s.prog.AcceptDone? {
        AcceptAddsRow(db, s, OpOf(s).value);
      } else {
        RetryAddsRow(db, s, OpOf(s).value);
      }
      AddedRowDelay(db, s, OpOf(s).value, x, row);
    }
  }

  // ------------------------------------------------------------- one move

  /** The move commits a batch that claimed `x`. */
  ghost predicate Takes(st: State, m: Move, x: Id) {
    Enabled(st, m) && m.Finish? && st.sessions[m.sid].prog.BatchDone? && x in st.sessions[m.sid].prog.b.ids
  }

  /** The move commits a batch of at least `k` rows whose claim was of use to `x`. */
  ghost predicate Chance(st: State, m: Move, x: Id, row: PendingRow, k: nat) {
    Enabled(st, m) && m.Finish? && st.sessions[m.sid].prog.BatchDone? && Fair(st.sessions[m.sid].prog.b, x, row, k)
  }

  lemma EarlyWithout(sessions: map<Sid, Session>, sid: Sid, x: Id, row: PendingRow)
    requires sid in sessions
    ensures |Early(sessions - {sid}, x, row)| + (if IsEarly(sessions[sid], x, row) then 1 else 0) == |Early(sessions, x, row)|
  {
    assert Early(sessions - {sid}, x, row) == Early(sessions, x, row) - {sid};
  }

  lemma EarlyUpdate(sessions: map<Sid, Session>, sid: Sid, s: Session, x: Id, row: PendingRow)
    requires IsEarly(s, x, row) ==> sid in sessions && IsEarly(sessions[sid], x, row)
    ensures |Early(sessions[sid := s], x, row)| <= |Early(sessions, x, row)|
  {
    Sums.SubsetCard(Early(sessions[sid := s], x, row), Early(sessions, x, row));
  }

  lemma BeginPotential(st: State, sid: Sid, prog: Program, x: Id, row: PendingRow)
    requires Enabled(st, Begin(sid, prog)) && x in st.db.pending
    ensures Potential(Take(st, Begin(sid, prog)), x, row) <= Potential(st, x, row)
  {
    EarlyUpdate(st.sessions, sid, Session(prog, IDLE), x, row);
  }

  lemma FailPotential(st: State, sid: Sid, x: Id, row: PendingRow)
    requires sid in st.sessions && x in st.db.pending
    ensures Potential(Fail(st, sid), x, row) <= Potential(st, x, row)
  {
    EarlyWithout(st.sessions, sid, x, row);
  }

  lemma RunPotential(st: State, sid: Sid, verdict: Verdict, x: Id, row: PendingRow)
    requires sid in st.sessions && !st.sessions[sid].prog.Finished() && x in st.db.pending && st.clock > row.enqueuedAt
    ensures var st' := Run(st, sid, verdict);
            st'.db == st.db && st'.clock >= st.clock && Potential(st', x, row) <= Potential(st, x, row)
  {
    var s, held := st.sessions[sid], Held(st.sessions, sid);
    var next := Exec(st.db, s, held, st.clock, verdict);
    if next.None? {
      FailPotential(st, sid, x, row);
    } else {
      if IsEarly(next.value, x, row) {
        ExecNotEarly(st.db, s, held, st.clock, verdict, next.value, x, row);
      }
      EarlyUpdate(st.sessions, sid, next.value, x, row);
    }
  }

  /** Commits keep `x` waiting, and a fair batch that passes it over spends `k` attempts ahead of it. */
  lemma PublishPotential(st: State, sid: Sid, confirmed: bool, x: Id, row: PendingRow, k: nat)
    requires Consistent(st.db) && sid in st.sessions && st.sessions[sid].prog.Finished()
    requires Coherent(st.db, st.sessions[sid]) && Remembers(st.db, st.sessions[sid])
    requires Waiting(st.db, x, row) && k > 0
    requires st.sessions[sid].prog.BatchDone? ==> x !in st.sessions[sid].prog.b.ids
    ensures var st' := Publish(st, sid, confirmed); var p := st.sessions[sid].prog;
            && Waiting(st'.db, x, row)
            && Potential(st', x, row) + (if p.BatchDone? && Fair(p.b, x, row, k) then k else 0) <= Potential(st, x, row)
  {
    EarlyWithout(st.sessions, sid, x, row);
    if st.sessions[sid].prog.BatchDone? {
      BatchDelay(st.db, st.sessions[sid], x, row, k);
    } else {
      OtherDelay(st.db, st.sessions[sid], x, row);
    }
  }

  ghost predicate Tracked(st: State, x: Id, row: PendingRow) {
    Waiting(st.db, x, row) && st.clock > row.enqueuedAt
  }

  lemma TakePotential(st: State, start: DB, m: Move, x: Id, row: PendingRow, k: nat)
    requires Sound(st, start) && AllRemember(st) && Tracked(st, x, row) && !Takes(st, m, x) && k > 0
    ensures var st' := Take(st, m);
            && Tracked(st', x, row)
            && Potential(st', x, row) + (if Chance(st, m, x, row, k) then k else 0) <= Potential(st, x, row)
  {
    if Enabled(st, m) {
      match m
      case Begin(sid, prog) => BeginPotential(st, sid, prog, x, row);
      case Statement(sid, verdict) => RunPotential(st, sid, verdict, x, row);
      case Abort(sid) => FailPotential(st, sid, x, row);
      case Finish(sid, confirmed) =>
        assert Coherent(st.db, st.sessions[sid]) && Remembers(st.db, st.sessions[sid]);
        PublishPotential(st, sid, confirmed, x, row, k);
    }
  }

  // ------------------------------------------------------------- whole runs

  /** Some move of the run from `i` on commits a batch that claimed `x`. */
  ghost predicate Taken(tr: Trace, i: nat, x: Id)
    requires tr.Valid()
  {
    exists n :: i <= n < |tr.moves| && Takes(tr.states[n], tr.moves[n], x)
  }

  /** The commits among moves `i` to `j` that are chances for `x`. */
  ghost function Chances(tr: Trace, i: nat, j: nat, x: Id, row: PendingRow, k: nat): nat
    requires tr.Valid() && i <= j <= |tr.moves|
  {
    if i == j then 0
    else Chances(tr, i, j - 1, x, row, k) + if Chance(tr.states[j - 1], tr.moves[j - 1], x, row, k) then 1 else 0
  }

  /** Every chance so far has cost `k` of the potential. */
  ghost predicate Pays(st: State, end: State, x: Id, row: PendingRow, k: nat, chances: nat) {
    && x in st.db.pending && Tracked(end, x, row)
    && Potential(end, x, row) + k * chances <= Potential(st, x, row)
  }

  lemma PaysNext(st: State, mid: State, start: DB, m: Move, end: State, x: Id, row: PendingRow, k: nat, chances: nat)
    requires Pays(st, mid, x, row, k, chances) && Sound(mid, start) && AllRemember(mid)
    requires Moves(mid, m, end) && !Takes(mid, m, x) && k > 0
    ensures Pays(st, end, x, row, k, chances + if Chance(mid, m, x, row, k) then 1 else 0)
  {
    TakePotential(mid, start, m, x, row, k);
    MultiplyNext(k, chances);
  }

  lemma {:induction false} PotentialFalls(tr: Trace, db: DB, clock: nat, i: nat, j: nat, x: Id, row: PendingRow, k: nat)
    requires Runs(tr, db, clock) && i <= j <= |tr.moves| && Tracked(tr.states[i], x, row)
    requires !Taken(tr, i, x) && k > 0
    ensures Pays(tr.states[i], tr.states[j], x, row, k, Chances(tr, i, j, x, row, k))
    decreases j
  {
    if i < j {
      PotentialFalls(tr, db, clock, i, j - 1, x, row, k);
      StateSound(tr, db, clock, j - 1);
      assert MoveAt(tr, j - 1);
      PaysNext(tr.states[i], tr.states[j - 1], db, tr.moves[j - 1], tr.states[j], x, row, k,
               Chances(tr, i, j - 1, x, row, k));
    }
  }

  lemma MultiplyNext(k: nat, b: nat)
    ensures k * (b + 1) == k * b + k
  {
  }

  lemma MultiplyMonotone(k: nat, a: nat, b: nat)
    requires a <= b
    ensures k * a <= k * b
  {
  }

  lemma BatchesBound(k: nat, b: nat, d: nat)
    requires k > 0 && k * b <= d
    ensures b <= d / k
  {
    if b > d / k {
      MultiplyMonotone(k, d / k + 1, b);
    }
  }

  /** The rows ahead of `x`: committed eligible ones, and those in flight. */
  ghost function RowsAhead(st: State, x: Id): nat
    requires x in st.db.pending
  {
    |Ahead(st.db.pending, x)| + |Early(st.sessions, x, st.db.pending[x])|
  }

  lemma PotentialBound(st: State, x: Id, row: PendingRow)
    requires QueueValid(st.db) && x in st.db.pending && st.db.pending[x] == row
    ensures 0 <= Potential(st, x, row) <= 3 * RowsAhead(st, x)
  {
    CreditsBounds(st.db.pending, Ahead(st.db.pending, x));
  }

  // -------------------------------------------------------------- stamps

  ghost predicate StampedBefore(db: DB, clock: nat) {
    forall id <- db.pending :: db.pending[id].enqueuedAt < clock
  }

  /** All rows were stamped before the present. */
  ghost predicate Stamped(st: State) {
    && StampedBefore(st.db, st.clock)
    && (forall sid <- st.sessions :: StampedFlight(st.sessions[sid], st.clock))
  }

  ghost predicate StampedFlight(s: Session, now: nat) {
    InFlight(s).Some? ==> InFlight(s).value.1.enqueuedAt < now
  }

  lemma AcceptStamps(db: DB, s: Session, now: nat)
    requires s.prog.InAccept() && !s.prog.Finished() && ExecAccept(db, s, now).Some? && StampedFlight(s, now)
    ensures StampedFlight(ExecAccept(db, s, now).value, now + 1)
  {
  }

  lemma RetryStamps(db: DB, s: Session, now: nat)
    requires s.prog.InRetry() && !s.prog.Finished() && ExecRetry(db, s, now).Some? && StampedFlight(s, now)
    ensures StampedFlight(ExecRetry(db, s, now).value, now + 1)
  {
  }

  lemma ExecStamps(db: DB, s: Session, held: set<Id>, now: nat, verdict: Verdict, next: Session)
    requires !s.prog.Finished() && Exec(db, s, held, now, verdict) == Some(next) && StampedFlight(s, now)
    ensures StampedFlight(next, now + 1)
  {
    ExecIs(db, s, held, now, verdict, next);
    if s.prog.InAccept() {
      AcceptStamps(db, s, now);
    } else if s.prog.InRetry() {
      RetryStamps(db, s, now);
    } else if !s.prog.BatchClaim? {
      ExecKeepsClaim(db, s, held, now, verdict, next);
    }
  }

  lemma RunStamps(st: State, sid: Sid, verdict: Verdict)
    requires Stamped(st) && sid in st.sessions && !st.sessions[sid].prog.Finished()
    ensures Stamped(Run(st, sid, verdict))
  {
    var s, held := st.sessions[sid], Held(st.sessions, sid);
    var next := Exec(st.db, s, held, st.clock, verdict);
    if next.Some? {
      ExecStamps(st.db, s, held, st.clock, verdict, next.value);
    }
  }

  lemma AddedStamps(db: DB, s: Session, op: Op, now: nat)
    requires AddsRow(db, s, op) && StampedFlight(s, now) && StampedBefore(db, now)
    ensures StampedBefore(Effect(db, op), now)
  {
  }

  lemma SettleStamps(db: DB, m: map<Id, Outcome>, now: nat)
    requires StampedBefore(db, now)
    ensures StampedBefore(SettleEffect(db, m), now)
  {
  }

  lemma FinishedStamps(db: DB, s: Session, op: Op, now: nat)
    requires Partition(db) && s.prog.Finished() && Coherent(db, s) && OpOf(s) == Some(op)
    requires StampedFlight(s, now) && StampedBefore(db, now)
    ensures StampedBefore(Effect(db, op), now)
  {
    if s.prog.AcceptDone? {
      AcceptAddsRow(db, s, op);
      AddedStamps(db, s, op, now);
    } else if s.prog.RetryDone? {
      RetryAddsRow(db, s, op);
      AddedStamps(db, s, op, now);
    } else {
      SettleStamps(db, op.outcomes, now);
    }
  }

  lemma CommitStamps(db: DB, s: Session, now: nat)
    requires Partition(db) && s.prog.Finished() && Coherent(db, s) && StampedFlight(s, now) && StampedBefore(db, now)
    ensures StampedBefore(Apply(db, s.work.writes), now)
  {
    FinishedCommits(db, s);
    if OpOf(s).Some? {
      FinishedStamps(db, s, OpOf(s).value, now);
    }
  }

  lemma TakeStamps(st: State, start: DB, m: Move)
    requires Sound(st, start) && Stamped(st)
    ensures Stamped(Take(st, m))
  {
    if Enabled(st, m) {
      match m
      case Begin(_, _) =>
      case Statement(sid, verdict) => RunStamps(st, sid, verdict);
      case Abort(_) =>
      case Finish(sid, _) =>
        assert Coherent(st.db, st.sessions[sid]);
        CommitStamps(st.db, st.sessions[sid], st.clock);
    }
  }

  lemma {:induction false} TraceStamped(tr: Trace, db: DB, clock: nat, n: nat)
    requires Runs(tr, db, clock) && n <= |tr.moves| && Stamped(tr.states[0])
    ensures Stamped(tr.states[n])
  {
    if n > 0 {
      TraceStamped(tr, db, clock, n - 1);
      StateSound(tr, db, clock, n - 1);
      assert MoveAt(tr, n - 1);
      TakeStamps(tr.states[n - 1], db, tr.moves[n - 1]);
    }
  }

  // -------------------------------------------------------------- the bound

  /** Poison at the head cannot starve work. In every run, with any number of workers, acceptances
      and retries at any points: from any moment on at which `x` is eligible with `r` rows ahead of
      it, counting rows in flight, the batches of at least `k` rows whose claim finds `x` unlocked
      number at most floor(3r / k) before one that claims `x` commits. */
  lemma NoStarvation(tr: Trace, db: DB, clock: nat, i: nat, x: Id, k: nat)
    requires Runs(tr, db, clock) && StampedBefore(db, clock)
    requires i <= |tr.moves| && x in Eligible(tr.states[i].db.pending) && k > 0
    requires Chances(tr, i, |tr.moves|, x, tr.states[i].db.pending[x], k) > 3 * RowsAhead(tr.states[i], x) / k
    ensures Taken(tr, i, x)
  {
    var st, n, row := tr.states[i], |tr.moves|, tr.states[i].db.pending[x];
    TraceStamped(tr, db, clock, i);
    if !Taken(tr, i, x) {
      PotentialFalls(tr, db, clock, i, n, x, row, k);
      StateSound(tr, db, clock, i);
      StateSound(tr, db, clock, n);
      PotentialBound(st, x, row);
      PotentialBound(tr.states[n], x, row);
      BatchesBound(k, Chances(tr, i, n, x, row, k), 3 * RowsAhead(st, x));
      assert false;
    }
  }

  // ------------------------------------------- when every batch is a chance

  /** No claim of the run from `i` on finds `x` locked by another session. */
  ghost predicate Unlocked(tr: Trace, i: nat, x: Id)
    requires tr.Valid()
  {
    forall n :: i <= n < |tr.moves| ==> ClaimsUnlocked(tr.states[n], tr.moves[n], x)
  }

  ghost predicate ClaimsUnlocked(st: State, m: Move, x: Id) {
    Enabled(st, m) && m.Statement? && st.sessions[m.sid].prog.BatchClaim? ==> x !in Held(st.sessions, m.sid)
  }

  /** Batches of at least `k` rows that commit among moves `i` to `j`. */
  ghost function Batches(tr: Trace, i: nat, j: nat, k: nat): nat
    requires tr.Valid() && i <= j <= |tr.moves|
  {
    if i == j then 0
    else Batches(tr, i, j - 1, k) + if Commits(tr.states[j - 1], tr.moves[j - 1], k) then 1 else 0
  }

  ghost predicate Commits(st: State, m: Move, k: nat) {
    Enabled(st, m) && m.Finish? && st.sessions[m.sid].prog.BatchDone? && st.sessions[m.sid].prog.b.limit >= k
  }

  /** Every open batch saw the row of `x` unlocked. */
  ghost predicate AllSaw(sessions: map<Sid, Session>, x: Id, row: PendingRow) {
    forall sid <- sessions :: sessions[sid].prog.InBatch() ==> Saw(sessions[sid].prog.b, x, row)
  }

  ghost predicate Saw(b: Batch, x: Id, row: PendingRow) {
    x in b.seen.pending && b.seen.pending[x] == row && x !in b.skipped
  }

  lemma KeepsSaw(p: Program, p': Program, x: Id, row: PendingRow)
    requires !p.BatchClaim? && !p.Finished() && KeepsClaim(p, p') && (p.InBatch() ==> Saw(p.b, x, row))
    ensures p'.InBatch() ==> Saw(p'.b, x, row)
  {
  }

  lemma ClaimSaw(db: DB, s: Session, held: set<Id>, x: Id, row: PendingRow)
    requires s.prog.BatchClaim? && s.work == IDLE && Waiting(db, x, row) && x !in held
    ensures var p := ExecClaim(db, s, held).value.prog; p.InBatch() && Saw(p.b, x, row)
  {
    ClaimRuns(db, s, held);
  }

  lemma StatementSaw(st: State, sid: Sid, verdict: Verdict, x: Id, row: PendingRow)
    requires AllSaw(st.sessions, x, row) && Waiting(st.db, x, row)
    requires sid in st.sessions && !st.sessions[sid].prog.Finished()
    requires st.sessions[sid].prog.BatchClaim? ==> st.sessions[sid].work == IDLE && x !in Held(st.sessions, sid)
    ensures AllSaw(Run(st, sid, verdict).sessions, x, row)
  {
    var s, held := st.sessions[sid], Held(st.sessions, sid);
    var next := Exec(st.db, s, held, st.clock, verdict);
    if next.Some? {
      if s.prog.BatchClaim? {
        ClaimSaw(st.db, s, held, x, row);
      } else {
        ExecKeepsClaim(st.db, s, held, st.clock, verdict, next.value);
        KeepsSaw(s.prog, next.value.prog, x, row);
      }
    }
  }

  lemma TakeSaw(st: State, m: Move, x: Id, row: PendingRow)
    requires AllSaw(st.sessions, x, row) && Waiting(st.db, x, row) && ClaimsUnlocked(st, m, x)
    requires m.Statement? && m.sid in st.sessions ==> Coherent(st.db, st.sessions[m.sid])
    ensures AllSaw(Take(st, m).sessions, x, row)
  {
    if Enabled(st, m) && m.Statement? {
      StatementSaw(st, m.sid, m.verdict, x, row);
    }
  }

  lemma StepSaw(tr: Trace, db: DB, clock: nat, i: nat, n: nat, x: Id, row: PendingRow)
    requires Runs(tr, db, clock) && i <= n < |tr.moves| && Unlocked(tr, i, x)
    requires AllSaw(tr.states[n].sessions, x, row) && Waiting(tr.states[n].db, x, row)
    ensures AllSaw(tr.states[n + 1].sessions, x, row)
  {
    StateSound(tr, db, clock, n);
    assert MoveAt(tr, n) && ClaimsUnlocked(tr.states[n], tr.moves[n], x);
    TakeSaw(tr.states[n], tr.moves[n], x, row);
  }

  lemma StillWaiting(tr: Trace, db: DB, clock: nat, i: nat, n: nat, x: Id, row: PendingRow)
    requires Runs(tr, db, clock) && i <= n <= |tr.moves| && Tracked(tr.states[i], x, row) && !Taken(tr, i, x)
    ensures Waiting(tr.states[n].db, x, row)
  {
    PotentialFalls(tr, db, clock, i, n, x, row, 1);
  }

  lemma CommitIsChance(st: State, m: Move, x: Id, row: PendingRow, k: nat)
    requires AllSaw(st.sessions, x, row) && Commits(st, m, k)
    ensures Chance(st, m, x, row, k)
  {
  }

  lemma {:induction false} AllChances(tr: Trace, db: DB, clock: nat, i: nat, j: nat, x: Id, row: PendingRow, k: nat)
    requires Runs(tr, db, clock) && i <= j <= |tr.moves| && Tracked(tr.states[i], x, row) && k > 0
    requires !Taken(tr, i, x) && Unlocked(tr, i, x) && AllSaw(tr.states[i].sessions, x, row)
    ensures AllSaw(tr.states[j].sessions, x, row)
    ensures Batches(tr, i, j, k) <= Chances(tr, i, j, x, row, k)
    decreases j
  {
    if i < j {
      AllChances(tr, db, clock, i, j - 1, x, row, k);
      StillWaiting(tr, db, clock, i, j - 1, x, row);
      StepSaw(tr, db, clock, i, j - 1, x, row);
      if Commits(tr.states[j - 1], tr.moves[j - 1], k) {
        CommitIsChance(tr.states[j - 1], tr.moves[j - 1], x, row, k);
      }
    }
  }

  /** As long as no claim finds `x` locked, every committed batch counts: batch number
      floor(3r / k) + 1 at the latest has claimed `x`. */
  lemma NoStarvationUnlocked(tr: Trace, db: DB, clock: nat, i: nat, x: Id, k: nat)
    requires Runs(tr, db, clock) && StampedBefore(db, clock)
    requires i <= |tr.moves| && x in Eligible(tr.states[i].db.pending) && k > 0
    requires Unlocked(tr, i, x) && AllSaw(tr.states[i].sessions, x, tr.states[i].db.pending[x])
    requires Batches(tr, i, |tr.moves|, k) > 3 * RowsAhead(tr.states[i], x) / k
    ensures Taken(tr, i, x)
  {
    var row := tr.states[i].db.pending[x];
    TraceStamped(tr, db, clock, i);
    if !Taken(tr, i, x) {
      AllChances(tr, db, clock, i, |tr.moves|, x, row, k);
      NoStarvation(tr, db, clock, i, x, k);
    }
  }
}
