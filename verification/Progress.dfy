/** Deadlock freedom: waiting is acyclic, and from every reachable state all open transactions
    can run to their end without a single abort. */
module Progress {
  import opened Options
  import opened Identifiers
  import opened Tables
  import opened Statements
  import opened Atomic
  import opened Sessions
  import opened Interference
  import opened Machine
  import Sums

  /** Position in the lock order: event key, then admission or row lock, then nothing to wait for. */
  function Rank(p: Program): nat {
    if p.AcceptInsert? then 2 else if p.AcceptLock? || p.RetryLock? then 1 else 0
  }

  /** Who may hold what: event-key and row-lock waiters hold nothing, an admission waiter only
      its own new key, and ledger marks only rows that are locked as well. */
  ghost predicate HoldsByRank(db: DB, s: Session) {
    && (Rank(s.prog) == 2 || s.prog.RetryLock? ==> s.work == IDLE)
    && (Rank(s.prog) > 0 ==> s.work.rows == {} && !s.work.admission && s.work.writes.ledger == {})
    && s.work.writes.ledger <= s.work.rows
    && (forall id <- s.work.rows :: id in db.pending || id in s.work.writes.usage)
  }

  /** What a statement of rank 0 waits for, it already holds, or nobody else can hold. */
  ghost predicate WantsByRank(db: DB, s: Session) {
    && (Rank(s.prog) == 0 ==> WantsUsage(s.prog) == {} && !WantsAdmission(s.prog))
    && (Rank(s.prog) == 0 && !s.prog.AcceptEnqueue? ==> WantsRows(db, s.prog) <= s.work.rows)
    && WantsLedger(s.prog) <= s.work.rows
    && (s.prog.AcceptEnqueue? ==>
          WantsRows(db, s.prog) <= s.work.writes.usage.Keys && WantsRows(db, s.prog) !! db.usage.Keys)
  }

  lemma AcceptLocks(db: DB, s: Session)
    requires s.prog.InAccept() && AcceptCoherent(db, s)
    ensures HoldsByRank(db, s) && WantsByRank(db, s)
  {
  }

  lemma RetryLocks(db: DB, s: Session)
    requires s.prog.InRetry() && RetryCoherent(db, s)
    ensures HoldsByRank(db, s) && WantsByRank(db, s)
  {
  }

  lemma CurrentHeld(db: DB, b: Batch, k: Work)
    requires Claimed(db, b, k)
    ensures Members(b.ids) == k.rows && k.rows <= db.pending.Keys
    ensures b.next < |b.ids| ==> b.ids[b.next] in k.rows
  {
  }

  lemma BatchLedgerHeld(db: DB, s: Session)
    requires s.prog.InBatch() && BatchCoherent(db, s)
    ensures s.work.writes.ledger <= s.work.rows
  {
    var b := s.prog.b;
    OutcomesClaimed(db, b, s.work, RecordedUpto(s.prog));
    CurrentHeld(db, b, s.work);
    assert PostedIn(b.outcomes) <= b.outcomes.Keys;
  }

  lemma BatchHolds(db: DB, s: Session)
    requires s.prog.InBatch() && BatchCoherent(db, s)
    ensures HoldsByRank(db, s)
  {
    BatchLedgerHeld(db, s);
    CurrentHeld(db, s.prog.b, s.work);
  }

  lemma BatchWants(db: DB, p: Program, b: Batch, k: Work)
    requires p.InBatch() && p.b == b && Claimed(db, b, k)
    ensures WantsByRank(db, Session(p, k))
  {
    CurrentHeld(db, b, k);
  }

  lemma BatchClaimed(db: DB, s: Session)
    requires s.prog.InBatch() && BatchCoherent(db, s)
    ensures Claimed(db, s.prog.b, s.work)
  {
  }

  lemma BatchLocks(db: DB, s: Session)
    requires s.prog.InBatch() && BatchCoherent(db, s)
    ensures HoldsByRank(db, s) && WantsByRank(db, s)
  {
    BatchHolds(db, s);
    BatchClaimed(db, s);
    BatchWants(db, s.prog, s.prog.b, s.work);
  }

  lemma Locks(db: DB, s: Session)
    requires Coherent(db, s)
    ensures HoldsByRank(db, s) && WantsByRank(db, s)
  {
    if s.prog.InAccept() {
      AcceptLocks(db, s);
    } else if s.prog.InRetry() {
      RetryLocks(db, s);
    } else if !s.prog.BatchClaim? {
      BatchLocks(db, s);
    }
  }

  lemma UsageHolderRank(db: DB, s: Session)
    requires Coherent(db, s) && s.work.writes.usage != map[]
    ensures Rank(s.prog) <= 1
  {
    Locks(db, s);
  }

  /** The wait-for relation descends in rank, hence has no cycle. */
  lemma WaitsDescend(db: DB, a: Session, b: Session)
    requires Partition(db) && Coherent(db, a) && Coherent(db, b) && Disjoint(a.work, b.work)
    requires Waits(db, a.prog, b.work)
    ensures Rank(b.prog) < Rank(a.prog)
  {
    Locks(db, a);
    Locks(db, b);
    if Rank(a.prog) == 2 {
      UsageHolderRank(db, b);
    }
  }

  ghost predicate Lowest(sessions: map<Sid, Session>, among: set<Sid>, x: Sid)
    requires among <= sessions.Keys
  {
    x in among && forall t <- among :: Rank(sessions[x].prog) <= Rank(sessions[t].prog)
  }

  lemma {:induction false} LowestRank(sessions: map<Sid, Session>, among: set<Sid>) returns (x: Sid)
    requires among <= sessions.Keys && among != {}
    ensures Lowest(sessions, among, x)
    decreases |among|
  {
    x :| x in among;
    if among != {x} {
      var y := LowestRank(sessions, among - {x});
      assert forall t <- among :: t == x || t in among - {x};
      if Rank(sessions[y].prog) < Rank(sessions[x].prog) {
        x := y;
      }
    }
  }

  /** No deadlock: some open transaction does not have to wait. */
  lemma SomeoneRuns(st: State, start: DB) returns (sid: Sid)
    requires Sound(st, start) && st.sessions != map[]
    ensures sid in st.sessions && !Blocked(st, sid)
  {
    assert st.sessions.Keys != {};
    sid := LowestRank(st.sessions, st.sessions.Keys);
    forall t | t in st.sessions && t != sid ensures !Waits(st.db, st.sessions[sid].prog, st.sessions[t].work) {
      if Waits(st.db, st.sessions[sid].prog, st.sessions[t].work) {
        WaitsDescend(st.db, st.sessions[sid], st.sessions[t]);
      }
    }
  }

  // ------------------------------------------------------------- completion

  /** An upper bound on the statements a program still runs, COMMIT included. */
  function Remaining(p: Program): (n: nat)
    ensures n > 0
  {
    match p
    case AcceptInsert(_, _) => 6
    case AcceptLock(_, _) => 5
    case AcceptCount(_, _) => 4
    case AcceptEnqueue(_, _) => 3
    case AcceptRead(_, _, _) => 2
    case BatchClaim(size) => 6 * size + 6
    case BatchSave(b) => 6 * |b.ids| + 5
    case BatchProbe(b) => 6 * |b.ids| + 4
    case BatchRestore(b) => 6 * |b.ids| + 3
    case BatchDelete(b) => 2
    case EventSave(b) => EventsLeft(b) + 2
    case EventPost(b) => EventsLeft(b) + 1
    case EventRestore(b, _) => EventsLeft(b)
    case EventRecord(b, _) => EventsLeft(b) - 1
    case EventRemove(b) => EventsLeft(b) - 1
    case EventRelease(b) => EventsLeft(b) - 2
    case RetryLock(_, _) => 4
    case RetryUpdate(_, _) => 3
    case RetryRead(_, _, _) => 2
    case _ => 1
  }

  function EventsLeft(b: Batch): (n: nat)
    ensures n >= 6
  {
    if b.next < |b.ids| then 6 * (|b.ids| - b.next) else 6
  }

  lemma AcceptShortens(db: DB, s: Session, now: nat)
    requires s.prog.InAccept() && !s.prog.Finished() && ExecAccept(db, s, now).Some?
    ensures Remaining(ExecAccept(db, s, now).value.prog) < Remaining(s.prog)
  {
  }

  lemma RetryShortens(db: DB, s: Session, now: nat)
    requires s.prog.InRetry() && !s.prog.Finished() && ExecRetry(db, s, now).Some?
    ensures Remaining(ExecRetry(db, s, now).value.prog) < Remaining(s.prog)
  {
  }

  lemma ClaimShortens(db: DB, s: Session, held: set<Id>)
    requires s.prog.BatchClaim?
    ensures Remaining(ExecClaim(db, s, held).value.prog) < Remaining(s.prog)
  {
    assert |ClaimIds(db, s.work, held, s.prog.size)| <= s.prog.size;
  }

  lemma RestoreShortens(db: DB, s: Session, verdict: Verdict)
    requires s.prog.BatchRestore? && ExecBulk(db, s, verdict).Some? && s.prog.b.next == 0 && s.prog.b.ids != []
    ensures Remaining(ExecBulk(db, s, verdict).value.prog) < Remaining(s.prog)
  {
  }

  lemma ProbeShortens(db: DB, s: Session, verdict: Verdict)
    requires (s.prog.BatchProbe? || s.prog.BatchSave?) && ExecBulk(db, s, verdict).Some?
    ensures Remaining(ExecBulk(db, s, verdict).value.prog) < Remaining(s.prog)
  {
  }

  lemma DeleteEnds(db: DB, s: Session, verdict: Verdict)
    requires s.prog.BatchDelete?
    ensures ExecBulk(db, s, verdict).Some? && ExecBulk(db, s, verdict).value.prog.BatchDone?
  {
  }

  lemma DoneIsShorter(p: Program, q: Program)
    requires p.BatchDelete? && q.BatchDone?
    ensures Remaining(q) < Remaining(p)
  {
  }

  lemma DeleteShortens(db: DB, s: Session, verdict: Verdict)
    requires s.prog.BatchDelete?
    ensures ExecBulk(db, s, verdict).Some? && Remaining(ExecBulk(db, s, verdict).value.prog) < Remaining(s.prog)
  {
    DeleteEnds(db, s, verdict);
    DoneIsShorter(s.prog, ExecBulk(db, s, verdict).value.prog);
  }

  lemma BulkShortens(db: DB, s: Session, verdict: Verdict)
    requires s.prog.InBulk() && ExecBulk(db, s, verdict).Some?
    requires s.prog.b.next == 0 && (s.prog.b.ids != [] || s.prog.BatchDelete?)
    ensures Remaining(ExecBulk(db, s, verdict).value.prog) < Remaining(s.prog)
  {
    if s.prog.BatchRestore? {
      RestoreShortens(db, s, verdict);
    } else if s.prog.BatchDelete? {
      DeleteShortens(db, s, verdict);
    } else {
      ProbeShortens(db, s, verdict);
    }
  }

  lemma BulkNonempty(db: DB, s: Session)
    requires s.prog.InBulk() && BatchCoherent(db, s)
    ensures s.prog.b.next == 0 && (s.prog.b.ids != [] || s.prog.BatchDelete?)
  {
  }

  lemma SettleShortens(db: DB, s: Session, verdict: Verdict)
    requires (s.prog.EventRemove? || s.prog.EventRecord?) && ExecEvent(db, s, verdict).Some?
    ensures Remaining(ExecEvent(db, s, verdict).value.prog) < Remaining(s.prog)
  {
  }

  lemma ReleaseShortens(db: DB, s: Session, verdict: Verdict)
    requires s.prog.EventRelease? && ExecEvent(db, s, verdict).Some?
    ensures Remaining(ExecEvent(db, s, verdict).value.prog) < Remaining(s.prog)
  {
  }

  lemma AttemptShortens(db: DB, s: Session, verdict: Verdict)
    requires (s.prog.EventSave? || s.prog.EventPost? || s.prog.EventRestore?) && ExecEvent(db, s, verdict).Some?
    ensures Remaining(ExecEvent(db, s, verdict).value.prog) < Remaining(s.prog)
  {
  }

  lemma EventShortens(db: DB, s: Session, verdict: Verdict)
    requires s.prog.InEvent() && ExecEvent(db, s, verdict).Some?
    ensures Remaining(ExecEvent(db, s, verdict).value.prog) < Remaining(s.prog)
  {
    if s.prog.EventRemove? || s.prog.EventRecord? {
      SettleShortens(db, s, verdict);
    } else if s.prog.EventRelease? {
      ReleaseShortens(db, s, verdict);
    } else {
      AttemptShortens(db, s, verdict);
    }
  }

  lemma ExecShortens(db: DB, s: Session, held: set<Id>, now: nat, verdict: Verdict)
    requires !s.prog.Finished() && Coherent(db, s) && Exec(db, s, held, now, verdict).Some?
    ensures Remaining(Exec(db, s, held, now, verdict).value.prog) < Remaining(s.prog)
  {
    if s.prog.InAccept() {
      AcceptShortens(db, s, now);
    } else if s.prog.InRetry() {
      RetryShortens(db, s, now);
    } else if s.prog.BatchClaim? {
      ClaimShortens(db, s, held);
    } else if s.prog.InEvent() {
      EventShortens(db, s, verdict);
    } else {
      BulkNonempty(db, s);
      BulkShortens(db, s, verdict);
    }
  }

  ghost function Workload(sessions: map<Sid, Session>): int {
    Sums.Sum(sessions.Keys, sid => if sid in sessions then Remaining(sessions[sid].prog) else 0)
  }

  lemma WorkloadPositive(sessions: map<Sid, Session>)
    ensures Workload(sessions) >= |sessions|
  {
    var f := sid => if sid in sessions then Remaining(sessions[sid].prog) else 0;
    var zero: Sid -> int := sid => 0;
    Sums.SumDrop(sessions.Keys, zero, f);
    Sums.SumConstant(sessions.Keys, zero, 0);
    assert |sessions| == |sessions.Keys|;
  }

  lemma WorkloadSplit(sessions: map<Sid, Session>, sid: Sid)
    requires sid in sessions
    ensures Workload(sessions) == Remaining(sessions[sid].prog) + Workload(sessions - {sid})
  {
    var f := t => if t in sessions then Remaining(sessions[t].prog) else 0;
    var rest := sessions - {sid};
    Sums.SumRemove(sessions.Keys, f, sid);
    assert rest.Keys == sessions.Keys - {sid};
    Sums.SumEqual(rest.Keys, f, t => if t in rest then Remaining(rest[t].prog) else 0);
  }

  lemma WorkloadUpdate(sessions: map<Sid, Session>, sid: Sid, s: Session)
    requires sid in sessions && Remaining(s.prog) < Remaining(sessions[sid].prog)
    ensures Workload(sessions[sid := s]) < Workload(sessions)
  {
    WorkloadSplit(sessions, sid);
    WorkloadSplit(sessions[sid := s], sid);
    assert sessions[sid := s] - {sid} == sessions - {sid};
  }

  /** The move an unblocked session makes next. */
  function Advance(st: State, sid: Sid): Move
    requires sid in st.sessions
  {
    if st.sessions[sid].prog.Finished() then Finish(sid, true) else Statement(sid, Passes)
  }

  /** The session's next workspace, or None when it ends with this move. */
  function NextSession(st: State, sid: Sid): Option<Session>
    requires sid in st.sessions
  {
    if st.sessions[sid].prog.Finished() then None
    else Exec(st.db, st.sessions[sid], Held(st.sessions, sid), st.clock, Passes)
  }

  lemma FinishedUsable(db: DB, s: Session)
    requires s.prog.Finished() && Coherent(db, s)
    ensures !s.work.aborted
  {
  }

  lemma AdvanceSessions(st: State, sid: Sid)
    requires sid in st.sessions && !Blocked(st, sid)
    requires st.sessions[sid].prog.Finished() ==> !st.sessions[sid].work.aborted
    ensures var next := NextSession(st, sid);
            Take(st, Advance(st, sid)).sessions ==
            if next.None? then st.sessions - {sid} else st.sessions[sid := next.value]
  {
  }

  lemma AdvanceShortens(st: State, sid: Sid)
    requires sid in st.sessions && Coherent(st.db, st.sessions[sid]) && !Blocked(st, sid)
    ensures Workload(Take(st, Advance(st, sid)).sessions) < Workload(st.sessions)
  {
    if st.sessions[sid].prog.Finished() {
      FinishedUsable(st.db, st.sessions[sid]);
    }
    AdvanceSessions(st, sid);
    var next := NextSession(st, sid);
    if next.None? {
      WorkloadSplit(st.sessions, sid);
    } else {
      ExecShortens(st.db, st.sessions[sid], Held(st.sessions, sid), st.clock, Passes);
      WorkloadUpdate(st.sessions, sid, next.value);
    }
  }

  lemma {:induction false} ExecuteCons(st: State, m: Move, rest: seq<Move>)
    ensures Execute(st, [m] + rest) == Execute(Take(st, m), rest)
    decreases |rest|
  {
    var all := [m] + rest;
    if rest == [] {
      assert all[..|all| - 1] == [];
      assert Execute(st, all[..|all| - 1]) == st;
    } else {
      ExecuteCons(st, m, rest[..|rest| - 1]);
      assert all[..|all| - 1] == [m] + rest[..|rest| - 1];
    }
  }

  /** From every reachable state, statements and commits alone finish every open transaction,
      in at most as many moves as statements remain. */
  lemma {:induction false} AllCanFinish(st: State, start: DB) returns (schedule: seq<Move>)
    requires Sound(st, start)
    ensures forall m <- schedule :: m.Statement? || (m.Finish? && m.confirmed)
    ensures |schedule| <= Workload(st.sessions)
    ensures Execute(st, schedule).sessions == map[]
    decreases Workload(st.sessions)
  {
    WorkloadPositive(st.sessions);
    if st.sessions == map[] {
      schedule := [];
    } else {
      var sid := SomeoneRuns(st, start);
      var m := Advance(st, sid);
      AdvanceShortens(st, sid);
      TakeSound(st, start, m);
      var rest := AllCanFinish(Take(st, m), start);
      ExecuteCons(st, m, rest);
      schedule := [m] + rest;
    }
  }

  /** The same for every schedule from a consistent start. */
  lemma NoDeadlock(db: DB, clock: nat, schedule: seq<Move>) returns (completion: seq<Move>)
    requires Consistent(db)
    ensures forall m <- completion :: m.Statement? || (m.Finish? && m.confirmed)
    ensures Execute(Execute(Init(db, clock), schedule), completion).sessions == map[]
  {
    InitSound(db, clock);
    ExecuteSound(Init(db, clock), db, schedule);
    completion := AllCanFinish(Execute(Init(db, clock), schedule), db);
  }
}
