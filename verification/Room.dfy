/** When a full queue can be emptied far enough for one more event: rows that are eligible, or can be
    reactivated, can be posted one by one; rows quarantined at the last generation stay for ever. */
module Room {
  import opened Options
  import opened Identifiers
  import opened Tables
  import opened Statements
  import opened Atomic
  import opened Sessions
  import opened SessionProofs
  import opened Interference
  import opened Machine
  import opened Claims
  import opened Traces
  import opened Admissions
  import Sums

  /** The largest queue limit. */
  const MAX_LIMIT := 1000000

  /** Rows that no batch claims and no retry reactivates any more. */
  function Dead(db: DB): set<Id> {
    set id | id in db.pending && db.pending[id].failures == QUARANTINE && db.pending[id].generation == MAX_INT64
  }

  ghost predicate NoRoom(db: DB) { |Dead(db)| >= MAX_LIMIT }

  // ------------------------------------------------------------- making room

  /** The session of a batch of one row that will post `y`, before each of its statements. */
  function Claimed1(db: DB, y: Id): Batch { ClaimedPast(db, [y], 1, {}) }

  function Locked1(y: Id): Work { IDLE.(rows := {y}) }

  lemma FirstRow(db: DB) returns (y: Id)
    requires Eligible(db.pending) != {}
    ensures y in Eligible(db.pending) && Claim(db.pending, Eligible(db.pending) - {}, 1) == [y]
  {
    var ids := Claim(db.pending, Eligible(db.pending) - {}, 1);
    ClaimIsQueuePrefix(db.pending, Eligible(db.pending) - {}, 1);
    assert Eligible(db.pending) - {} == Eligible(db.pending);
    assert |Eligible(db.pending)| > 0;
    y := ids[0];
    assert y in ids;
  }

  lemma ClaimOne(db: DB, y: Id, now: nat)
    requires Claim(db.pending, Eligible(db.pending) - {}, 1) == [y]
    ensures Steps(db, Session(BatchClaim(1), IDLE), Session(BatchSave(Claimed1(db, y)), Locked1(y)), now)
    ensures BatchCoherent(db, Session(BatchSave(Claimed1(db, y)), Locked1(y)))
  {
    ClaimRuns(db, Session(BatchClaim(1), IDLE), {});
    assert LockRows(IDLE, Members([y])) == Locked1(y);
    ClaimUntried(db, {}, 1);
  }

  /** One more bulk statement, whose INSERT passes. */
  lemma BulkSteps(db: DB, s: Session, next: Session, now: nat)
    requires Partition(db) && s.prog.InBulk() && !s.prog.BatchRestore? && BatchCoherent(db, s)
    requires ExecBulk(db, s, Passes) == Some(next)
    ensures Steps(db, s, next, now)
  {
  }

  lemma SaveThenProbe(db: DB, s: Session) returns (next: Session)
    requires Partition(db) && s.prog.BatchSave? && BatchCoherent(db, s)
    ensures ExecBulk(db, s, Passes) == Some(next) && next.prog == BatchProbe(s.prog.b) && BatchCoherent(db, next)
  {
    next := ExecBulk(db, s, Passes).value;
    SaveStep(db, s);
  }

  lemma ProbeThenDelete(db: DB, s: Session) returns (next: Session)
    requires Partition(db) && s.prog.BatchProbe? && BatchCoherent(db, s)
    ensures ExecBulk(db, s, Passes) == Some(next) && next.prog == BatchDelete(s.prog.b) && BatchCoherent(db, next)
  {
    next := ExecBulk(db, s, Passes).value;
    ProbeStep(db, s, Passes);
  }

  lemma DeleteThenDone(db: DB, s: Session) returns (next: Session)
    requires Partition(db) && s.prog.BatchDelete? && BatchCoherent(db, s)
    ensures ExecBulk(db, s, Passes) == Some(next) && BatchCoherentOrDone(db, next)
    ensures next.prog.BatchDone? && next.prog.b.ids == s.prog.b.ids && next.prog.b.outcomes == AllPosted(s.prog.b.ids)
  {
    next := ExecBulk(db, s, Passes).value;
    DeleteStep(db, s);
  }

  /** A finished batch that posts exactly `y`. */
  ghost predicate Posts(db: DB, s: Session, y: Id) {
    s.prog.BatchDone? && BatchCoherent(db, s) && s.prog.b.outcomes == AllPosted([y])
  }

  lemma BulkChain(db: DB, s1: Session, y: Id, t: nat) returns (chain: seq<Session>)
    requires Partition(db) && s1.prog.BatchSave? && BatchCoherent(db, s1) && s1.prog.b.ids == [y]
    ensures |chain| == 4 && Chain(db, chain, t) && chain[0] == s1 && Posts(db, chain[3], y)
  {
    var s2 := SaveThenProbe(db, s1);
    var s3 := ProbeThenDelete(db, s2);
    var s4 := DeleteThenDone(db, s3);
    BulkSteps(db, s3, s4, t + 2);
    chain := ChainGrows(db, s3, [s4], t + 2);
    BulkSteps(db, s2, s3, t + 1);
    chain := ChainGrows(db, s2, chain, t + 1);
    BulkSteps(db, s1, s2, t);
    chain := ChainGrows(db, s1, chain, t);
  }

  lemma PostChain(db: DB, y: Id, t: nat) returns (chain: seq<Session>)
    requires Partition(db) && Claim(db.pending, Eligible(db.pending) - {}, 1) == [y]
    ensures |chain| == 5 && Chain(db, chain, t) && chain[0] == Session(BatchClaim(1), IDLE) && Posts(db, chain[4], y)
  {
    ClaimOne(db, y, t);
    chain := BulkChain(db, Session(BatchSave(Claimed1(db, y)), Locked1(y)), y, t + 1);
    chain := ChainGrows(db, Session(BatchClaim(1), IDLE), chain, t);
  }

  /** The tables after `y` is posted. */
  ghost predicate Smaller(db: DB, db': DB) {
    && Consistent(db') && db'.usage == db.usage && Dead(db') == Dead(db)
    && |db'.pending| + 1 == |db.pending|
  }

  lemma PostedPending(p: map<Id, PendingRow>, y: Id)
    ensures SettlePending(p, AllPosted([y])) == p - {y}
  {
  }

  lemma WithoutRow(p: map<Id, PendingRow>, y: Id)
    requires y in p
    ensures |p - {y}| + 1 == |p|
  {
    assert (p - {y}).Keys == p.Keys - {y};
  }

  lemma DeadWithout(db: DB, db': DB, y: Id)
    requires y in Eligible(db.pending) && db'.pending == db.pending - {y}
    ensures Dead(db') == Dead(db)
  {
  }

  lemma SettledSmaller(db: DB, y: Id, limit: nat)
    requires Consistent(db) && y in Eligible(db.pending) && CanSettle(db, AllPosted([y]), limit)
    ensures Smaller(db, SettleEffect(db, AllPosted([y])))
  {
    StepConsistent(db, Settle(AllPosted([y]), limit));
    PostedPending(db.pending, y);
    WithoutRow(db.pending, y);
    DeadWithout(db, SettleEffect(db, AllPosted([y])), y);
  }

  lemma PostsCommits(db: DB, s: Session, y: Id)
    requires Posts(db, s, y)
    ensures CanSettle(db, AllPosted([y]), s.prog.b.limit) && Apply(db, s.work.writes) == SettleEffect(db, AllPosted([y]))
    ensures !s.work.aborted
  {
    SettleCommits(db, s);
  }

  lemma PostedSmaller(db: DB, s: Session, y: Id)
    requires Consistent(db) && Posts(db, s, y) && y in Eligible(db.pending)
    ensures Smaller(db, Apply(db, s.work.writes)) && !s.work.aborted
  {
    PostsCommits(db, s, y);
    SettledSmaller(db, y, s.prog.b.limit);
  }

  /** One session is open besides, and holds nothing. */
  ghost predicate Quiet(st: State, kept: Sid, k: Session) {
    Consistent(st.db) && st.sessions == map[kept := k] && k.work == IDLE
  }

  lemma RestOf(sessions: map<Sid, Session>, kept: Sid, k: Session, other: Sid, s: Session)
    requires sessions == map[kept := k] && other != kept
    ensures sessions[other := s] - {other} == map[kept := k]
  {
  }

  /** A finished session beside the kept one commits. */
  lemma CommitBeside(start: State, tr: Trace, st: State, kept: Sid, k: Session, other: Sid, s: Session)
    returns (longer: Trace, end: State)
    requires Reaches(start, tr, st, kept) && st.sessions == map[kept := k, other := s] && other != kept && k.work == IDLE
    requires s.prog.Finished() && !s.work.aborted && Consistent(Apply(st.db, s.work.writes))
    ensures Reaches(start, longer, end, kept) && Quiet(end, kept, k) && end.db == Apply(st.db, s.work.writes)
  {
    assert kept in st.sessions;
    longer := FinishRuns(start, tr, st, other);
    end := Publish(st, other, true);
    assert st.sessions - {other} == map[kept := k];
  }

  /** A chain of statements runs beside the kept session. */
  lemma RunBeside(start: State, tr: Trace, st: State, kept: Sid, k: Session, other: Sid, prog: Program, chain: seq<Session>)
    returns (longer: Trace, end: State)
    requires Reaches(start, tr, st, kept) && Quiet(st, kept, k) && other != kept && prog.Startable()
    requires chain != [] && chain[0] == Session(prog, IDLE) && Chain(st.db, chain, st.clock)
    ensures Reaches(start, longer, end, kept)
    ensures end.db == st.db && end.sessions == map[kept := k, other := chain[|chain| - 1]]
  {
    var begun := Begun(st, other, prog);
    longer := BeginRuns(start, tr, st, other, prog);
    longer := ChainRuns(start, longer, begun, other, chain, kept);
    end := begun.(sessions := begun.sessions[other := chain[|chain| - 1]], clock := begun.clock + |chain| - 1);
  }

  /** An eligible row is posted by a batch of its own. */
  lemma PostOne(start: State, tr: Trace, st: State, kept: Sid, k: Session) returns (longer: Trace, end: State)
    requires Reaches(start, tr, st, kept) && Quiet(st, kept, k) && Eligible(st.db.pending) != {}
    ensures Reaches(start, longer, end, kept) && Quiet(end, kept, k) && Smaller(st.db, end.db)
  {
    var y := FirstRow(st.db);
    var chain := PostChain(st.db, y, st.clock);
    var done;
    longer, done := RunBeside(start, tr, st, kept, k, kept + 1, BatchClaim(1), chain);
    PostedSmaller(st.db, chain[4], y);
    longer, end := CommitBeside(start, longer, done, kept, k, kept + 1, chain[4]);
  }

  /** One more statement of a retry. */
  lemma RetrySteps(db: DB, s: Session, next: Session, now: nat)
    requires s.prog.InRetry() && !s.prog.Finished() && !s.work.aborted && ExecRetry(db, s, now) == Some(next)
    ensures Steps(db, s, next, now)
  {
  }

  lemma LockThenUpdate(db: DB, x: Id, g: int, now: nat)
    requires CanRevive(db, x, g)
    ensures Steps(db, Session(RetryLock(x, g), IDLE), Session(RetryUpdate(x, g), IDLE.(rows := {x})), now)
  {
    NothingWritten(db);
    assert LockRows(IDLE, {x}) == IDLE.(rows := {x});
    RetrySteps(db, Session(RetryLock(x, g), IDLE), Session(RetryUpdate(x, g), IDLE.(rows := {x})), now);
  }

  lemma UpdateThenRead(db: DB, x: Id, g: int, now: nat) returns (next: Session)
    requires CanRevive(db, x, g)
    ensures Steps(db, Session(RetryUpdate(x, g), IDLE.(rows := {x})), next, now)
    ensures next.prog == RetryRead(x, g, true) && RetryCoherent(db, next)
  {
    var s := Session(RetryUpdate(x, g), IDLE.(rows := {x}));
    NothingWritten(db);
    ReactivateWrites(db, x, g, now);
    next := ExecRetry(db, s, now).value;
    RetrySteps(db, s, next, now);
  }

  lemma ReadThenDone(db: DB, s: Session, now: nat) returns (next: Session)
    requires Partition(db) && s.prog.RetryRead? && s.prog.retried && RetryCoherent(db, s)
    ensures Steps(db, s, next, now) && Revives(db, next, s.prog.id, s.prog.generation)
  {
    ReadsRevival(db, s.prog.id, s.prog.generation, s.work);
    next := ExecRetry(db, s, now).value;
    RetrySteps(db, s, next, now);
  }

  /** A finished retry that reactivates `x`. */
  ghost predicate Revives(db: DB, s: Session, x: Id, g: int) {
    s.prog.RetryDone? && s.prog.retried && s.prog.id == x && s.prog.generation == g && RetryCoherent(db, s)
  }

  lemma ReviveChain(db: DB, x: Id, g: int, t: nat) returns (chain: seq<Session>)
    requires Partition(db) && CanRevive(db, x, g)
    ensures |chain| == 4 && Chain(db, chain, t) && chain[0] == Session(RetryLock(x, g), IDLE) && Revives(db, chain[3], x, g)
  {
    var s1 := Session(RetryUpdate(x, g), IDLE.(rows := {x}));
    var s2 := UpdateThenRead(db, x, g, t + 1);
    var s3 := ReadThenDone(db, s2, t + 2);
    chain := ChainGrows(db, s2, [s3], t + 2);
    chain := ChainGrows(db, s1, chain, t + 1);
    LockThenUpdate(db, x, g, t);
    chain := ChainGrows(db, Session(RetryLock(x, g), IDLE), chain, t);
  }

  /** The tables after `x` is reactivated. */
  ghost predicate Revived(db: DB, db': DB, x: Id) {
    && Consistent(db') && db'.usage == db.usage && Dead(db') == Dead(db)
    && |db'.pending| == |db.pending| && x in Eligible(db'.pending)
  }

  lemma ReviveEffectRevives(db: DB, x: Id, g: int, now: nat)
    requires Consistent(db) && CanRevive(db, x, g)
    ensures Revived(db, ReviveEffect(db, x, now), x)
  {
    StepConsistent(db, Revive(x, g, now));
    assert ReviveEffect(db, x, now).pending.Keys == db.pending.Keys;
  }

  lemma RevivesCommits(db: DB, s: Session, x: Id, g: int)
    requires Consistent(db) && Revives(db, s, x, g)
    ensures Revived(db, Apply(db, s.work.writes), x) && !s.work.aborted
  {
    ReviveCommits(db, x, g, s.work);
    ReviveEffectRevives(db, x, g, s.work.writes.pending[x].value.enqueuedAt);
  }

  /** A quarantined row that still can be is reactivated. */
  lemma ReviveOne(start: State, tr: Trace, st: State, kept: Sid, k: Session, x: Id) returns (longer: Trace, end: State)
    requires Reaches(start, tr, st, kept) && Quiet(st, kept, k)
    requires x in st.db.pending && CanRevive(st.db, x, st.db.pending[x].generation)
    ensures Reaches(start, longer, end, kept) && Quiet(end, kept, k) && Revived(st.db, end.db, x)
  {
    var g := st.db.pending[x].generation;
    assert ValidPriced(st.db.usage[x].priced);
    var chain := ReviveChain(st.db, x, g, st.clock);
    var done;
    longer, done := RunBeside(start, tr, st, kept, k, kept + 1, RetryLock(x, g), chain);
    RevivesCommits(st.db, chain[3], x, g);
    longer, end := CommitBeside(start, longer, done, kept, k, kept + 1, chain[3]);
  }

  /** A row that is not dead. */
  lemma LiveRow(db: DB) returns (x: Id)
    requires |db.pending| > |Dead(db)|
    ensures x in db.pending && x !in Dead(db)
  {
    if db.pending.Keys <= Dead(db) {
      Sums.SubsetCard(db.pending.Keys, Dead(db));
      assert false;
    }
    x :| x in db.pending && x !in Dead(db);
  }

  /** One live row leaves the queue. */
  lemma ShrinkOne(start: State, tr: Trace, st: State, kept: Sid, k: Session) returns (longer: Trace, end: State)
    requires Reaches(start, tr, st, kept) && Quiet(st, kept, k) && |st.db.pending| > |Dead(st.db)|
    ensures Reaches(start, longer, end, kept) && Quiet(end, kept, k) && Smaller(st.db, end.db)
  {
    longer, end := tr, st;
    var x := LiveRow(st.db);
    assert ValidPending(st.db.pending[x]);
    if st.db.pending[x].failures == QUARANTINE {
      longer, end := ReviveOne(start, tr, st, kept, k, x);
    } else {
      assert x in Eligible(st.db.pending);
    }
    longer, end := PostOne(start, longer, end, kept, k);
  }

  /** Room can be made exactly as long as the dead rows alone do not fill the queue. */
  lemma {:induction false} MakeRoom(start: State, tr: Trace, st: State, kept: Sid, k: Session) returns (longer: Trace, end: State)
    requires Reaches(start, tr, st, kept) && Quiet(st, kept, k) && !NoRoom(st.db)
    ensures Reaches(start, longer, end, kept) && Quiet(end, kept, k)
    ensures end.db.usage == st.db.usage && |end.db.pending| < MAX_LIMIT
    decreases |st.db.pending|
  {
    longer, end := tr, st;
    if |st.db.pending| >= MAX_LIMIT {
      longer, end := ShrinkOne(start, tr, st, kept, k);
      longer, end := MakeRoom(start, longer, end, kept, k);
    }
  }

  // ---------------------------------------------------------- no room for ever

  ghost predicate AllLimits(sessions: map<Sid, Session>) {
    forall sid <- sessions :: sessions[sid].prog.InAccept() ==> sessions[sid].prog.limit <= MAX_LIMIT
  }

  lemma AcceptKeepsLimit(db: DB, s: Session, now: nat, next: Session)
    requires s.prog.InAccept() && !s.prog.Finished() && ExecAccept(db, s, now) == Some(next)
    ensures next.prog.InAccept() && next.prog.limit == s.prog.limit
  {
  }

  lemma ExecKeepsLimit(db: DB, s: Session, held: set<Id>, now: nat, v: Verdict, next: Session)
    requires !s.prog.Finished() && Exec(db, s, held, now, v) == Some(next)
    requires s.prog.InAccept() ==> s.prog.limit <= MAX_LIMIT
    ensures next.prog.InAccept() ==> next.prog.limit <= MAX_LIMIT
  {
    ExecIs(db, s, held, now, v, next);
    if s.prog.InAccept() {
      AcceptKeepsLimit(db, s, now, next);
    } else if !s.prog.BatchClaim? {
      ExecKeepsClaim(db, s, held, now, v, next);
    }
  }

  lemma TakeKeepsLimits(st: State, m: Move)
    requires AllLimits(st.sessions)
    ensures AllLimits(Take(st, m).sessions)
  {
    if Enabled(st, m) && m.Statement? {
      var s, held := st.sessions[m.sid], Held(st.sessions, m.sid);
      var next := Exec(st.db, s, held, st.clock, m.verdict);
      if next.Some? {
        ExecKeepsLimit(st.db, s, held, st.clock, m.verdict, next.value);
      }
    }
  }

  lemma {:induction false} TraceKeepsLimits(tr: Trace, n: nat)
    requires tr.Valid() && n <= |tr.moves| && AllLimits(tr.states[0].sessions)
    ensures AllLimits(tr.states[n].sessions)
  {
    if n > 0 {
      TraceKeepsLimits(tr, n - 1);
      assert MoveAt(tr, n - 1);
      TakeKeepsLimits(tr.states[n - 1], tr.moves[n - 1]);
    }
  }

  /** Dead rows stay dead and keep the queue full, so nothing new is admitted. */
  ghost predicate Closed(db: DB, db': DB) {
    Dead(db) <= Dead(db') && db'.usage.Keys == db.usage.Keys
  }

  lemma DeadFill(db: DB)
    requires NoRoom(db)
    ensures |db.pending| >= MAX_LIMIT
  {
    Sums.SubsetCard(Dead(db), db.pending.Keys);
  }

  lemma OpKeepsClosed(db: DB, op: Op)
    requires Partition(db) && Legal(db, op) && NoRoom(db) && (op.Admit? ==> op.limit <= MAX_LIMIT)
    ensures Closed(db, Effect(db, op))
  {
    DeadFill(db);
    forall id <- Dead(db) ensures id in Dead(Effect(db, op)) {
      StepMovesRow(db, op, id);
    }
  }

  lemma CommitKeepsClosed(db: DB, s: Session)
    requires Partition(db) && s.prog.Finished() && Coherent(db, s) && NoRoom(db)
    requires s.prog.InAccept() ==> s.prog.limit <= MAX_LIMIT
    ensures Closed(db, Apply(db, s.work.writes))
  {
    FinishedCommits(db, s);
    if OpOf(s).Some? {
      OpKeepsClosed(db, OpOf(s).value);
    }
  }

  lemma MoveKeepsClosed(st: State, start: DB, m: Move, next: State)
    requires Sound(st, start) && AllLimits(st.sessions) && NoRoom(st.db) && Moves(st, m, next)
    ensures Closed(st.db, next.db)
  {
    if Enabled(st, m) && m.Finish? {
      assert Coherent(st.db, st.sessions[m.sid]);
      CommitKeepsClosed(st.db, st.sessions[m.sid]);
    }
  }

  lemma StepKeepsClosed(tr: Trace, start: DB, n: nat)
    requires tr.Valid() && Sound(tr.states[0], start) && AllRemember(tr.states[0]) && AllLimits(tr.states[0].sessions)
    requires n < |tr.moves| && NoRoom(tr.states[n].db)
    ensures Closed(tr.states[n].db, tr.states[n + 1].db)
  {
    TraceSound(tr, start, n);
    TraceKeepsLimits(tr, n);
    assert MoveAt(tr, n);
    MoveKeepsClosed(tr.states[n], start, tr.moves[n], tr.states[n + 1]);
  }

  lemma ClosedStays(a: DB, b: DB, c: DB)
    requires Closed(a, b) && Closed(b, c) && NoRoom(a)
    ensures Closed(a, c) && NoRoom(b)
  {
    Sums.SubsetCard(Dead(a), Dead(b));
  }

  lemma {:induction false} TraceKeepsClosed(tr: Trace, start: DB, n: nat)
    requires tr.Valid() && Sound(tr.states[0], start) && AllRemember(tr.states[0]) && AllLimits(tr.states[0].sessions)
    requires n <= |tr.moves| && NoRoom(tr.states[0].db)
    ensures Closed(tr.states[0].db, tr.states[n].db) && NoRoom(tr.states[n].db)
  {
    if n > 0 {
      TraceKeepsClosed(tr, start, n - 1);
      StepKeepsClosed(tr, start, n - 1);
      ClosedStays(tr.states[0].db, tr.states[n - 1].db, tr.states[n].db);
      Sums.SubsetCard(Dead(tr.states[0].db), Dead(tr.states[n].db));
    }
  }
}
