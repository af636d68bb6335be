/** Why the fairness bound counts only claims that find the row unlocked: a repeated Retry holds the
    row while any number of batches claim, find nothing else, and commit. */
module Starvation {
  import opened Options
  import opened Identifiers
  import opened Tables
  import opened Statements
  import opened Sessions
  import opened SessionProofs
  import opened Machine
  import opened Claims
  import opened Traces
  import opened Fairness

  /** A run so far: `n` batches have committed, none of which claimed `x`. */
  ghost predicate Starving(start: State, tr: Trace, st: State, x: Id, k: nat, n: nat) {
    Leads(start, tr, st) && !Taken(tr, 0, x) && Batches(tr, 0, |tr.moves|, k) == n
  }

  lemma {:induction false} BatchesPrefix(tr: Trace, longer: Trace, j: nat, k: nat)
    requires tr.Valid() && longer.Valid() && tr.states <= longer.states && tr.moves <= longer.moves && j <= |tr.moves|
    ensures Batches(longer, 0, j, k) == Batches(tr, 0, j, k)
  {
    if j > 0 {
      BatchesPrefix(tr, longer, j - 1, k);
    }
  }

  lemma StarvingNext(start: State, tr: Trace, st: State, x: Id, k: nat, n: nat, m: Move, next: State, longer: Trace)
    requires Starving(start, tr, st, x, k, n) && Leads(start, longer, next) && !Takes(st, m, x)
    requires longer == Trace(tr.states + [next], tr.moves + [m])
    ensures Starving(start, longer, next, x, k, n + if Commits(st, m, k) then 1 else 0)
  {
    BatchesPrefix(tr, longer, |tr.moves|, k);
    forall i | 0 <= i < |longer.moves| ensures !Takes(longer.states[i], longer.moves[i], x) {
      if i < |tr.moves| {
        assert !Takes(tr.states[i], tr.moves[i], x);
      }
    }
  }

  /** The retry of the generation before, which has locked the row and has yet to answer. */
  function Holder(x: Id, g: int): Session { Session(RetryRead(x, g, false), IDLE.(rows := {x})) }

  ghost predicate Stuck(st: State, db: DB, x: Id, g: int) {
    st.db == db && st.sessions == map[0 := Holder(x, g)]
  }

  lemma HolderLocks(db: DB, st: State, x: Id, g: int)
    requires st.db == db && st.sessions == map[0 := Session(RetryLock(x, g), IDLE)]
    requires x in Eligible(db.pending) && db.pending[x].generation == g + 1
    ensures Exec(st.db, st.sessions[0], Held(st.sessions, 0), st.clock, Passes) == Some(Holder(x, g)) && !Blocked(st, 0)
  {
    NothingWritten(db);
    assert LockRows(IDLE, {x}) == IDLE.(rows := {x});
  }

  /** The session of a batch that found nothing to claim. */
  function Emptied(db: DB, x: Id, k: nat): Session { Session(BatchDone(ClaimedPast(db, [], k, {x})), IDLE) }

  lemma ClaimsNothing(db: DB, st: State, x: Id, g: int, k: nat)
    requires st.db == db && st.sessions == map[0 := Holder(x, g), 1 := Session(BatchClaim(k), IDLE)]
    requires Eligible(db.pending) == {x}
    ensures Exec(st.db, st.sessions[1], Held(st.sessions, 1), st.clock, Passes) == Some(Emptied(db, x, k)) && !Blocked(st, 1)
  {
    assert Held(st.sessions, 1) == {x} by {
      assert st.sessions[0].work.rows == {x};
      assert x in Held(st.sessions, 1) by {
        assert 0 in st.sessions && x in st.sessions[0].work.rows;
      }
    }
    assert Eligible(db.pending) - {x} == {};
    ClaimRuns(db, st.sessions[1], {x});
    assert LockRows(IDLE, Members([])) == IDLE;
  }

  lemma EmptyCommit(db: DB, st: State, x: Id, g: int, k: nat)
    requires st.db == db && st.sessions == map[0 := Holder(x, g), 1 := Emptied(db, x, k)]
    ensures Stuck(Publish(st, 1, true), db, x, g)
    ensures !Takes(st, Finish(1, true), x) && Commits(st, Finish(1, true), k)
  {
    NothingWritten(db);
    assert st.sessions - {1} == map[0 := Holder(x, g)];
  }

  /** One more batch begins, claims nothing and commits. */
  lemma Round(start: State, tr: Trace, st: State, db: DB, x: Id, g: int, k: nat, n: nat) returns (longer: Trace, end: State)
    requires Starving(start, tr, st, x, k, n) && Stuck(st, db, x, g) && Eligible(db.pending) == {x} && 1 <= k <= 1000
    ensures Starving(start, longer, end, x, k, n + 1) && Stuck(end, db, x, g)
  {
    var st1 := Begun(st, 1, BatchClaim(k));
    var tr1 := BeginRuns(start, tr, st, 1, BatchClaim(k));
    StarvingNext(start, tr, st, x, k, n, Begin(1, BatchClaim(k)), st1, tr1);
    ClaimsNothing(db, st1, x, g, k);
    var st2 := After(st1, 1, Emptied(db, x, k));
    var tr2 := RunStatement(start, tr1, st1, 1, Emptied(db, x, k));
    StarvingNext(start, tr1, st1, x, k, n, Statement(1, Passes), st2, tr2);
    assert st2.sessions == map[0 := Holder(x, g), 1 := Emptied(db, x, k)];
    EmptyCommit(db, st2, x, g, k);
    end := Publish(st2, 1, true);
    longer := FinishRuns(start, tr2, st2, 1);
    StarvingNext(start, tr2, st2, x, k, n, Finish(1, true), end, longer);
  }

  lemma {:induction false} Rounds(start: State, tr: Trace, st: State, db: DB, x: Id, g: int, k: nat, n: nat)
    returns (longer: Trace, end: State)
    requires Starving(start, tr, st, x, k, 0) && Stuck(st, db, x, g) && Eligible(db.pending) == {x} && 1 <= k <= 1000
    ensures Starving(start, longer, end, x, k, n) && Stuck(end, db, x, g)
  {
    longer, end := tr, st;
    if n > 0 {
      longer, end := Rounds(start, tr, st, db, x, g, k, n - 1);
      longer, end := Round(start, longer, end, db, x, g, k, n - 1);
    }
  }

  lemma RowBounds(db: DB, x: Id)
    requires Consistent(db) && x in db.pending
    ensures ValidId(x) && 0 <= db.pending[x].generation <= MAX_INT64
  {
    assert ValidPending(db.pending[x]) && ValidPriced(db.usage[x].priced);
  }

  /** The bound without its side condition fails: with no row ahead of `x` at all, any number of
      batches commit without claiming it while one repeated Retry is open. */
  lemma RepeatedRetryStarves(db: DB, clock: nat, x: Id, k: nat, n: nat) returns (tr: Trace)
    requires Consistent(db) && Eligible(db.pending) == {x} && db.pending[x].generation > 0 && 1 <= k <= 1000
    ensures Runs(tr, db, clock) && RowsAhead(tr.states[0], x) == 0
    ensures !Taken(tr, 0, x) && Batches(tr, 0, |tr.moves|, k) == n
  {
    var start, g := Init(db, clock), db.pending[x].generation - 1;
    RowBounds(db, x);
    tr := Trace([start], []);
    var st1 := Begun(start, 0, RetryLock(x, g));
    var tr1 := BeginRuns(start, tr, start, 0, RetryLock(x, g));
    StarvingNext(start, tr, start, x, k, 0, Begin(0, RetryLock(x, g)), st1, tr1);
    assert st1.sessions == map[0 := Session(RetryLock(x, g), IDLE)];
    HolderLocks(db, st1, x, g);
    var st2 := After(st1, 0, Holder(x, g));
    var tr2 := RunStatement(start, tr1, st1, 0, Holder(x, g));
    StarvingNext(start, tr1, st1, x, k, 0, Statement(0, Passes), st2, tr2);
    var end;
    tr, end := Rounds(start, tr2, st2, db, x, g, k, n);
    NoneAhead(db, clock, x);
  }

  lemma NoneAhead(db: DB, clock: nat, x: Id)
    requires Eligible(db.pending) == {x}
    ensures RowsAhead(Init(db, clock), x) == 0
  {
    LessTotal(x, x);
    assert Ahead(db.pending, x) == {};
    assert Early(Init(db, clock).sessions, x, db.pending[x]) == {};
  }
}
