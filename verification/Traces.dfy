/** Runs of the machine as sequences of states and moves. Every schedule has exactly one. */
module Traces {
  import opened Options
  import opened Tables
  import opened Statements
  import opened Sessions
  import opened Machine
  import opened Claims

  datatype Trace = Trace(states: seq<State>, moves: seq<Move>) {
    ghost predicate Valid() {
      |states| == |moves| + 1 && forall i :: 0 <= i < |moves| ==> MoveAt(this, i)
    }
  }

  ghost predicate MoveAt(tr: Trace, i: nat)
    requires |tr.states| == |tr.moves| + 1 && i < |tr.moves|
  {
    Moves(tr.states[i], tr.moves[i], tr.states[i + 1])
  }

  ghost predicate Moves(st: State, m: Move, next: State) { Take(st, m) == next }

  /** The trace starts and ends in these states. */
  ghost predicate Leads(start: State, tr: Trace, st: State) {
    tr.Valid() && tr.states[0] == start && tr.states[|tr.moves|] == st
  }

  lemma Extend(start: State, tr: Trace, st: State, m: Move, next: State) returns (longer: Trace)
    requires Leads(start, tr, st) && Moves(st, m, next)
    ensures Leads(start, longer, next)
    ensures longer == Trace(tr.states + [next], tr.moves + [m])
  {
    longer := Trace(tr.states + [next], tr.moves + [m]);
    forall i | 0 <= i < |longer.moves| ensures MoveAt(longer, i) {
      if i < |tr.moves| {
        assert MoveAt(tr, i);
      }
    }
  }

  lemma {:induction false} TraceExecutes(tr: Trace, n: nat)
    requires tr.Valid() && n <= |tr.moves|
    ensures Execute(tr.states[0], tr.moves[..n]) == tr.states[n]
  {
    if n > 0 {
      TraceExecutes(tr, n - 1);
      assert MoveAt(tr, n - 1);
      assert tr.moves[..n][..n - 1] == tr.moves[..n - 1];
    }
  }

  /** The run of a schedule. */
  lemma {:induction false} TraceOf(st: State, schedule: seq<Move>) returns (tr: Trace)
    ensures Leads(st, tr, Execute(st, schedule)) && tr.moves == schedule
    decreases |schedule|
  {
    if schedule == [] {
      tr := Trace([st], []);
    } else {
      tr := TraceOf(st, schedule[..|schedule| - 1]);
      assert Moves(Execute(st, schedule[..|schedule| - 1]), schedule[|schedule| - 1], Execute(st, schedule));
      tr := Extend(st, tr, Execute(st, schedule[..|schedule| - 1]), schedule[|schedule| - 1], Execute(st, schedule));
    }
  }

  lemma MoveSound(st: State, start: DB, m: Move, next: State)
    requires Sound(st, start) && AllRemember(st) && Moves(st, m, next)
    ensures Sound(next, start) && AllRemember(next)
  {
    TakeSound(st, start, m);
    TakeRemembers(st, start, m);
  }

  lemma {:induction false} TraceSound(tr: Trace, start: DB, n: nat)
    requires tr.Valid() && n <= |tr.moves| && Sound(tr.states[0], start) && AllRemember(tr.states[0])
    ensures Sound(tr.states[n], start) && AllRemember(tr.states[n])
  {
    if n > 0 {
      TraceSound(tr, start, n - 1);
      assert MoveAt(tr, n - 1);
      MoveSound(tr.states[n - 1], start, tr.moves[n - 1], tr.states[n]);
    }
  }

  /** A run from consistent tables with no session open. */
  ghost predicate Runs(tr: Trace, db: DB, clock: nat) {
    tr.Valid() && tr.states[0] == Init(db, clock) && Consistent(db)
  }

  lemma StateSound(tr: Trace, db: DB, clock: nat, n: nat)
    requires Runs(tr, db, clock) && n <= |tr.moves|
    ensures Sound(tr.states[n], db) && AllRemember(tr.states[n])
  {
    InitSound(db, clock);
    TraceSound(tr, db, n);
  }

  // ------------------------------------------------------- building runs

  ghost function After(st: State, sid: Sid, s: Session): State {
    st.(sessions := st.sessions[sid := s], clock := st.clock + 1)
  }

  lemma RunStatement(start: State, tr: Trace, st: State, sid: Sid, s: Session) returns (longer: Trace)
    requires Leads(start, tr, st)
    requires sid in st.sessions && !st.sessions[sid].prog.Finished() && !Blocked(st, sid)
    requires Exec(st.db, st.sessions[sid], Held(st.sessions, sid), st.clock, Passes) == Some(s)
    ensures Leads(start, longer, After(st, sid, s))
    ensures longer == Trace(tr.states + [After(st, sid, s)], tr.moves + [Statement(sid, Passes)])
  {
    assert Moves(st, Statement(sid, Passes), After(st, sid, s));
    longer := Extend(start, tr, st, Statement(sid, Passes), After(st, sid, s));
  }

  ghost function Begun(st: State, sid: Sid, prog: Program): State {
    st.(sessions := st.sessions[sid := Session(prog, IDLE)])
  }

  lemma BeginRuns(start: State, tr: Trace, st: State, sid: Sid, prog: Program) returns (longer: Trace)
    requires Leads(start, tr, st) && sid !in st.sessions && prog.Startable()
    ensures Leads(start, longer, Begun(st, sid, prog))
    ensures longer == Trace(tr.states + [Begun(st, sid, prog)], tr.moves + [Begin(sid, prog)])
  {
    assert Moves(st, Begin(sid, prog), Begun(st, sid, prog));
    longer := Extend(start, tr, st, Begin(sid, prog), Begun(st, sid, prog));
  }

  lemma FinishRuns(start: State, tr: Trace, st: State, sid: Sid) returns (longer: Trace)
    requires Leads(start, tr, st) && sid in st.sessions && st.sessions[sid].prog.Finished() && !st.sessions[sid].work.aborted
    ensures Leads(start, longer, Publish(st, sid, true))
    ensures longer == Trace(tr.states + [Publish(st, sid, true)], tr.moves + [Finish(sid, true)])
  {
    assert Moves(st, Finish(sid, true), Publish(st, sid, true));
    longer := Extend(start, tr, st, Finish(sid, true), Publish(st, sid, true));
  }

  lemma AbortRuns(start: State, tr: Trace, st: State, sid: Sid) returns (longer: Trace)
    requires Leads(start, tr, st) && sid in st.sessions
    ensures Leads(start, longer, Fail(st, sid))
    ensures longer == Trace(tr.states + [Fail(st, sid)], tr.moves + [Abort(sid)])
  {
    assert Moves(st, Abort(sid), Fail(st, sid));
    longer := Extend(start, tr, st, Abort(sid), Fail(st, sid));
  }
}
