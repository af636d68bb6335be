/** A transaction that meets no lock runs through its statements; an acceptance does so to its commit. */
module Admissions {
  import opened Options
  import opened Tables
  import opened Statements
  import opened Atomic
  import opened Sessions
  import opened Interference
  import opened Machine
  import opened Traces

  /** Some other session may be open, but it holds nothing. */
  ghost predicate Alone(st: State, sid: Sid) {
    forall t :: t in st.sessions && t != sid ==> st.sessions[t].work == IDLE
  }

  lemma AloneUnblocked(st: State, sid: Sid)
    requires sid in st.sessions && Alone(st, sid)
    ensures !Blocked(st, sid)
  {
  }

  /** The workspaces of an acceptance that nothing disturbs. */
  function Inserted(e: Priced, t: nat): Work { IDLE.(writes := NO_WRITES.(usage := map[e.input.eventId := Usage(e, t)])) }

  function Locked(e: Priced, t: nat): Work { Inserted(e, t).(admission := true) }

  function Queued(e: Priced, t: nat): Work { Enqueue(Locked(e, t), e.input.eventId, t + 3) }

  function Stored(e: Priced, t: nat): Event { Event(Usage(e, t), false, 0, "", 0) }

  lemma AcceptReads(db: DB, e: Priced, t: nat)
    requires Partition(db) && e.input.eventId !in db.usage
    ensures ReadEvent(Apply(db, Queued(e, t).writes), e.input.eventId) == Some(Stored(e, t))
  {
    assert e.input.eventId !in db.ledger;
  }

  lemma AcceptStarts(db: DB, e: Priced, limit: nat, t: nat)
    requires CanAdmit(db, e, limit)
    ensures StepOf(db, Session(AcceptInsert(e, limit), IDLE), Session(AcceptLock(e, limit), Inserted(e, t)), t)
    ensures StepOf(db, Session(AcceptLock(e, limit), Inserted(e, t)), Session(AcceptCount(e, limit), Locked(e, t)), t + 1)
  {
  }

  lemma AcceptCounts(db: DB, e: Priced, limit: nat, t: nat)
    requires CanAdmit(db, e, limit)
    ensures StepOf(db, Session(AcceptCount(e, limit), Locked(e, t)), Session(AcceptEnqueue(e, limit), Locked(e, t)), t + 2)
  {
  }

  lemma AcceptQueues(db: DB, e: Priced, limit: nat, t: nat)
    requires Partition(db) && CanAdmit(db, e, limit)
    ensures StepOf(db, Session(AcceptEnqueue(e, limit), Locked(e, t)), Session(AcceptRead(e, limit, true), Queued(e, t)), t + 3)
  {
    assert View(db, Locked(e, t)).pending == db.pending;
  }

  lemma AcceptEnds(db: DB, e: Priced, limit: nat, t: nat)
    requires Partition(db) && CanAdmit(db, e, limit)
    ensures StepOf(db, Session(AcceptRead(e, limit, true), Queued(e, t)), Accepted5(e, limit, t), t + 4)
  {
    AcceptReads(db, e, t);
  }

  /** The accepting session after its five statements. */
  function Accepted5(e: Priced, limit: nat, t: nat): Session {
    Session(AcceptDone(e, limit, true, Stored(e, t)), Queued(e, t))
  }

  /** Each session of the chain is the one before after one more statement, nothing being locked. */
  ghost predicate Chain(db: DB, chain: seq<Session>, t: nat) {
    forall i :: 0 <= i < |chain| - 1 ==> Link(db, chain, t, i)
  }

  ghost predicate Link(db: DB, chain: seq<Session>, t: nat, i: nat)
    requires i + 1 < |chain|
  {
    Steps(db, chain[i], chain[i + 1], t + i)
  }

  ghost predicate Steps(db: DB, s: Session, next: Session, now: nat) {
    !s.prog.Finished() && Exec(db, s, {}, now, Passes) == Some(next)
  }

  ghost predicate StepOf(db: DB, s: Session, next: Session, now: nat) {
    s.prog.InAccept() && !s.prog.Finished() && !s.work.aborted && ExecAccept(db, s, now) == Some(next)
  }

  /** The last two statements. */
  lemma AcceptTail(db: DB, e: Priced, limit: nat, t: nat) returns (chain: seq<Session>)
    requires Partition(db) && CanAdmit(db, e, limit)
    ensures |chain| == 3 && Chain(db, chain, t + 3)
    ensures chain[0] == Session(AcceptEnqueue(e, limit), Locked(e, t)) && chain[2] == Accepted5(e, limit, t)
  {
    AcceptQueues(db, e, limit, t);
    AcceptEnds(db, e, limit, t);
    chain := AcceptGrows(db, Session(AcceptRead(e, limit, true), Queued(e, t)), [Accepted5(e, limit, t)], t + 4);
    chain := AcceptGrows(db, Session(AcceptEnqueue(e, limit), Locked(e, t)), chain, t + 3);
  }

  lemma AcceptChain(db: DB, e: Priced, limit: nat, t: nat) returns (chain: seq<Session>)
    requires Partition(db) && CanAdmit(db, e, limit)
    ensures |chain| == 6 && Chain(db, chain, t)
    ensures chain[0] == Session(AcceptInsert(e, limit), IDLE) && chain[5] == Accepted5(e, limit, t)
  {
    chain := AcceptTail(db, e, limit, t);
    AcceptCounts(db, e, limit, t);
    chain := AcceptGrows(db, Session(AcceptCount(e, limit), Locked(e, t)), chain, t + 2);
    AcceptStarts(db, e, limit, t);
    chain := AcceptGrows(db, Session(AcceptLock(e, limit), Inserted(e, t)), chain, t + 1);
    chain := AcceptGrows(db, Session(AcceptInsert(e, limit), IDLE), chain, t);
  }

  lemma AcceptGrows(db: DB, s: Session, chain: seq<Session>, t: nat) returns (longer: seq<Session>)
    requires chain != [] && StepOf(db, s, chain[0], t) && Chain(db, chain, t + 1)
    ensures longer == [s] + chain && Chain(db, longer, t)
  {
    AcceptSteps(db, s, chain[0], t);
    longer := ChainGrows(db, s, chain, t);
  }

  lemma AcceptSteps(db: DB, s: Session, next: Session, now: nat)
    requires StepOf(db, s, next, now)
    ensures Steps(db, s, next, now)
  {
  }

  lemma ChainGrows(db: DB, s: Session, chain: seq<Session>, t: nat) returns (longer: seq<Session>)
    requires chain != [] && Steps(db, s, chain[0], t) && Chain(db, chain, t + 1)
    ensures longer == [s] + chain && Chain(db, longer, t)
  {
    longer := [s] + chain;
    forall i | 0 <= i < |longer| - 1 ensures Link(db, longer, t, i) {
      if i > 0 {
        assert Link(db, chain, t + 1, i - 1);
      }
    }
  }

  /** The session `sid` stays open throughout the trace. */
  ghost predicate Keeps(tr: Trace, sid: Sid) {
    forall n :: 0 <= n < |tr.states| ==> sid in tr.states[n].sessions
  }

  /** A trace from `start` to `st` during which `kept` stays open. */
  ghost predicate Reaches(start: State, tr: Trace, st: State, kept: Sid) {
    Leads(start, tr, st) && Keeps(tr, kept)
  }

  lemma NothingHeld(sessions: map<Sid, Session>, sid: Sid)
    requires forall t :: t in sessions && t != sid ==> sessions[t].work == IDLE
    ensures Held(sessions, sid) == {}
  {
  }

  lemma RunStep(start: State, tr: Trace, st: State, sid: Sid, s: Session, kept: Sid) returns (longer: Trace)
    requires Reaches(start, tr, st, kept) && sid in st.sessions && Alone(st, sid)
    requires Steps(st.db, st.sessions[sid], s, st.clock)
    ensures Reaches(start, longer, After(st, sid, s), kept) && Alone(After(st, sid, s), sid)
  {
    AloneUnblocked(st, sid);
    NothingHeld(st.sessions, sid);
    assert kept in st.sessions;
    longer := RunStatement(start, tr, st, sid, s);
  }

  /** A chain among sessions that hold nothing runs to its end. */
  lemma {:induction false} ChainRuns(start: State, tr: Trace, st: State, sid: Sid, chain: seq<Session>, kept: Sid)
    returns (longer: Trace)
    requires Reaches(start, tr, st, kept) && sid in st.sessions && Alone(st, sid)
    requires chain != [] && st.sessions[sid] == chain[0] && Chain(st.db, chain, st.clock)
    ensures Reaches(start, longer, st.(sessions := st.sessions[sid := chain[|chain| - 1]], clock := st.clock + |chain| - 1), kept)
    decreases |chain|
  {
    longer := tr;
    if |chain| == 1 {
      assert st.sessions[sid := chain[0]] == st.sessions;
    } else {
      assert Link(st.db, chain, st.clock, 0);
      longer := RunStep(start, longer, st, sid, chain[1], kept);
      var next := After(st, sid, chain[1]);
      ChainTail(st.db, chain, st.clock);
      longer := ChainRuns(start, longer, next, sid, chain[1..], kept);
      assert next.sessions[sid := chain[|chain| - 1]] == st.sessions[sid := chain[|chain| - 1]];
    }
  }

  lemma ChainTail(db: DB, chain: seq<Session>, t: nat)
    requires |chain| > 1 && Chain(db, chain, t)
    ensures Chain(db, chain[1..], t + 1)
  {
    var tail := chain[1..];
    var later := t + 1;
    forall i | 0 <= i < |tail| - 1 ensures Link(db, tail, later, i) {
      assert Link(db, chain, t, i + 1);
    }
  }

  /** The acceptance begun at `t` by `sid` has committed and been answered. */
  ghost predicate Gained(end: State, db: DB, sessions: map<Sid, Session>, answers: seq<Answer>, sid: Sid, e: Priced, t: nat) {
    && end.db == AdmitEffect(db, e, t, t + 3) && end.sessions == sessions
    && end.answers == answers + [Answer(sid, Accepted(Stored(e, t), true))]
  }

  lemma AcceptPublishes(st: State, sid: Sid, e: Priced, limit: nat, t: nat)
    requires Partition(st.db) && CanAdmit(st.db, e, limit)
    requires sid in st.sessions && st.sessions[sid] == Accepted5(e, limit, t)
    ensures Gained(Publish(st, sid, true), st.db, st.sessions - {sid}, st.answers, sid, e, t)
  {
    AdmitApplies(st.db, e, Queued(e, t).writes, t, t + 3);
  }

  /** An acceptance among sessions that hold nothing runs to its end. */
  lemma AcceptCompletes(start: State, tr: Trace, st: State, sid: Sid, e: Priced, limit: nat, kept: Sid)
    returns (longer: Trace, end: State)
    requires Reaches(start, tr, st, kept) && sid in st.sessions && Alone(st, sid) && kept != sid
    requires st.sessions[sid] == Session(AcceptInsert(e, limit), IDLE) && Partition(st.db) && CanAdmit(st.db, e, limit)
    ensures Reaches(start, longer, end, kept)
    ensures Gained(end, st.db, st.sessions - {sid}, st.answers, sid, e, st.clock)
  {
    longer := AcceptRuns(start, tr, st, sid, e, limit, kept);
    var ready := Accepting(st, sid, e, limit);
    longer, end := PublishAccept(start, longer, ready, sid, e, limit, st.clock, kept);
    WithoutSession(st.sessions, sid, ready.sessions[sid]);
  }

  lemma WithoutSession(sessions: map<Sid, Session>, sid: Sid, s: Session)
    ensures sessions[sid := s] - {sid} == sessions - {sid}
  {
  }

  /** The acceptance has run its five statements. */
  ghost function Accepting(st: State, sid: Sid, e: Priced, limit: nat): State {
    st.(sessions := st.sessions[sid := Accepted5(e, limit, st.clock)], clock := st.clock + 5)
  }

  lemma AcceptRuns(start: State, tr: Trace, st: State, sid: Sid, e: Priced, limit: nat, kept: Sid) returns (longer: Trace)
    requires Reaches(start, tr, st, kept) && sid in st.sessions && Alone(st, sid)
    requires st.sessions[sid] == Session(AcceptInsert(e, limit), IDLE) && Partition(st.db) && CanAdmit(st.db, e, limit)
    ensures Reaches(start, longer, Accepting(st, sid, e, limit), kept)
  {
    var chain := AcceptChain(st.db, e, limit, st.clock);
    longer := ChainRuns(start, tr, st, sid, chain, kept);
  }

  lemma PublishAccept(start: State, tr: Trace, st: State, sid: Sid, e: Priced, limit: nat, t: nat, kept: Sid)
    returns (longer: Trace, end: State)
    requires Reaches(start, tr, st, kept) && sid in st.sessions && st.sessions[sid] == Accepted5(e, limit, t) && kept != sid
    requires Partition(st.db) && CanAdmit(st.db, e, limit)
    ensures Reaches(start, longer, end, kept)
    ensures Gained(end, st.db, st.sessions - {sid}, st.answers, sid, e, t)
  {
    AcceptPublishes(st, sid, e, limit, t);
    assert kept in st.sessions;
    longer := FinishRuns(start, tr, st, sid);
    end := Publish(st, sid, true);
  }
}
