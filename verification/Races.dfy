/** The one answer that is not linearisable: a retry whose lookup precedes the event's acceptance. */
module Races {
  import opened Options
  import opened Identifiers
  import opened Tables
  import opened Statements
  import opened Atomic
  import opened Sessions
  import opened SessionProofs
  import opened Machine
  import opened Claims
  import opened Traces
  import opened Admissions
  import opened Room

  /** The answer "nothing to reactivate" is right: posted, or reactivated before. */
  ghost predicate NothingToDo(db: DB, id: Id, g: int) {
    id in db.ledger || Reactive(db, id, g)
  }

  /** This move is the lookup of a retry of generation `g`, which goes on without reactivating. */
  ghost predicate LooksUp(at: State, m: Move, next: State, sid: Sid, id: Id, g: int) {
    && sid in at.sessions && at.sessions[sid].prog == RetryLock(id, g)
    && m.Statement? && m.sid == sid && Moves(at, m, next)
    && sid in next.sessions && next.sessions[sid].prog == RetryRead(id, g, false)
  }

  /** The trace goes from `from` to a moment at which the same retry is about to commit its answer. */
  ghost predicate Answers(from: State, tr: Trace, sid: Sid) {
    && tr.Valid() && tr.states[0] == from && Keeps(tr, sid)
    && tr.states[|tr.moves|].sessions[sid].prog.RetryDone?
  }

  /** Whatever follows the lookup, the answer is right when it is given. */
  ghost predicate AlwaysJustified(from: State, sid: Sid, id: Id, g: int) {
    forall tr: Trace :: Answers(from, tr, sid) ==> NothingToDo(tr.states[|tr.moves|].db, id, g)
  }

  // ------------------------------------------------- an accepted event: justified

  /** The retry has looked and not reactivated; nothing else has changed for it. */
  ghost predicate Looked(s: Session, id: Id, g: int, k: Work) {
    s.work == k && (s.prog == RetryRead(id, g, false) || (s.prog.RetryDone? && s.prog == RetryDone(id, g, false, s.prog.event)))
  }

  lemma LookupWork(at: State, m: Move, next: State, sid: Sid, id: Id, g: int)
    requires LooksUp(at, m, next, sid, id, g) && Coherent(at.db, at.sessions[sid])
    ensures next.db == at.db && ValidId(id) && 0 <= g < MAX_INT64
    ensures Looked(next.sessions[sid], id, g, next.sessions[sid].work)
    ensures next.sessions[sid].work == IDLE <==> id !in at.db.pending
    ensures next.sessions == at.sessions[sid := next.sessions[sid]]
  {
    NothingWritten(at.db);
  }

  lemma ReadKeepsLooked(db: DB, s: Session, held: set<Id>, now: nat, v: Verdict, id: Id, g: int, k: Work)
    requires Looked(s, id, g, k) && !s.prog.Finished() && Exec(db, s, held, now, v).Some?
    ensures Looked(Exec(db, s, held, now, v).value, id, g, k)
  {
  }

  lemma MoveKeepsLooked(st: State, m: Move, next: State, sid: Sid, id: Id, g: int, k: Work)
    requires Moves(st, m, next) && sid in st.sessions && sid in next.sessions && Looked(st.sessions[sid], id, g, k)
    ensures Looked(next.sessions[sid], id, g, k) && st.db.ledger <= next.db.ledger
  {
    if Enabled(st, m) && m.Statement? && m.sid == sid {
      var s, held := st.sessions[sid], Held(st.sessions, sid);
      if Exec(st.db, s, held, st.clock, m.verdict).Some? {
        ReadKeepsLooked(st.db, s, held, st.clock, m.verdict, id, g, k);
      }
    }
  }

  lemma {:induction false} TraceKeepsLooked(tr: Trace, n: nat, sid: Sid, id: Id, g: int, k: Work)
    requires tr.Valid() && Keeps(tr, sid) && n <= |tr.moves| && Looked(tr.states[0].sessions[sid], id, g, k)
    ensures Looked(tr.states[n].sessions[sid], id, g, k) && tr.states[0].db.ledger <= tr.states[n].db.ledger
  {
    if n > 0 {
      TraceKeepsLooked(tr, n - 1, sid, id, g, k);
      assert MoveAt(tr, n - 1) && sid in tr.states[n - 1].sessions && sid in tr.states[n].sessions;
      MoveKeepsLooked(tr.states[n - 1], tr.moves[n - 1], tr.states[n], sid, id, g, k);
    }
  }

  lemma FoundRowStays(db: DB, s: Session, id: Id, g: int, k: Work)
    requires Coherent(db, s) && Looked(s, id, g, k) && k != IDLE
    ensures Reactive(db, id, g)
  {
  }

  /** Once justified, always justified: a found row is locked until the answer, and one that was
      missing because its event was posted stays posted. */
  lemma AcceptedMeansJustified(at: State, start: DB, m: Move, next: State, sid: Sid, id: Id, g: int)
    requires Sound(at, start) && AllRemember(at) && LooksUp(at, m, next, sid, id, g) && id in at.db.usage
    ensures AlwaysJustified(next, sid, id, g)
  {
    var k := next.sessions[sid].work;
    assert Coherent(at.db, at.sessions[sid]);
    LookupWork(at, m, next, sid, id, g);
    MoveSound(at, start, m, next);
    forall tr: Trace | Answers(next, tr, sid) ensures NothingToDo(tr.states[|tr.moves|].db, id, g) {
      AnswerJustified(tr, start, sid, id, g, k);
    }
  }

  lemma AnswerJustified(tr: Trace, start: DB, sid: Sid, id: Id, g: int, k: Work)
    requires tr.Valid() && Sound(tr.states[0], start) && AllRemember(tr.states[0]) && Answers(tr.states[0], tr, sid)
    requires Looked(tr.states[0].sessions[sid], id, g, k) && (k == IDLE ==> id in tr.states[0].db.ledger)
    ensures NothingToDo(tr.states[|tr.moves|].db, id, g)
  {
    var end := tr.states[|tr.moves|];
    TraceKeepsLooked(tr, |tr.moves|, sid, id, g, k);
    if k != IDLE {
      TraceSound(tr, start, |tr.moves|);
      assert Coherent(end.db, end.sessions[sid]);
      FoundRowStays(end.db, end.sessions[sid], id, g, k);
    }
  }

  // ------------------------------------------------- a new event: not justified

  /** All other sessions fail, which changes no table. */
  lemma {:induction false} AbortOthers(start: State, tr: Trace, st: State, kept: Sid) returns (longer: Trace, end: State)
    requires Reaches(start, tr, st, kept) && kept in st.sessions
    ensures Reaches(start, longer, end, kept)
    ensures end.db == st.db && end.sessions == map[kept := st.sessions[kept]]
    decreases |st.sessions|
  {
    longer, end := tr, st;
    if st.sessions.Keys == {kept} {
      assert st.sessions == map[kept := st.sessions[kept]];
    } else {
      var t :| t in st.sessions && t != kept;
      longer := AbortRuns(start, tr, st, t);
      assert (st.sessions - {t}).Keys == st.sessions.Keys - {t};
      longer, end := AbortOthers(start, longer, Fail(st, t), kept);
    }
  }

  /** Some well-formed event with this id. */
  function AnyEvent(id: Id): Priced { Priced(Input(id, id, "api_calls", 1), 1, 1, "USD", "") }

  lemma RetryReads(st: State, sid: Sid, id: Id, g: int, event: Event)
    requires sid in st.sessions && st.sessions[sid] == Session(RetryRead(id, g, false), IDLE) && ReadEvent(st.db, id) == Some(event)
    ensures Exec(st.db, st.sessions[sid], Held(st.sessions, sid), st.clock, Passes) == Some(Session(RetryDone(id, g, false, event), IDLE))
  {
    NothingWritten(st.db);
  }

  /** Right after an acceptance of `e`: it can be read, and there was and is nothing to reactivate. */
  lemma NewEvent(end: State, db: DB, sessions: map<Sid, Session>, before: seq<Answer>, other: Sid, e: Priced, limit: nat, g: int, t: nat)
    requires Partition(db) && CanAdmit(db, e, limit) && 0 <= g && Gained(end, db, sessions, before, other, e, t)
    ensures var id := e.input.eventId;
            end.sessions == sessions && ReadEvent(end.db, id) == Some(Stored(e, t)) && !NothingToDo(end.db, id, g)
  {
    assert e.input.eventId !in db.ledger;
  }

  /** With only `sid` open, which holds nothing, an acceptance begins and commits. */
  lemma AcceptBeside(from: State, tr: Trace, st: State, sid: Sid, s: Session, e: Priced, limit: nat) returns (longer: Trace, end: State)
    requires Reaches(from, tr, st, sid) && st.sessions == map[sid := s] && s.work == IDLE
    requires Partition(st.db) && CanAdmit(st.db, e, limit) && 1 <= limit <= 1000000
    ensures Reaches(from, longer, end, sid) && Gained(end, st.db, map[sid := s], st.answers, sid + 1, e, st.clock)
  {
    var other := sid + 1;
    var begun := Begun(st, other, AcceptInsert(e, limit));
    longer := BeginRuns(from, tr, st, other, AcceptInsert(e, limit));
    longer, end := AcceptCompletes(from, longer, begun, other, e, limit, sid);
    assert begun.sessions - {other} == map[sid := s];
  }

  /** All others fail, room is made if the queue is full, and only `sid` is left. */
  lemma ClearTheWay(from: State, sid: Sid, s: Session) returns (tr: Trace, end: State)
    requires Consistent(from.db) && sid in from.sessions && from.sessions[sid] == s && s.work == IDLE && !NoRoom(from.db)
    ensures Reaches(from, tr, end, sid) && Quiet(end, sid, s)
    ensures end.db.usage == from.db.usage && |end.db.pending| < MAX_LIMIT
  {
    tr, end := AbortOthers(from, Trace([from], []), from, sid);
    tr, end := MakeRoom(from, tr, end, sid, s);
  }

  /** The retry reads the new event and is about to answer. */
  lemma ReadsNewEvent(from: State, tr: Trace, st: State, sid: Sid, id: Id, g: int, event: Event) returns (longer: Trace)
    requires Reaches(from, tr, st, sid) && st.sessions == map[sid := Session(RetryRead(id, g, false), IDLE)]
    requires ReadEvent(st.db, id) == Some(event)
    ensures Answers(from, longer, sid) && longer.states[|longer.moves|].db == st.db
  {
    RetryReads(st, sid, id, g, event);
    AloneUnblocked(st, sid);
    longer := RunStatement(from, tr, st, sid, Session(RetryDone(id, g, false, event), IDLE));
  }

  lemma NewEventMisread(from: State, tr: Trace, st: State, sid: Sid, s: Session, id: Id, g: int) returns (longer: Trace)
    requires Reaches(from, tr, st, sid) && Quiet(st, sid, s) && s == Session(RetryRead(id, g, false), IDLE)
    requires ValidId(id) && 0 <= g && id !in st.db.usage && |st.db.pending| < MAX_LIMIT
    ensures Answers(from, longer, sid) && !NothingToDo(longer.states[|longer.moves|].db, id, g)
  {
    var e, limit, end := AnyEvent(id), |st.db.pending| + 1, st;
    longer, end := AcceptBeside(from, tr, st, sid, s, e, limit);
    NewEvent(end, st.db, map[sid := s], st.answers, sid + 1, e, limit, g, st.clock);
    longer := ReadsNewEvent(from, longer, end, sid, id, g, Stored(e, st.clock));
  }

  /** As long as the queue is not full of dead rows, some continuation accepts the event between the
      lookup and the read, and the answer is wrong when it is given. */
  lemma NewMeansUnjustified(from: State, sid: Sid, id: Id, g: int) returns (tr: Trace)
    requires Consistent(from.db) && sid in from.sessions && from.sessions[sid] == Session(RetryRead(id, g, false), IDLE)
    requires ValidId(id) && 0 <= g && id !in from.db.usage && !NoRoom(from.db)
    ensures Answers(from, tr, sid) && !NothingToDo(tr.states[|tr.moves|].db, id, g)
  {
    var st;
    tr, st := ClearTheWay(from, sid, from.sessions[sid]);
    tr := NewEventMisread(from, tr, st, sid, from.sessions[sid], id, g);
  }

  // ------------------------------------------ a queue that never has room: no answer

  lemma ReadFails(st: State, m: Move, next: State, sid: Sid, id: Id, g: int)
    requires Moves(st, m, next) && sid in st.sessions && sid in next.sessions && id !in st.db.usage
    requires st.sessions[sid] == Session(RetryRead(id, g, false), IDLE)
    ensures next.sessions[sid] == st.sessions[sid]
  {
    NothingWritten(st.db);
  }

  /** A missing event that cannot be accepted is never found: the retry gives no answer but an error. */
  lemma {:induction false} NeverRead(tr: Trace, start: DB, n: nat, sid: Sid, id: Id, g: int)
    requires tr.Valid() && Sound(tr.states[0], start) && AllRemember(tr.states[0]) && AllLimits(tr.states[0].sessions)
    requires Keeps(tr, sid) && n <= |tr.moves| && NoRoom(tr.states[0].db) && id !in tr.states[0].db.usage
    requires tr.states[0].sessions[sid] == Session(RetryRead(id, g, false), IDLE)
    ensures tr.states[n].sessions[sid] == Session(RetryRead(id, g, false), IDLE)
  {
    if n > 0 {
      NeverRead(tr, start, n - 1, sid, id, g);
      TraceKeepsClosed(tr, start, n - 1);
      assert MoveAt(tr, n - 1) && sid in tr.states[n - 1].sessions && sid in tr.states[n].sessions;
      assert id !in tr.states[n - 1].db.usage.Keys;
      ReadFails(tr.states[n - 1], tr.moves[n - 1], tr.states[n], sid, id, g);
    }
  }

  lemma NoRoomMeansJustified(from: State, start: DB, sid: Sid, id: Id, g: int)
    requires Sound(from, start) && AllRemember(from) && AllLimits(from.sessions) && sid in from.sessions
    requires from.sessions[sid] == Session(RetryRead(id, g, false), IDLE) && id !in from.db.usage && NoRoom(from.db)
    ensures AlwaysJustified(from, sid, id, g)
  {
    forall tr: Trace ensures !Answers(from, tr, sid) {
      if Answers(from, tr, sid) {
        NeverRead(tr, start, |tr.moves|, sid, id, g);
      }
    }
  }

  // ------------------------------------------------------------ the condition

  lemma NextSound(tr: Trace, db: DB, clock: nat, n: nat)
    requires Runs(tr, db, clock) && n < |tr.moves|
    ensures Sound(tr.states[n + 1], db) && AllRemember(tr.states[n + 1]) && AllLimits(tr.states[n + 1].sessions)
  {
    StateSound(tr, db, clock, n + 1);
    LimitsKept(tr, db, clock, n + 1);
  }

  lemma LimitsKept(tr: Trace, db: DB, clock: nat, n: nat)
    requires Runs(tr, db, clock) && n <= |tr.moves|
    ensures AllLimits(tr.states[n].sessions)
  {
    TraceKeepsLimits(tr, n);
  }

  lemma LookupAt(tr: Trace, db: DB, clock: nat, n: nat, sid: Sid, id: Id, g: int)
    requires Runs(tr, db, clock) && n < |tr.moves| && id !in tr.states[n].db.usage
    requires LooksUp(tr.states[n], tr.moves[n], tr.states[n + 1], sid, id, g)
    ensures tr.states[n + 1].db == tr.states[n].db && ValidId(id) && 0 <= g
    ensures tr.states[n + 1].sessions[sid] == Session(RetryRead(id, g, false), IDLE)
  {
    StateSound(tr, db, clock, n);
    assert Coherent(tr.states[n].db, tr.states[n].sessions[sid]);
    LookupWork(tr.states[n], tr.moves[n], tr.states[n + 1], sid, id, g);
  }

  lemma AcceptedAt(tr: Trace, db: DB, clock: nat, n: nat, sid: Sid, id: Id, g: int)
    requires Runs(tr, db, clock) && n < |tr.moves| && id in tr.states[n].db.usage
    requires LooksUp(tr.states[n], tr.moves[n], tr.states[n + 1], sid, id, g)
    ensures AlwaysJustified(tr.states[n + 1], sid, id, g)
  {
    StateSound(tr, db, clock, n);
    AcceptedMeansJustified(tr.states[n], db, tr.moves[n], tr.states[n + 1], sid, id, g);
  }

  /** In every run and at every lookup that goes on without reactivating: the answer is right under
      every continuation if and only if the event was accepted when the lookup ran, or can never be
      accepted because the queue is full of rows quarantined at the last generation. */
  lemma RetryJustifiedExactly(tr: Trace, db: DB, clock: nat, n: nat, sid: Sid, id: Id, g: int)
    requires Runs(tr, db, clock) && n < |tr.moves|
    requires LooksUp(tr.states[n], tr.moves[n], tr.states[n + 1], sid, id, g)
    ensures AlwaysJustified(tr.states[n + 1], sid, id, g) <==> id in tr.states[n].db.usage || NoRoom(tr.states[n].db)
  {
    var next := tr.states[n + 1];
    if id in tr.states[n].db.usage {
      AcceptedAt(tr, db, clock, n, sid, id, g);
    } else {
      LookupAt(tr, db, clock, n, sid, id, g);
      NextSound(tr, db, clock, n);
      if NoRoom(next.db) {
        NoRoomMeansJustified(next, db, sid, id, g);
      } else {
        var rest := NewMeansUnjustified(next, sid, id, g);
      }
    }
  }

  /** Such lookups exist: from any tables, for any id that is not queued and any generation. */
  lemma LookupReached(db: DB, clock: nat, id: Id, g: int) returns (tr: Trace)
    requires Consistent(db) && ValidId(id) && 0 <= g < MAX_INT64 && id !in db.pending
    ensures Runs(tr, db, clock) && |tr.moves| == 2 && tr.states[1].db == db
    ensures LooksUp(tr.states[1], tr.moves[1], tr.states[2], 0, id, g)
  {
    var start := Init(db, clock);
    var begun := Begun(start, 0, RetryLock(id, g));
    tr := BeginRuns(start, Trace([start], []), start, 0, RetryLock(id, g));
    NothingWritten(db);
    AloneUnblocked(begun, 0);
    tr := RunStatement(start, tr, begun, 0, Session(RetryRead(id, g, false), IDLE));
    assert MoveAt(tr, 1);
  }
}
