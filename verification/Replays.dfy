/** Accept under concurrency: exactly when it refuses, and what a replay of an accepted event answers. */
module Replays {
  import opened Options
  import opened Identifiers
  import opened Tables
  import opened Statements
  import opened Atomic
  import opened Sessions
  import opened SessionProofs
  import opened Interference
  import opened Machine
  import opened Traces

  // -------------------------------------------------------------- refusals

  lemma CountRefuses(db: DB, s: Session, now: nat)
    requires s.prog.AcceptCount? && AcceptCoherent(db, s)
    ensures ExecAccept(db, s, now).None? <==> |db.pending| >= s.prog.limit
  {
    PendingUnwritten(db, s.work.writes);
  }

  lemma OwnReadSucceeds(db: DB, s: Session, now: nat)
    requires Partition(db) && s.prog.AcceptRead? && s.prog.created && AcceptCoherent(db, s)
    ensures ExecAccept(db, s, now).Some?
  {
    ReadsOwnEvent(db, s.prog.e, s.prog.limit, s.work);
  }

  lemma ReplayReadRefuses(db: DB, s: Session, now: nat)
    requires s.prog.AcceptRead? && !s.prog.created && AcceptCoherent(db, s)
    ensures var e := s.prog.e;
            e.input.eventId in db.usage &&
            (ExecAccept(db, s, now).None? <==> db.usage[e.input.eventId].priced.input != e.input)
  {
    NothingWritten(db);
  }

  lemma ExecIsAccept(db: DB, s: Session, held: set<Id>, now: nat, v: Verdict)
    requires s.prog.InAccept() && !s.prog.Finished() && AcceptCoherent(db, s)
    ensures Exec(db, s, held, now, v) == ExecAccept(db, s, now)
  {
  }

  /** In every run: the count refuses exactly while the committed queue is at the limit, and the read
      exactly when a different input is committed under the id. */
  lemma AcceptRefusesExactly(tr: Trace, db: DB, clock: nat, n: nat, sid: Sid, v: Verdict)
    requires Runs(tr, db, clock) && n <= |tr.moves| && sid in tr.states[n].sessions
    requires var p := tr.states[n].sessions[sid].prog; p.AcceptCount? || p.AcceptRead?
    ensures var st := tr.states[n];
            var s := st.sessions[sid];
            var id := s.prog.e.input.eventId;
            Exec(st.db, s, Held(st.sessions, sid), st.clock, v).None? <==>
            if s.prog.AcceptCount? then |st.db.pending| >= s.prog.limit
            else !s.prog.created && id in st.db.usage && st.db.usage[id].priced.input != s.prog.e.input
  {
    var st := tr.states[n];
    StateSound(tr, db, clock, n);
    assert Coherent(st.db, st.sessions[sid]);
    ExecIsAccept(st.db, st.sessions[sid], Held(st.sessions, sid), st.clock, v);
    if st.sessions[sid].prog.AcceptCount? {
      CountRefuses(st.db, st.sessions[sid], st.clock);
    } else if st.sessions[sid].prog.created {
      OwnReadSucceeds(st.db, st.sessions[sid], st.clock);
    } else {
      ReplayReadRefuses(st.db, st.sessions[sid], st.clock);
    }
  }

  // --------------------------------------------------------------- replays

  lemma MoveExtends(st: State, start: DB, m: Move, next: State)
    requires Sound(st, start) && Moves(st, m, next)
    ensures Extends(st.db, next.db)
  {
    if Enabled(st, m) && m.Finish? {
      assert Coherent(st.db, st.sessions[m.sid]);
      FinishedCommits(st.db, st.sessions[m.sid]);
      if OpOf(st.sessions[m.sid]).Some? {
        StepExtends(st.db, OpOf(st.sessions[m.sid]).value);
      }
    }
  }

  lemma {:induction false} TraceExtends(tr: Trace, db: DB, clock: nat, i: nat, j: nat)
    requires Runs(tr, db, clock) && i <= j <= |tr.moves|
    ensures Extends(tr.states[i].db, tr.states[j].db)
    decreases j
  {
    if i < j {
      TraceExtends(tr, db, clock, i, j - 1);
      StateSound(tr, db, clock, j - 1);
      assert MoveAt(tr, j - 1);
      MoveExtends(tr.states[j - 1], db, tr.moves[j - 1], tr.states[j]);
    }
  }

  /** An acceptance of `e` that has not inserted anything. */
  ghost predicate Replaying(s: Session, e: Priced) {
    && s.prog.InAccept() && s.prog.e == e
    && (s.prog.AcceptInsert? || ((s.prog.AcceptRead? || s.prog.AcceptDone?) && !s.prog.created))
  }

  lemma ExecReplays(db: DB, s: Session, now: nat, next: Session, e: Priced)
    requires Replaying(s, e) && !s.prog.Finished() && AcceptCoherent(db, s) && e.input.eventId in db.usage
    requires ExecAccept(db, s, now) == Some(next)
    ensures Replaying(next, e)
  {
    NothingWritten(db);
  }

  lemma MoveReplays(st: State, m: Move, next: State, sid: Sid, e: Priced)
    requires Moves(st, m, next) && sid in st.sessions && sid in next.sessions && Coherent(st.db, st.sessions[sid])
    requires Replaying(st.sessions[sid], e) && e.input.eventId in st.db.usage
    ensures Replaying(next.sessions[sid], e)
  {
    if Enabled(st, m) && m.Statement? && m.sid == sid {
      var s, held := st.sessions[sid], Held(st.sessions, sid);
      ExecIsAccept(st.db, s, held, st.clock, m.verdict);
      ExecReplays(st.db, s, st.clock, next.sessions[sid], e);
    }
  }

  /** The acceptance of `e` begins as move `j` and stays open until `n`. */
  ghost predicate BeginsAt(tr: Trace, j: nat, n: nat, sid: Sid, e: Priced)
    requires tr.Valid() && j < n <= |tr.moves|
  {
    && Enabled(tr.states[j], tr.moves[j]) && tr.moves[j].Begin? && tr.moves[j].sid == sid
    && tr.moves[j].prog.AcceptInsert? && tr.moves[j].prog.e == e
    && forall m :: j < m <= n ==> sid in tr.states[m].sessions
  }

  lemma {:induction false} StaysReplaying(tr: Trace, db: DB, clock: nat, j: nat, n: nat, sid: Sid, e: Priced)
    requires Runs(tr, db, clock) && j < n <= |tr.moves| && BeginsAt(tr, j, n, sid, e)
    requires e.input.eventId in tr.states[j].db.usage
    ensures Replaying(tr.states[n].sessions[sid], e)
    decreases n
  {
    assert MoveAt(tr, n - 1);
    if j + 1 < n {
      StaysReplaying(tr, db, clock, j, n - 1, sid, e);
      TraceExtends(tr, db, clock, j, n - 1);
      StateSound(tr, db, clock, n - 1);
      MoveReplays(tr.states[n - 1], tr.moves[n - 1], tr.states[n], sid, e);
    }
  }

  lemma DoneShowsRow(db: DB, s: Session, e: Priced)
    requires Coherent(db, s) && Replaying(s, e) && s.prog.AcceptDone?
    ensures e.input.eventId in db.usage && s.prog.stored.usage == db.usage[e.input.eventId]
    ensures db.usage[e.input.eventId].priced.input == e.input
  {
  }

  /** An Accept that begins after its id is committed, ambiguously or not, and whatever its price, its
      limit and the transactions around it: if it answers, it answers created == false with the row
      as first committed. */
  lemma ReplayAnswered(tr: Trace, db: DB, clock: nat, i: nat, j: nat, n: nat, sid: Sid, e: Priced)
    requires Runs(tr, db, clock) && i <= j < n <= |tr.moves| && BeginsAt(tr, j, n, sid, e)
    requires e.input.eventId in tr.states[i].db.usage && tr.states[n].sessions[sid].prog.AcceptDone?
    ensures var p := tr.states[n].sessions[sid].prog;
            !p.created && p.stored.usage == tr.states[i].db.usage[e.input.eventId] && p.stored.usage.priced.input == e.input
  {
    TraceExtends(tr, db, clock, i, j);
    TraceExtends(tr, db, clock, i, n);
    StaysReplaying(tr, db, clock, j, n, sid, e);
    StateSound(tr, db, clock, n);
    DoneShowsRow(tr.states[n].db, tr.states[n].sessions[sid], e);
  }
}
