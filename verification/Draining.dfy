/** Draining: without arrivals the queue is used up by any workers under any schedule, and under a
    fixed ledger constraint what is left is exactly what the constraint rejects. */
module Draining {
  import opened Options
  import opened Identifiers
  import opened Tables
  import opened Statements
  import opened Atomic
  import opened Sessions
  import opened SessionProofs
  import opened Interference
  import opened Machine
  import opened Claims
  import opened Attempts
  import opened Traces

  // -------------------------------------------------------- a fixed constraint

  /** The verdict that the constraint `c` gives on the INSERT which `p` runs next. */
  ghost predicate Conforms(p: Program, v: Verdict, c: Constraint) {
    match p
    case BatchProbe(b) =>
      && (v.Passes? <==> AcceptsAll(b.ids, c))
      && (v.Refuses? ==> exists id <- b.ids :: c(id) == Some(v.code))
    case EventPost(b) =>
      b.next < |b.ids| ==>
        (match c(b.ids[b.next])
         case None => v.Passes?
         case Some(code) => v.Refuses? && v.code == code)
    case _ => true
  }

  /** Outcomes so far are those of the constraint on the first `n` ids. */
  ghost predicate DecidedUpto(b: Batch, c: Constraint, n: nat) {
    n <= |b.ids| && b.outcomes == Outcomes(b.ids[..n], c)
  }

  /** Everything a batch has decided, or is about to record, is what the constraint says. */
  ghost predicate Decided(s: Session, c: Constraint) {
    match s.prog
    case BatchSave(b) => b.next == 0 && DecidedUpto(b, c, 0)
    case BatchProbe(b) => b.next == 0 && DecidedUpto(b, c, 0)
    case BatchRestore(b) => b.next == 0 && DecidedUpto(b, c, 0)
    case BatchDelete(b) => AcceptsAll(b.ids, c)
    case EventSave(b) => DecidedUpto(b, c, b.next)
    case EventPost(b) => DecidedUpto(b, c, b.next)
    case EventRemove(b) => DecidedUpto(b, c, b.next) && b.next < |b.ids| && c(b.ids[b.next]).None?
    case EventRestore(b, code) => DecidedUpto(b, c, b.next) && b.next < |b.ids| && c(b.ids[b.next]) == Some(code)
    case EventRecord(b, code) => DecidedUpto(b, c, b.next) && b.next < |b.ids| && c(b.ids[b.next]) == Some(code)
    case EventRelease(b) => DecidedUpto(b, c, b.next + 1)
    case BatchDone(b) => b.outcomes == Outcomes(b.ids, c)
    case _ => true
  }

  lemma BulkDecided(db: DB, s: Session, v: Verdict, c: Constraint)
    requires s.prog.InBulk() && ExecBulk(db, s, v).Some? && Decided(s, c) && Conforms(s.prog, v, c)
    ensures Decided(ExecBulk(db, s, v).value, c)
  {
    if s.prog.BatchDelete? {
      BulkOutcomes(s.prog.b.ids, c);
    }
  }

  lemma NoteDecided(b: Batch, c: Constraint, o: Outcome)
    requires b.next < |b.ids| == |b.items| && DecidedUpto(b, c, b.next) && o == OutcomeOf(b.ids[b.next], c)
    ensures DecidedUpto(Note(b, o), c, b.next + 1)
  {
    OutcomesNext(b.ids, b.next, c);
  }

  lemma ReleaseDecided(b: Batch, c: Constraint)
    requires b.next < |b.ids| && DecidedUpto(b, c, b.next + 1)
    ensures b.next + 1 == |b.ids| ==> b.outcomes == Outcomes(b.ids, c)
  {
    assert b.next + 1 == |b.ids| ==> b.ids[..b.next + 1] == b.ids;
  }

  lemma SettledDecided(db: DB, s: Session, v: Verdict, c: Constraint)
    requires (s.prog.EventRemove? || s.prog.EventRecord?) && ExecEvent(db, s, v).Some? && Decided(s, c)
    ensures Decided(ExecEvent(db, s, v).value, c)
  {
    if s.prog.EventRemove? {
      NoteDecided(s.prog.b, c, Posted);
    } else {
      NoteDecided(s.prog.b, c, Rejected(s.prog.code));
    }
  }

  lemma EventDecided(db: DB, s: Session, v: Verdict, c: Constraint)
    requires s.prog.InEvent() && ExecEvent(db, s, v).Some? && Decided(s, c) && Conforms(s.prog, v, c)
    ensures Decided(ExecEvent(db, s, v).value, c)
  {
    if s.prog.EventRemove? || s.prog.EventRecord? {
      SettledDecided(db, s, v, c);
    } else if s.prog.EventRelease? {
      ReleaseDecided(s.prog.b, c);
    }
  }

  lemma ClaimDecided(db: DB, s: Session, held: set<Id>, c: Constraint)
    requires s.prog.BatchClaim? && s.work == IDLE
    ensures Decided(ExecClaim(db, s, held).value, c)
  {
    ClaimRuns(db, s, held);
    var b := ExecClaim(db, s, held).value.prog.b;
    assert b.ids[..0] == [];
  }

  lemma ExecDecided(db: DB, s: Session, held: set<Id>, now: nat, v: Verdict, next: Session, c: Constraint)
    requires !s.prog.Finished() && Exec(db, s, held, now, v) == Some(next) && Decided(s, c) && Conforms(s.prog, v, c)
    requires s.prog.BatchClaim? ==> s.work == IDLE
    ensures Decided(next, c)
  {
    ExecIs(db, s, held, now, v, next);
    if s.prog.BatchClaim? {
      ClaimDecided(db, s, held, c);
    } else if s.prog.InBulk() {
      BulkDecided(db, s, v, c);
    } else if s.prog.InEvent() {
      EventDecided(db, s, v, c);
    } else {
      ExecKeepsClaim(db, s, held, now, v, next);
      OtherDecided(next, c);
    }
  }

  lemma OtherDecided(s: Session, c: Constraint)
    requires s.prog.InAccept() || s.prog.InRetry()
    ensures Decided(s, c)
  {
  }

  /** From moment `i` of the run on, every ledger INSERT is answered by the constraint `c`, and so were
      those of the batches that are open at that moment. */
  ghost predicate Obeying(tr: Trace, i: nat, c: Constraint)
    requires tr.Valid()
  {
    && i <= |tr.moves| && AllDecided(tr.states[i].sessions, c)
    && forall n :: i <= n < |tr.moves| ==> Obeys(tr.states[n], tr.moves[n], c)
  }

  ghost predicate Obeys(st: State, m: Move, c: Constraint) {
    Enabled(st, m) && m.Statement? ==> Conforms(st.sessions[m.sid].prog, m.verdict, c)
  }

  ghost predicate AllDecided(sessions: map<Sid, Session>, c: Constraint) {
    forall sid <- sessions :: Decided(sessions[sid], c)
  }

  lemma RunDecided(st: State, sid: Sid, v: Verdict, c: Constraint)
    requires AllDecided(st.sessions, c) && sid in st.sessions && !st.sessions[sid].prog.Finished()
    requires Conforms(st.sessions[sid].prog, v, c)
    requires st.sessions[sid].prog.BatchClaim? ==> st.sessions[sid].work == IDLE
    ensures AllDecided(Run(st, sid, v).sessions, c)
  {
    var s, held := st.sessions[sid], Held(st.sessions, sid);
    var next := Exec(st.db, s, held, st.clock, v);
    if next.Some? {
      ExecDecided(st.db, s, held, st.clock, v, next.value, c);
    }
  }

  lemma TakeDecided(st: State, start: DB, m: Move, c: Constraint)
    requires Sound(st, start) && AllDecided(st.sessions, c) && Obeys(st, m, c)
    ensures AllDecided(Take(st, m).sessions, c)
  {
    if Enabled(st, m) && m.Statement? {
      assert Coherent(st.db, st.sessions[m.sid]);
      RunDecided(st, m.sid, m.verdict, c);
    }
  }

  lemma StepDecided(tr: Trace, db: DB, clock: nat, c: Constraint, i: nat, n: nat)
    requires Runs(tr, db, clock) && Obeying(tr, i, c) && i <= n < |tr.moves| && AllDecided(tr.states[n].sessions, c)
    ensures AllDecided(tr.states[n + 1].sessions, c)
  {
    StateSound(tr, db, clock, n);
    assert MoveAt(tr, n) && Obeys(tr.states[n], tr.moves[n], c);
    TakeDecided(tr.states[n], db, tr.moves[n], c);
  }

  lemma {:induction false} TraceDecided(tr: Trace, db: DB, clock: nat, c: Constraint, i: nat, n: nat)
    requires Runs(tr, db, clock) && Obeying(tr, i, c) && i <= n <= |tr.moves|
    ensures AllDecided(tr.states[n].sessions, c)
    decreases n
  {
    if i < n {
      TraceDecided(tr, db, clock, c, i, n - 1);
      StepDecided(tr, db, clock, c, i, n - 1);
    }
  }

  /** Bulk or one by one, and whatever else runs meanwhile: under a fixed constraint a finished batch
      has exactly the constraint's outcome for each of its ids. */
  lemma BatchFollowsConstraint(tr: Trace, db: DB, clock: nat, c: Constraint, i: nat, n: nat, sid: Sid)
    requires Runs(tr, db, clock) && Obeying(tr, i, c) && i <= n <= |tr.moves|
    requires sid in tr.states[n].sessions && tr.states[n].sessions[sid].prog.BatchDone?
    ensures var b := tr.states[n].sessions[sid].prog.b; b.outcomes == Outcomes(b.ids, c)
  {
    TraceDecided(tr, db, clock, c, i, n);
    assert Decided(tr.states[n].sessions[sid], c);
  }

  // ----------------------------------------------------------- the potential

  /** The move commits an acceptance or a reactivation. */
  ghost predicate Arrives(st: State, m: Move) {
    Enabled(st, m) && m.Finish? && OpOf(st.sessions[m.sid]).Some? && !OpOf(st.sessions[m.sid]).value.Settle?
  }

  /** No acceptance and no reactivation commits among moves `i` to `j`. */
  ghost predicate NoArrivals(tr: Trace, i: nat, j: nat)
    requires tr.Valid() && j <= |tr.moves|
  {
    forall n :: i <= n < j ==> !Arrives(tr.states[n], tr.moves[n])
  }

  /** The move commits a batch. */
  ghost predicate CommitsBatch(st: State, m: Move) {
    Enabled(st, m) && m.Finish? && st.sessions[m.sid].prog.BatchDone?
  }

  /** Rows claimed by the batches that commit among moves `i` to `j`. */
  ghost function ClaimedRows(tr: Trace, i: nat, j: nat): nat
    requires tr.Valid() && i <= j <= |tr.moves|
  {
    if i == j then 0
    else
      var st, m := tr.states[j - 1], tr.moves[j - 1];
      ClaimedRows(tr, i, j - 1) + if CommitsBatch(st, m) then |st.sessions[m.sid].prog.b.ids| else 0
  }

  /** Attempts left in the whole queue. */
  ghost function Left(db: DB): int { Credits(db.pending, db.pending.Keys) }

  lemma LeftBounds(db: DB)
    requires QueueValid(db)
    ensures 0 <= Left(db) <= 3 * |db.pending|
    ensures Eligible(db.pending) != {} ==> Left(db) > 0
  {
    CreditsBounds(db.pending, db.pending.Keys);
    assert |db.pending| == |db.pending.Keys|;
    if Eligible(db.pending) != {} {
      var x :| x in Eligible(db.pending);
      CreditsPositive(db.pending, x);
    }
  }

  lemma BatchLeft(db: DB, s: Session)
    requires s.prog.BatchDone? && Coherent(db, s)
    ensures var db' := Apply(db, s.work.writes);
            Left(db') + |s.prog.b.ids| <= Left(db) && Eligible(db'.pending) <= Eligible(db.pending)
  {
    var b := s.prog.b;
    FinishedCommits(db, s);
    OutcomesCount(b);
    BatchSpends(db, Settle(b.outcomes, b.limit));
  }

  /** Without arrivals a move uses up the attempts of the rows it settles and makes nothing eligible. */
  lemma MoveLeft(st: State, start: DB, m: Move, next: State)
    requires Sound(st, start) && Moves(st, m, next) && !Arrives(st, m)
    ensures Left(next.db) + (if CommitsBatch(st, m) then |st.sessions[m.sid].prog.b.ids| else 0) <= Left(st.db)
    ensures Eligible(next.db.pending) <= Eligible(st.db.pending)
  {
    if Enabled(st, m) && m.Finish? {
      assert Coherent(st.db, st.sessions[m.sid]);
      if st.sessions[m.sid].prog.BatchDone? {
        BatchLeft(st.db, st.sessions[m.sid]);
      } else {
        FinishedCommits(st.db, st.sessions[m.sid]);
      }
    }
  }

  lemma StepLeft(tr: Trace, db: DB, clock: nat, i: nat, n: nat)
    requires Runs(tr, db, clock) && i <= n < |tr.moves| && !Arrives(tr.states[n], tr.moves[n])
    ensures Left(tr.states[n + 1].db) + (ClaimedRows(tr, i, n + 1) - ClaimedRows(tr, i, n)) <= Left(tr.states[n].db)
  {
    StateSound(tr, db, clock, n);
    assert MoveAt(tr, n);
    MoveLeft(tr.states[n], db, tr.moves[n], tr.states[n + 1]);
  }

  lemma {:induction false} AttemptsUsed(tr: Trace, db: DB, clock: nat, i: nat, j: nat)
    requires Runs(tr, db, clock) && i <= j <= |tr.moves| && NoArrivals(tr, i, j)
    ensures Left(tr.states[j].db) + ClaimedRows(tr, i, j) <= Left(tr.states[i].db)
    decreases j
  {
    if i < j {
      AttemptsUsed(tr, db, clock, i, j - 1);
      StepLeft(tr, db, clock, i, j - 1);
    }
  }

  /** From any moment of any run, with any number of workers, batch sizes and failures: without
      arrivals all batches together claim at most as many rows as there are attempts left, hence at
      most three times the queue. */
  lemma ClaimsBounded(tr: Trace, db: DB, clock: nat, i: nat, j: nat)
    requires Runs(tr, db, clock) && i <= j <= |tr.moves| && NoArrivals(tr, i, j)
    ensures ClaimedRows(tr, i, j) <= Left(tr.states[i].db) <= 3 * |tr.states[i].db.pending|
  {
    AttemptsUsed(tr, db, clock, i, j);
    StateSound(tr, db, clock, i);
    StateSound(tr, db, clock, j);
    LeftBounds(tr.states[i].db);
    LeftBounds(tr.states[j].db);
  }

  /** Commits of batches that claimed at least one row. */
  ghost function NonemptyBatches(tr: Trace, i: nat, j: nat): nat
    requires tr.Valid() && i <= j <= |tr.moves|
  {
    if i == j then 0
    else
      var st, m := tr.states[j - 1], tr.moves[j - 1];
      NonemptyBatches(tr, i, j - 1) + if CommitsBatch(st, m) && st.sessions[m.sid].prog.b.ids != [] then 1 else 0
  }

  lemma {:induction false} NonemptyAtMostClaimed(tr: Trace, i: nat, j: nat)
    requires tr.Valid() && i <= j <= |tr.moves|
    ensures NonemptyBatches(tr, i, j) <= ClaimedRows(tr, i, j)
    decreases j
  {
    if i < j {
      NonemptyAtMostClaimed(tr, i, j - 1);
    }
  }

  /** At most three times the queue size many batches that claim anything can commit. */
  lemma NonemptyBatchesBounded(tr: Trace, db: DB, clock: nat, i: nat, j: nat)
    requires Runs(tr, db, clock) && i <= j <= |tr.moves| && NoArrivals(tr, i, j)
    ensures NonemptyBatches(tr, i, j) <= 3 * |tr.states[i].db.pending|
  {
    ClaimsBounded(tr, db, clock, i, j);
    NonemptyAtMostClaimed(tr, i, j);
  }

  // ------------------------------------------------------- what is left over

  /** Good work is never failed: an event that the constraint accepts stays eligible until posted. */
  ghost predicate OnTrack(db: DB, id: Id) {
    id in db.ledger || (id in db.pending && db.pending[id].failures < 3)
  }

  lemma OpKeepsTrack(db: DB, op: Op, id: Id)
    requires Partition(db) && Legal(db, op) && OnTrack(db, id)
    requires op.Settle? && id in op.outcomes ==> op.outcomes[id].Posted?
    ensures OnTrack(Effect(db, op), id)
  {
    if id in db.pending {
      StepMovesRow(db, op, id);
    }
  }

  lemma CommitKeepsTrack(db: DB, s: Session, c: Constraint, id: Id)
    requires Partition(db) && s.prog.Finished() && Coherent(db, s) && Decided(s, c)
    requires c(id).None? && OnTrack(db, id)
    ensures OnTrack(Apply(db, s.work.writes), id)
  {
    FinishedCommits(db, s);
    if OpOf(s).Some? {
      OpKeepsTrack(db, OpOf(s).value, id);
    }
  }

  lemma TakeKeepsTrack(st: State, start: DB, m: Move, c: Constraint, id: Id)
    requires Sound(st, start) && AllDecided(st.sessions, c) && c(id).None? && OnTrack(st.db, id)
    ensures OnTrack(Take(st, m).db, id)
  {
    if Enabled(st, m) && m.Finish? {
      assert Coherent(st.db, st.sessions[m.sid]);
      CommitKeepsTrack(st.db, st.sessions[m.sid], c, id);
    }
  }

  lemma StepKeepsTrack(tr: Trace, db: DB, clock: nat, c: Constraint, i: nat, n: nat, id: Id)
    requires Runs(tr, db, clock) && Obeying(tr, i, c) && i <= n < |tr.moves| && c(id).None? && OnTrack(tr.states[n].db, id)
    ensures OnTrack(tr.states[n + 1].db, id)
  {
    StateSound(tr, db, clock, n);
    TraceDecided(tr, db, clock, c, i, n);
    assert MoveAt(tr, n);
    TakeKeepsTrack(tr.states[n], db, tr.moves[n], c, id);
  }

  lemma {:induction false} TraceKeepsTrack(tr: Trace, db: DB, clock: nat, c: Constraint, i: nat, n: nat, id: Id)
    requires Runs(tr, db, clock) && Obeying(tr, i, c) && i <= n <= |tr.moves|
    requires c(id).None? && OnTrack(tr.states[i].db, id)
    ensures OnTrack(tr.states[n].db, id)
    decreases n
  {
    if i < n {
      TraceKeepsTrack(tr, db, clock, c, i, n - 1, id);
      StepKeepsTrack(tr, db, clock, c, i, n - 1, id);
    }
  }

  /** Every remaining row is quarantined, and every event of `start` that was eligible and that the
      constraint accepts is posted. */
  ghost predicate Drained(start: DB, end: DB, c: Constraint) {
    && (forall id <- end.pending :: end.pending[id].failures == 3)
    && (forall id <- Eligible(start.pending) :: c(id).None? ==> id in end.ledger)
  }

  lemma NothingEligible(tr: Trace, db: DB, clock: nat, c: Constraint, i: nat, n: nat)
    requires Runs(tr, db, clock) && Obeying(tr, i, c) && i <= n <= |tr.moves| && Eligible(tr.states[n].db.pending) == {}
    ensures Drained(tr.states[i].db, tr.states[n].db, c)
  {
    var from, end := tr.states[i].db, tr.states[n].db;
    StateSound(tr, db, clock, n);
    forall id <- end.pending ensures end.pending[id].failures == 3 {
      assert ValidPending(end.pending[id]) && id !in Eligible(end.pending);
    }
    forall id | id in Eligible(from.pending) && c(id).None? ensures id in end.ledger {
      TraceKeepsTrack(tr, db, clock, c, i, n, id);
      assert id !in Eligible(end.pending);
    }
  }

  /** A claim that finds nothing although nothing is locked shows that the queue is drained. */
  lemma EmptyClaimMeansDrained(tr: Trace, db: DB, clock: nat, c: Constraint, i: nat, n: nat, k: nat)
    requires Runs(tr, db, clock) && Obeying(tr, i, c) && i <= n <= |tr.moves| && k > 0
    requires var p := tr.states[n].db.pending; Claim(p, Eligible(p) - {}, k) == []
    ensures Drained(tr.states[i].db, tr.states[n].db, c)
  {
    var p := tr.states[n].db.pending;
    ClaimIsQueuePrefix(p, Eligible(p) - {}, k);
    assert Eligible(p) - {} == Eligible(p);
    NothingEligible(tr, db, clock, c, i, n);
  }

  // ----------------------------------------------------------- termination

  /** The batch claimed something, or its claim found nothing although no eligible row was locked and
      every row that is still eligible was there to be seen. */
  ghost predicate Useful(db: DB, b: Batch) {
    || b.ids != []
    || (b.limit > 0 && b.skipped !! Eligible(b.seen.pending) && Eligible(db.pending) <= Eligible(b.seen.pending))
  }

  ghost predicate CommitsUseful(st: State, m: Move) {
    CommitsBatch(st, m) && Useful(st.db, st.sessions[m.sid].prog.b)
  }

  ghost function UsefulBatches(tr: Trace, i: nat, j: nat): nat
    requires tr.Valid() && i <= j <= |tr.moves|
  {
    if i == j then 0
    else UsefulBatches(tr, i, j - 1) + if CommitsUseful(tr.states[j - 1], tr.moves[j - 1]) then 1 else 0
  }

  /** Nothing is eligible any more, or each useful batch so far has used up an attempt. */
  ghost predicate Progresses(start: DB, at: DB, n: nat) {
    Eligible(at.pending) == {} || Left(at) + n <= Left(start)
  }

  lemma UsefulEmpty(db: DB, b: Batch)
    requires Genuine(b) && Useful(db, b) && b.ids == []
    ensures Eligible(db.pending) == {}
  {
    ClaimIsQueuePrefix(b.seen.pending, Eligible(b.seen.pending) - b.skipped, b.limit);
    assert Eligible(b.seen.pending) - b.skipped == Eligible(b.seen.pending);
  }

  lemma MoveProgresses(st: State, start: DB, from: DB, m: Move, next: State, n: nat)
    requires Sound(st, start) && AllRemember(st) && Moves(st, m, next) && !Arrives(st, m)
    requires Progresses(from, st.db, n)
    ensures Progresses(from, next.db, n + if CommitsUseful(st, m) then 1 else 0)
  {
    MoveLeft(st, start, m, next);
    if CommitsUseful(st, m) && st.sessions[m.sid].prog.b.ids == [] {
      assert Remembers(st.db, st.sessions[m.sid]);
      UsefulEmpty(st.db, st.sessions[m.sid].prog.b);
    }
  }

  lemma {:induction false} TraceProgresses(tr: Trace, db: DB, clock: nat, i: nat, j: nat)
    requires Runs(tr, db, clock) && i <= j <= |tr.moves| && NoArrivals(tr, i, j)
    ensures Progresses(tr.states[i].db, tr.states[j].db, UsefulBatches(tr, i, j))
    decreases j
  {
    if i < j {
      TraceProgresses(tr, db, clock, i, j - 1);
      StateSound(tr, db, clock, j - 1);
      assert MoveAt(tr, j - 1) && !Arrives(tr.states[j - 1], tr.moves[j - 1]);
      MoveProgresses(tr.states[j - 1], db, tr.states[i].db, tr.moves[j - 1], tr.states[j], UsefulBatches(tr, i, j - 1));
    }
  }

  /** The drain terminates. From any moment of any run, under a fixed constraint and without arrivals,
      whatever the workers and their batch sizes: after as many useful batches as there are attempts
      left, at most three times the queue size, every remaining row is quarantined and every event
      that was eligible and that the constraint accepts is posted. */
  lemma DrainTerminates(tr: Trace, db: DB, clock: nat, c: Constraint, i: nat, n: nat)
    requires Runs(tr, db, clock) && Obeying(tr, i, c) && i <= n <= |tr.moves| && NoArrivals(tr, i, n)
    requires UsefulBatches(tr, i, n) >= Left(tr.states[i].db)
    ensures Left(tr.states[i].db) <= 3 * |tr.states[i].db.pending|
    ensures Drained(tr.states[i].db, tr.states[n].db, c)
  {
    TraceProgresses(tr, db, clock, i, n);
    StateSound(tr, db, clock, i);
    StateSound(tr, db, clock, n);
    LeftBounds(tr.states[i].db);
    LeftBounds(tr.states[n].db);
    NothingEligible(tr, db, clock, c, i, n);
  }

  // ---------------------------------------------- which empty claims are useful

  /** The session is a batch that saw every row still eligible. */
  ghost predicate SawAll(st: State, sid: Sid) {
    && sid in st.sessions && st.sessions[sid].prog.InBatch()
    && Eligible(st.db.pending) <= Eligible(st.sessions[sid].prog.b.seen.pending)
  }

  lemma RunSawAll(st: State, sid: Sid, v: Verdict, t: Sid)
    requires SawAll(st, t) && sid in st.sessions && !st.sessions[sid].prog.Finished() && t in Run(st, sid, v).sessions
    ensures SawAll(Run(st, sid, v), t)
  {
    var s, held := st.sessions[sid], Held(st.sessions, sid);
    var next := Exec(st.db, s, held, st.clock, v);
    if next.Some? && t == sid {
      ExecKeepsClaim(st.db, s, held, st.clock, v, next.value);
    }
  }

  lemma MoveSawAll(st: State, start: DB, m: Move, next: State, t: Sid)
    requires Sound(st, start) && Moves(st, m, next) && !Arrives(st, m) && SawAll(st, t) && t in next.sessions
    ensures SawAll(next, t)
  {
    MoveLeft(st, start, m, next);
    if Enabled(st, m) && m.Statement? {
      RunSawAll(st, m.sid, m.verdict, t);
    }
  }

  lemma ClaimSawAll(st: State, m: Move, next: State, sid: Sid)
    requires sid in st.sessions && st.sessions[sid].prog.BatchClaim? && st.sessions[sid].work == IDLE
    requires m.Statement? && m.sid == sid && Enabled(st, m) && Moves(st, m, next) && sid in next.sessions
    ensures SawAll(next, sid)
  {
    ClaimRuns(st.db, st.sessions[sid], Held(st.sessions, sid));
  }

  /** The session `sid` runs its claim as move `m` and stays open until `n`. */
  ghost predicate ClaimsAt(tr: Trace, m: nat, n: nat, sid: Sid)
    requires tr.Valid() && m < n <= |tr.moves|
  {
    && sid in tr.states[m].sessions && tr.states[m].sessions[sid].prog.BatchClaim?
    && tr.moves[m].Statement? && tr.moves[m].sid == sid && Enabled(tr.states[m], tr.moves[m])
    && forall j :: m < j <= n ==> sid in tr.states[j].sessions
  }

  lemma FirstSawAll(tr: Trace, db: DB, clock: nat, m: nat, n: nat, sid: Sid)
    requires Runs(tr, db, clock) && m < n <= |tr.moves| && ClaimsAt(tr, m, n, sid)
    ensures SawAll(tr.states[m + 1], sid)
  {
    StateSound(tr, db, clock, m);
    assert MoveAt(tr, m);
    assert Coherent(tr.states[m].db, tr.states[m].sessions[sid]);
    ClaimSawAll(tr.states[m], tr.moves[m], tr.states[m + 1], sid);
  }

  lemma StepSawAll(tr: Trace, db: DB, clock: nat, n: nat, sid: Sid)
    requires Runs(tr, db, clock) && n < |tr.moves| && !Arrives(tr.states[n], tr.moves[n])
    requires SawAll(tr.states[n], sid) && sid in tr.states[n + 1].sessions
    ensures SawAll(tr.states[n + 1], sid)
  {
    StateSound(tr, db, clock, n);
    assert MoveAt(tr, n);
    MoveSawAll(tr.states[n], db, tr.moves[n], tr.states[n + 1], sid);
  }

  /** Every claim that runs without later arrivals has seen every row still eligible: an empty one is
      useful unless it found eligible rows locked. */
  lemma {:induction false} LaterClaimsSeeAll(tr: Trace, db: DB, clock: nat, m: nat, n: nat, sid: Sid)
    requires Runs(tr, db, clock) && m < n <= |tr.moves| && NoArrivals(tr, m, n) && ClaimsAt(tr, m, n, sid)
    ensures SawAll(tr.states[n], sid)
    decreases n
  {
    if m + 1 == n {
      FirstSawAll(tr, db, clock, m, n, sid);
    } else {
      LaterClaimsSeeAll(tr, db, clock, m, n - 1, sid);
      StepSawAll(tr, db, clock, n - 1, sid);
    }
  }
}
