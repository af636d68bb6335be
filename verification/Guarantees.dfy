/** What clients and operators may rely on, for every schedule of the interleaved machine. */
module Guarantees {
  import opened Identifiers
  import opened Tables
  import opened Statements
  import opened Atomic
  import opened Sessions
  import opened SessionProofs
  import opened Interference
  import opened Machine
  import opened Claims

  // --------------------------------------------------------- admission bound

  ghost predicate SameLimit(schedule: seq<Move>, limit: nat) {
    forall m <- schedule :: m.Begin? && m.prog.AcceptInsert? ==> m.prog.limit == limit
  }

  ghost predicate SessionLimits(sessions: map<Sid, Session>, limit: nat) {
    forall sid <- sessions :: sessions[sid].prog.InAccept() ==> sessions[sid].prog.limit == limit
  }

  ghost predicate UsesLimit(st: State, limit: nat) {
    SessionLimits(st.sessions, limit) && OneLimit(st.log, limit)
  }

  lemma AcceptLimit(db: DB, s: Session, now: nat, limit: nat)
    requires s.prog.InAccept() && !s.prog.Finished() && s.prog.limit == limit && ExecAccept(db, s, now).Some?
    ensures var p := ExecAccept(db, s, now).value.prog; p.InAccept() && p.limit == limit
  {
  }

  lemma ExecLimit(db: DB, s: Session, held: set<Id>, now: nat, verdict: Verdict, limit: nat)
    requires !s.prog.Finished() && Exec(db, s, held, now, verdict).Some?
    requires s.prog.InAccept() ==> s.prog.limit == limit
    ensures var p := Exec(db, s, held, now, verdict).value.prog; p.InAccept() ==> p.limit == limit
  {
    if s.prog.InAccept() {
      AcceptLimit(db, s, now, limit);
    } else if s.prog.InRetry() {
      RetryKeeps(db, s, now, ExecRetry(db, s, now).value);
    } else if s.prog.InBulk() {
      BulkStepStays(db, s, verdict);
    } else if s.prog.InEvent() {
      EventStepStays(db, s, verdict);
    }
  }

  lemma PublishLimit(st: State, sid: Sid, confirmed: bool, limit: nat)
    requires UsesLimit(st, limit) && sid in st.sessions && st.sessions[sid].prog.Finished()
    ensures UsesLimit(Publish(st, sid, confirmed), limit)
  {
    var op := OpOf(st.sessions[sid]);
    if op.Some? && op.value.Admit? {
      assert op.value.limit == limit;
    }
  }

  lemma TakeLimit(st: State, m: Move, limit: nat)
    requires UsesLimit(st, limit)
    requires m.Begin? && m.prog.AcceptInsert? ==> m.prog.limit == limit
    ensures UsesLimit(Take(st, m), limit)
  {
    if Enabled(st, m) {
      match m
      case Begin(_, _) =>
      case Statement(sid, verdict) =>
        var next := Exec(st.db, st.sessions[sid], Held(st.sessions, sid), st.clock, verdict);
        if next.Some? {
          ExecLimit(st.db, st.sessions[sid], Held(st.sessions, sid), st.clock, verdict, limit);
        }
      case Abort(_) =>
      case Finish(sid, confirmed) => PublishLimit(st, sid, confirmed, limit);
    }
  }

  lemma {:induction false} ExecuteLimit(st: State, schedule: seq<Move>, limit: nat)
    requires UsesLimit(st, limit) && SameLimit(schedule, limit)
    ensures UsesLimit(Execute(st, schedule), limit)
    decreases |schedule|
  {
    if schedule != [] {
      ExecuteLimit(st, schedule[..|schedule| - 1], limit);
      assert schedule[|schedule| - 1] in schedule;
      TakeLimit(Execute(st, schedule[..|schedule| - 1]), schedule[|schedule| - 1], limit);
    }
  }

  /** With one limit everywhere, concurrent admissions never push the queue above it. */
  lemma QueueBounded(db: DB, clock: nat, schedule: seq<Move>, limit: nat)
    requires Consistent(db) && SameLimit(schedule, limit)
    ensures |Execute(Init(db, clock), schedule).db.pending| <= Max(|db.pending|, limit)
  {
    var st := Execute(Init(db, clock), schedule);
    Refinement(db, clock, schedule);
    ExecuteLimit(Init(db, clock), schedule, limit);
    RunBounded(st.past, st.log, limit, |st.log|);
  }

  // ------------------------------------------------------------ single charge

  /** Between any two committed states nothing accepted or posted is lost, every state keeps its
      keys and CHECKs, and no two commits charge one event or spend one retry generation. */
  ghost predicate ChargesOnce(states: seq<DB>, log: seq<Commit>) {
    && (forall i :: 0 <= i < |states| ==> Consistent(states[i]))
    && (forall i, j :: 0 <= i <= j < |states| ==> Extends(states[i], states[j]))
    && (forall i, j :: 0 <= i < j < |log| ==> Independent(log[i].op, log[j].op))
  }

  ghost predicate Independent(op: Op, later: Op) {
    && (op.Settle? && later.Settle? ==> PostedIn(op.outcomes) !! PostedIn(later.outcomes))
    && (op.Admit? && later.Admit? ==> op.event.input.eventId != later.event.input.eventId)
    && (op.Revive? && later.Revive? && op.id == later.id ==> op.generation < later.generation)
  }

  lemma CommitsIndependent(states: seq<DB>, log: seq<Commit>, i: nat, j: nat)
    requires Behaves(states, log) && Consistent(states[0]) && i < j < |log|
    ensures Independent(log[i].op, log[j].op)
  {
    if log[i].op.Settle? && log[j].op.Settle? {
      OneChargePerEvent(states, log, i, j);
    } else if log[i].op.Admit? && log[j].op.Admit? {
      OneAdmissionPerEvent(states, log, i, j);
    } else if log[i].op.Revive? && log[j].op.Revive? && log[i].op.id == log[j].op.id {
      RetryOncePerGeneration(states, log, i, j);
    }
  }

  lemma RunChargesOnce(states: seq<DB>, log: seq<Commit>)
    requires Behaves(states, log) && Consistent(states[0])
    ensures ChargesOnce(states, log)
  {
    forall i | 0 <= i < |states| ensures Consistent(states[i]) {
      RunConsistent(states, log, i);
    }
    forall i, j | 0 <= i <= j < |states| ensures Extends(states[i], states[j]) {
      RunExtends(states, log, i, j);
    }
    forall i, j | 0 <= i < j < |log| ensures Independent(log[i].op, log[j].op) {
      CommitsIndependent(states, log, i, j);
    }
  }

  /** Single charge and no loss under every interleaving and every failure. */
  lemma SingleCharge(db: DB, clock: nat, schedule: seq<Move>)
    requires Consistent(db)
    ensures var st := Execute(Init(db, clock), schedule);
            |st.past| == |st.log| + 1 && ChargesOnce(st.past, st.log) && st.past[0] == db && st.past[|st.log|] == st.db
  {
    Refinement(db, clock, schedule);
    var st := Execute(Init(db, clock), schedule);
    RunChargesOnce(st.past, st.log);
  }

  // ------------------------------------------------------------ honest counts

  /** Events that successful batches reported as processed. */
  ghost function Reported(answers: seq<Answer>): nat {
    if answers == [] then 0
    else
      var last := answers[|answers| - 1].reply;
      Reported(answers[..|answers| - 1]) + if last.Processed? then last.count else 0
  }

  /** Events posted by commits whose caller saw an error. */
  ghost function Unreported(log: seq<Commit>): nat {
    if log == [] then 0
    else
      var last := log[|log| - 1];
      Unreported(log[..|log| - 1]) + if last.op.Settle? && !last.confirmed then |PostedIn(last.op.outcomes)| else 0
  }

  lemma ReportedSnoc(answers: seq<Answer>, a: Answer)
    ensures Reported(answers + [a]) == Reported(answers) + if a.reply.Processed? then a.reply.count else 0
  {
    assert (answers + [a])[..|answers|] == answers;
  }

  lemma UnreportedSnoc(log: seq<Commit>, c: Commit)
    ensures Unreported(log + [c]) ==
            Unreported(log) + if c.op.Settle? && !c.confirmed then |PostedIn(c.op.outcomes)| else 0
  {
    assert (log + [c])[..|log|] == log;
  }

  /** Reported and unreported posts add up to the growth of the ledger since `start`. */
  ghost predicate Accounted(st: State, start: DB) {
    |st.db.ledger| == |start.ledger| + Reported(st.answers) + Unreported(st.log)
  }

  lemma SettleGrowth(db: DB, m: map<Id, Outcome>, limit: nat)
    requires Partition(db) && CanSettle(db, m, limit)
    ensures |SettleEffect(db, m).ledger| == |db.ledger| + |PostedIn(m)|
  {
    assert PostedIn(m) <= db.pending.Keys;
    assert db.ledger !! PostedIn(m);
  }

  lemma BatchCount(db: DB, s: Session)
    requires s.prog.BatchDone? && BatchCoherent(db, s)
    ensures s.prog.b.processed == |PostedIn(s.prog.b.outcomes)|
  {
  }

  lemma BatchGrowth(db: DB, s: Session)
    requires Partition(db) && s.prog.BatchDone? && Coherent(db, s)
    ensures |Apply(db, s.work.writes).ledger| == |db.ledger| + s.prog.b.processed
  {
    FinishedCommits(db, s);
    SettleGrowth(db, s.prog.b.outcomes, s.prog.b.limit);
    BatchCount(db, s);
  }

  lemma OtherGrowth(db: DB, s: Session)
    requires s.prog.Finished() && !s.prog.BatchDone? && Coherent(db, s)
    ensures Apply(db, s.work.writes).ledger == db.ledger
  {
    FinishedCommits(db, s);
  }

  /** The ledger grows by what the commit posts; only batches post. */
  lemma CommitGrowth(db: DB, s: Session)
    requires Partition(db) && s.prog.Finished() && Coherent(db, s)
    ensures |Apply(db, s.work.writes).ledger| ==
            |db.ledger| + if s.prog.BatchDone? then s.prog.b.processed else 0
  {
    if s.prog.BatchDone? {
      BatchGrowth(db, s);
    } else {
      OtherGrowth(db, s);
    }
  }

  lemma FailAccounted(st: State, start: DB, sid: Sid)
    requires Accounted(st, start) && sid in st.sessions
    ensures Accounted(Fail(st, sid), start)
  {
    ReportedSnoc(st.answers, Fail(st, sid).answers[|st.answers|]);
  }

  lemma PublishUnreported(st: State, sid: Sid, confirmed: bool)
    requires sid in st.sessions && st.sessions[sid].prog.Finished() && Coherent(st.db, st.sessions[sid])
    ensures Unreported(Publish(st, sid, confirmed).log) == Unreported(st.log) +
              if st.sessions[sid].prog.BatchDone? && !confirmed then st.sessions[sid].prog.b.processed else 0
  {
    var s := st.sessions[sid];
    if OpOf(s).Some? {
      UnreportedSnoc(st.log, Commit(OpOf(s).value, confirmed));
    }
    if s.prog.BatchDone? {
      BatchCount(st.db, s);
    }
  }

  lemma PublishAccounted(st: State, start: DB, sid: Sid, confirmed: bool)
    requires Sound(st, start) && Accounted(st, start) && sid in st.sessions && st.sessions[sid].prog.Finished()
    ensures Accounted(Publish(st, sid, confirmed), start)
  {
    var s, st' := st.sessions[sid], Publish(st, sid, confirmed);
    CommitGrowth(st.db, s);
    PublishUnreported(st, sid, confirmed);
    ReportedSnoc(st.answers, st'.answers[|st.answers|]);
  }

  lemma TakeAccounted(st: State, start: DB, m: Move)
    requires Sound(st, start) && Accounted(st, start)
    ensures Accounted(Take(st, m), start)
  {
    if Enabled(st, m) {
      match m
      case Begin(_, _) =>
      case Statement(sid, verdict) =>
        if Exec(st.db, st.sessions[sid], Held(st.sessions, sid), st.clock, verdict).None? {
          FailAccounted(st, start, sid);
        }
      case Abort(sid) => FailAccounted(st, start, sid);
      case Finish(sid, confirmed) => PublishAccounted(st, start, sid, confirmed);
    }
  }

  lemma {:induction false} ExecuteAccounted(st: State, start: DB, schedule: seq<Move>)
    requires Sound(st, start) && Accounted(st, start)
    ensures Accounted(Execute(st, schedule), start)
    decreases |schedule|
  {
    if schedule != [] {
      var before := Execute(st, schedule[..|schedule| - 1]);
      ExecuteAccounted(st, start, schedule[..|schedule| - 1]);
      ExecuteSound(st, start, schedule[..|schedule| - 1]);
      TakeAccounted(before, start, schedule[|schedule| - 1]);
    }
  }

  /** Reported counts plus the posts of commits reported as errors are the ledger's growth. */
  lemma HonestCounts(db: DB, clock: nat, schedule: seq<Move>)
    requires Consistent(db)
    ensures var st := Execute(Init(db, clock), schedule);
            Accounted(st, db)
  {
    InitSound(db, clock);
    ExecuteAccounted(Init(db, clock), db, schedule);
  }

  // ----------------------------------------------------------- honest reports

  lemma BatchReports(db: DB, s: Session, i: nat)
    requires s.prog.BatchDone? && BatchCoherent(db, s) && i < |s.prog.b.ids|
    ensures var b := s.prog.b;
            b.ids[i] in b.outcomes && b.ids[i] in db.pending && b.items[i] == Report(db, b.ids[i], b.outcomes)
  {
    var b := s.prog.b;
    assert b.ids[..|b.ids|] == b.ids;
    assert b.ids[i] in Members(b.ids);
  }

  /** What committing and confirming the finished batch of `sid` reports: facts about the claimed
      rows as the claim saw them, which is as they still are, and about the tables afterwards. */
  ghost predicate ReportsTruth(st: State, sid: Sid)
    requires sid in st.sessions && st.sessions[sid].prog.BatchDone?
  {
    var after, b := Publish(st, sid, true), st.sessions[sid].prog.b;
    && after.answers == st.answers + [Answer(sid, Processed(b.processed, b.items))]
    && |after.db.ledger| == |st.db.ledger| + b.processed
    && |b.items| == |b.ids|
    && (forall i :: 0 <= i < |b.ids| ==> Truthful(st.db, after.db, b.ids[i], b.items[i]))
    && AsSeen(st.db, b)
  }

  lemma BatchTruthful(db: DB, s: Session, i: nat)
    requires Partition(db) && s.prog.BatchDone? && BatchCoherent(db, s) && i < |s.prog.b.ids|
    ensures Truthful(db, SettleEffect(db, s.prog.b.outcomes), s.prog.b.ids[i], s.prog.b.items[i])
  {
    BatchReports(db, s, i);
    ReportTruthful(db, s.prog.b.outcomes, s.prog.b.ids[i]);
  }

  lemma BatchCommitted(db: DB, s: Session)
    requires Partition(db) && s.prog.BatchDone? && Coherent(db, s)
    ensures BatchCoherent(db, s) && |s.prog.b.items| == |s.prog.b.ids|
    ensures Apply(db, s.work.writes) == SettleEffect(db, s.prog.b.outcomes)
  {
    FinishedCommits(db, s);
  }

  lemma FinishedTruth(st: State, sid: Sid)
    requires Partition(st.db) && sid in st.sessions && st.sessions[sid].prog.BatchDone?
    requires Coherent(st.db, st.sessions[sid]) && Remembers(st.db, st.sessions[sid])
    ensures ReportsTruth(st, sid)
  {
    var s := st.sessions[sid];
    BatchCommitted(st.db, s);
    CommitGrowth(st.db, s);
    forall i | 0 <= i < |s.prog.b.ids|
      ensures Truthful(st.db, Apply(st.db, s.work.writes), s.prog.b.ids[i], s.prog.b.items[i])
    {
      BatchTruthful(st.db, s, i);
    }
  }

  lemma SoundTruth(st: State, start: DB, sid: Sid)
    requires Sound(st, start) && AllRemember(st) && sid in st.sessions && st.sessions[sid].prog.BatchDone?
    ensures ReportsTruth(st, sid)
  {
    FinishedTruth(st, sid);
  }

  /** Every outcome, failure count and generation of a successful batch is a committed fact. */
  lemma HonestReports(db: DB, clock: nat, schedule: seq<Move>, sid: Sid)
    requires Consistent(db)
    requires var st := Execute(Init(db, clock), schedule); sid in st.sessions && st.sessions[sid].prog.BatchDone?
    ensures ReportsTruth(Execute(Init(db, clock), schedule), sid)
  {
    InitSound(db, clock);
    ExecuteSound(Init(db, clock), db, schedule);
    ExecuteRemembers(Init(db, clock), db, schedule);
    SoundTruth(Execute(Init(db, clock), schedule), db, sid);
  }
}
