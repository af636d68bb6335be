/** Any number of sessions, interleaved statement by statement under READ COMMITTED, with failures
    at every point and three outcomes of COMMIT. Its committed states refine the atomic level. */
module Machine {
  import opened Options
  import opened Identifiers
  import opened Tables
  import opened Statements
  import opened Atomic
  import opened Sessions
  import opened SessionProofs
  import opened Interference

  type Sid = nat

  datatype Reply =
    | Accepted(event: Event, created: bool)
    | Processed(count: nat, items: seq<Item>)
    | Retried(event: Event, retried: bool)
    | Failed(items: seq<Item>)

  datatype Answer = Answer(sid: Sid, reply: Reply)

  /** `past`, `log` and `answers` are history: committed states, commits in order, and replies. */
  datatype State = State(
    db: DB, clock: nat, sessions: map<Sid, Session>, past: seq<DB>, log: seq<Commit>, answers: seq<Answer>)

  /** Abort covers every failure that loses the transaction, including a COMMIT that did not happen;
      Finish with `confirmed` false is a COMMIT that happened although its caller saw an error. */
  datatype Move =
    | Begin(sid: Sid, prog: Program)
    | Statement(sid: Sid, verdict: Verdict)
    | Abort(sid: Sid)
    | Finish(sid: Sid, confirmed: bool)

  function Init(db: DB, clock: nat): State { State(db, clock, map[], [db], [], []) }

  /** Queue rows locked by the other sessions, which a claim skips. */
  function Held(sessions: map<Sid, Session>, sid: Sid): set<Id> {
    set t, id | t in sessions && t != sid && id in sessions[t].work.rows :: id
  }

  ghost predicate Blocked(st: State, sid: Sid)
    requires sid in st.sessions
  {
    exists t :: t in st.sessions && t != sid && Waits(st.db, st.sessions[sid].prog, st.sessions[t].work)
  }

  ghost predicate Enabled(st: State, m: Move) {
    match m
    case Begin(sid, prog) => sid !in st.sessions && prog.Startable()
    case Statement(sid, _) => sid in st.sessions && !st.sessions[sid].prog.Finished() && !Blocked(st, sid)
    case Abort(sid) => sid in st.sessions
    case Finish(sid, _) => sid in st.sessions && st.sessions[sid].prog.Finished() && !st.sessions[sid].work.aborted
  }

  function ItemsOf(p: Program): seq<Item> {
    if p.InBatch() then p.b.items else []
  }

  function ReplyOf(p: Program): Reply
    requires p.Finished()
  {
    match p
    case AcceptDone(_, _, created, stored) => Accepted(stored, created)
    case BatchDone(b) => Processed(b.processed, b.items)
    case RetryDone(_, _, retried, event) => Retried(event, retried)
  }

  /** The session ends with an error; only request ids of claimed rows are reported. */
  function Fail(st: State, sid: Sid): State
    requires sid in st.sessions
  {
    var items := Redact(ItemsOf(st.sessions[sid].prog));
    st.(sessions := st.sessions - {sid}, answers := st.answers + [Answer(sid, Failed(items))])
  }

  ghost function Run(st: State, sid: Sid, verdict: Verdict): State
    requires sid in st.sessions && !st.sessions[sid].prog.Finished()
  {
    match Exec(st.db, st.sessions[sid], Held(st.sessions, sid), st.clock, verdict)
    case None => Fail(st, sid)
    case Some(s) => st.(sessions := st.sessions[sid := s], clock := st.clock + 1)
  }

  function Publish(st: State, sid: Sid, confirmed: bool): State
    requires sid in st.sessions && st.sessions[sid].prog.Finished()
  {
    var s := st.sessions[sid];
    var db := Apply(st.db, s.work.writes);
    var reply := if confirmed then ReplyOf(s.prog) else Failed(Redact(ItemsOf(s.prog)));
    var after := st.(db := db, sessions := st.sessions - {sid}, answers := st.answers + [Answer(sid, reply)]);
    match OpOf(s)
    case None => after
    case Some(op) => after.(past := st.past + [db], log := st.log + [Commit(op, confirmed)])
  }

  /** A move that is not enabled, such as a statement that must wait, leaves everything as it is. */
  ghost function Take(st: State, m: Move): State {
    if !Enabled(st, m) then st
    else
      match m
      case Begin(sid, prog) => st.(sessions := st.sessions[sid := Session(prog, IDLE)])
      case Statement(sid, verdict) => Run(st, sid, verdict)
      case Abort(sid) => Fail(st, sid)
      case Finish(sid, confirmed) => Publish(st, sid, confirmed)
  }

  ghost function Execute(st: State, schedule: seq<Move>): State {
    if schedule == [] then st
    else Take(Execute(st, schedule[..|schedule| - 1]), schedule[|schedule| - 1])
  }

  // --------------------------------------------------------------- soundness

  ghost predicate AllCoherent(db: DB, sessions: map<Sid, Session>) {
    forall sid <- sessions :: Coherent(db, sessions[sid])
  }

  ghost predicate Apart(sessions: map<Sid, Session>) {
    forall a, b :: a in sessions && b in sessions && a != b ==> Disjoint(sessions[a].work, sessions[b].work)
  }

  ghost predicate History(st: State, start: DB) {
    && Behaves(st.past, st.log)
    && st.past[0] == start
    && st.past[|st.log|] == st.db
  }

  ghost predicate Sound(st: State, start: DB) {
    && Consistent(st.db)
    && AllCoherent(st.db, st.sessions)
    && Apart(st.sessions)
    && History(st, start)
  }

  lemma InitSound(db: DB, clock: nat)
    requires Consistent(db)
    ensures Sound(Init(db, clock), db)
  {
  }

  lemma BeginCoherent(db: DB, prog: Program)
    requires prog.Startable()
    ensures Coherent(db, Session(prog, IDLE))
  {
  }

  lemma IdleDisjoint(k: Work)
    ensures Disjoint(IDLE, k) && Disjoint(k, IDLE)
  {
  }

  lemma BeginSound(st: State, start: DB, sid: Sid, prog: Program)
    requires Sound(st, start) && Enabled(st, Begin(sid, prog))
    ensures Sound(Take(st, Begin(sid, prog)), start)
  {
    BeginCoherent(st.db, prog);
    forall a <- st.sessions ensures Disjoint(IDLE, st.sessions[a].work) && Disjoint(st.sessions[a].work, IDLE) {
      IdleDisjoint(st.sessions[a].work);
    }
  }

  lemma FailSound(st: State, start: DB, sid: Sid)
    requires Sound(st, start) && sid in st.sessions
    ensures Sound(Fail(st, sid), start)
  {
  }

  lemma DisjointSymmetric(a: Work, b: Work)
    requires Disjoint(a, b)
    ensures Disjoint(b, a)
  {
  }

  lemma RunApart(st: State, sid: Sid, verdict: Verdict, s': Session)
    requires AllCoherent(st.db, st.sessions) && Apart(st.sessions)
    requires Enabled(st, Statement(sid, verdict))
    requires Exec(st.db, st.sessions[sid], Held(st.sessions, sid), st.clock, verdict) == Some(s')
    ensures Apart(st.sessions[sid := s'])
  {
    var s, held := st.sessions[sid], Held(st.sessions, sid);
    forall t | t in st.sessions && t != sid
      ensures Disjoint(s'.work, st.sessions[t].work) && Disjoint(st.sessions[t].work, s'.work)
    {
      var other := st.sessions[t].work;
      assert other.rows <= held;
      ExecDisjoint(st.db, s, held, st.clock, verdict, other);
      DisjointSymmetric(s'.work, other);
    }
  }

  lemma RunSound(st: State, start: DB, sid: Sid, verdict: Verdict)
    requires Sound(st, start) && Enabled(st, Statement(sid, verdict))
    ensures Sound(Run(st, sid, verdict), start)
  {
    var next := Exec(st.db, st.sessions[sid], Held(st.sessions, sid), st.clock, verdict);
    if next.None? {
      FailSound(st, start, sid);
    } else {
      ExecCoherent(st.db, st.sessions[sid], Held(st.sessions, sid), st.clock, verdict);
      RunApart(st, sid, verdict, next.value);
    }
  }

  lemma PublishCoherent(st: State, sid: Sid)
    requires Partition(st.db) && AllCoherent(st.db, st.sessions) && Apart(st.sessions)
    requires sid in st.sessions && st.sessions[sid].prog.Finished()
    ensures AllCoherent(Apply(st.db, st.sessions[sid].work.writes), st.sessions - {sid})
  {
    var s := st.sessions[sid];
    FinishedContained(st.db, s);
    forall t | t in st.sessions && t != sid ensures Coherent(Apply(st.db, s.work.writes), st.sessions[t]) {
      CommitStable(st.db, s.work, st.sessions[t].work);
      StableCoherent(st.db, Apply(st.db, s.work.writes), st.sessions[t]);
    }
  }

  lemma HistoryExtends(past: seq<DB>, log: seq<Commit>, op: Op, confirmed: bool)
    requires Behaves(past, log) && Legal(past[|log|], op)
    ensures Behaves(past + [Effect(past[|log|], op)], log + [Commit(op, confirmed)])
  {
    var past', log' := past + [Effect(past[|log|], op)], log + [Commit(op, confirmed)];
    forall i | 0 <= i < |log'| ensures StepAt(past', log', i) {
      if i < |log| {
        assert StepAt(past, log, i);
      }
    }
  }

  lemma ApartWithout(sessions: map<Sid, Session>, sid: Sid)
    requires Apart(sessions)
    ensures Apart(sessions - {sid})
  {
  }

  lemma PublishHistory(st: State, start: DB, sid: Sid, confirmed: bool)
    requires History(st, start) && sid in st.sessions && st.sessions[sid].prog.Finished()
    requires CommitsAs(st.db, st.sessions[sid])
    ensures History(Publish(st, sid, confirmed), start)
  {
    var op := OpOf(st.sessions[sid]);
    if op.Some? {
      HistoryExtends(st.past, st.log, op.value, confirmed);
    }
  }

  lemma PublishConsistent(db: DB, s: Session)
    requires Consistent(db) && s.prog.Finished() && CommitsAs(db, s)
    ensures Consistent(Apply(db, s.work.writes))
  {
    if OpOf(s).Some? {
      StepConsistent(db, OpOf(s).value);
    }
  }

  lemma PublishSound(st: State, start: DB, sid: Sid, confirmed: bool)
    requires Sound(st, start) && Enabled(st, Finish(sid, confirmed))
    ensures Sound(Publish(st, sid, confirmed), start)
  {
    FinishedCommits(st.db, st.sessions[sid]);
    PublishCoherent(st, sid);
    ApartWithout(st.sessions, sid);
    PublishHistory(st, start, sid, confirmed);
    PublishConsistent(st.db, st.sessions[sid]);
  }

  lemma TakeSound(st: State, start: DB, m: Move)
    requires Sound(st, start)
    ensures Sound(Take(st, m), start)
  {
    if Enabled(st, m) {
      match m
      case Begin(sid, prog) => BeginSound(st, start, sid, prog);
      case Statement(sid, verdict) => RunSound(st, start, sid, verdict);
      case Abort(sid) => FailSound(st, start, sid);
      case Finish(sid, confirmed) => PublishSound(st, start, sid, confirmed);
    }
  }

  lemma {:induction false} ExecuteSound(st: State, start: DB, schedule: seq<Move>)
    requires Sound(st, start)
    ensures Sound(Execute(st, schedule), start)
    decreases |schedule|
  {
    if schedule != [] {
      ExecuteSound(st, start, schedule[..|schedule| - 1]);
      TakeSound(Execute(st, schedule[..|schedule| - 1]), start, schedule[|schedule| - 1]);
    }
  }

  /** Refinement: under every schedule, the committed tables are reached from the start by the
      logged transactions, run whole and one after another in commit order. */
  lemma Refinement(db: DB, clock: nat, schedule: seq<Move>)
    requires Consistent(db)
    ensures var st := Execute(Init(db, clock), schedule);
            && Behaves(st.past, st.log) && st.past[0] == db && st.past[|st.log|] == st.db
            && Consistent(st.db)
  {
    InitSound(db, clock);
    ExecuteSound(Init(db, clock), db, schedule);
  }
}
