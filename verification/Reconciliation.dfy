/** Worker counters and log lines against what the store committed, for every schedule. */
module Reconciliation {
  import opened Identifiers
  import opened Tables
  import opened Statements
  import opened Sessions
  import opened Interference
  import opened Machine
  import opened Guarantees
  import opened Workers
  import opened RequestIds
  import opened Sums

  // ---------------------------------------------------------------- counters

  /** An attempt as its worker saw it: the reply of one batch transaction. */
  ghost predicate Saw(a: Attempt, r: Reply) {
    match r
    case Processed(count, items) => a.err.None? && a.count == count && a.events == items
    case Failed(items) => a.err.Some? && a.events == items
    case _ => false
  }

  /** Session `w` serves one worker, whose attempts are the replies to that session, in order. */
  ghost predicate Served(attempts: seq<Attempt>, answers: seq<Answer>, w: Sid) {
    if answers == [] then attempts == []
    else
      var last, rest := answers[|answers| - 1], answers[..|answers| - 1];
      if last.sid != w then Served(attempts, rest, w)
      else
        && attempts != [] && Saw(attempts[|attempts| - 1], last.reply)
        && Served(attempts[..|attempts| - 1], rest, w)
  }

  function CountOf(r: Reply): nat { if r.Processed? then r.count else 0 }

  /** Events reported to session `w`. */
  ghost function Told(answers: seq<Answer>, w: Sid): nat {
    if answers == [] then 0
    else
      var last := answers[|answers| - 1];
      Told(answers[..|answers| - 1], w) + if last.sid == w then CountOf(last.reply) else 0
  }

  lemma {:induction false} CountedIsTold(attempts: seq<Attempt>, answers: seq<Answer>, w: Sid)
    requires Served(attempts, answers, w)
    ensures Counted(attempts) == Told(answers, w)
    decreases |answers|
  {
    if answers != [] {
      var rest := answers[..|answers| - 1];
      if answers[|answers| - 1].sid != w {
        CountedIsTold(attempts, rest, w);
      } else {
        CountedIsTold(attempts[..|attempts| - 1], rest, w);
      }
    }
  }

  ghost predicate OnlyWorkers(answers: seq<Answer>, ws: set<Sid>) {
    forall a <- answers :: a.reply.Processed? ==> a.sid in ws
  }

  ghost function ToldTo(answers: seq<Answer>, ws: set<Sid>): int { Sum(ws, w => Told(answers, w)) }

  lemma ToldNext(answers: seq<Answer>, a: Answer, ws: set<Sid>)
    requires a.reply.Processed? ==> a.sid in ws
    ensures ToldTo(answers + [a], ws) == ToldTo(answers, ws) + CountOf(a.reply)
  {
    var f, g := (w: Sid) => Told(answers, w), (w: Sid) => Told(answers + [a], w);
    assert (answers + [a])[..|answers|] == answers;
    if a.sid in ws {
      SumRemove(ws, f, a.sid);
      SumRemove(ws, g, a.sid);
      SumEqual(ws - {a.sid}, f, g);
    } else {
      SumEqual(ws, f, g);
    }
  }

  lemma {:induction false} ToldIsReported(answers: seq<Answer>, ws: set<Sid>)
    requires OnlyWorkers(answers, ws)
    ensures ToldTo(answers, ws) == Reported(answers)
  {
    if answers == [] {
      SumConstant(ws, w => Told(answers, w), 0);
    } else {
      var rest, last := answers[..|answers| - 1], answers[|answers| - 1];
      assert last in answers && forall a <- rest :: a in answers;
      ToldIsReported(rest, ws);
      ToldNext(rest, last, ws);
      assert rest + [last] == answers;
    }
  }

  const ZERO := Stats(false, false, 0, 0, 0, 0)

  function RunOf(runs: map<Sid, seq<Attempt>>, w: Sid): seq<Attempt> { if w in runs then runs[w] else [] }

  /** The EventsProcessed counters, summed over all workers. */
  ghost function Processed64(runs: map<Sid, seq<Attempt>>): int {
    Sum(runs.Keys, w => Tally(ZERO, RunOf(runs, w)).processed)
  }

  ghost predicate AllServed(runs: map<Sid, seq<Attempt>>, answers: seq<Answer>) {
    OnlyWorkers(answers, runs.Keys) && forall w <- runs :: Served(runs[w], answers, w)
  }

  lemma {:induction false} SumWraps(s: set<Sid>, f: Sid -> int, g: Sid -> int)
    requires forall w <- s :: g(w) == Wrap(f(w))
    ensures Wrap(Sum(s, g)) == Wrap(Sum(s, f))
    decreases |s|
  {
    if s != {} {
      var w :| w in s;
      SumRemove(s, f, w);
      SumRemove(s, g, w);
      SumWraps(s - {w}, f, g);
      WrapAdds(f(w), Sum(s - {w}, g));
      WrapAdds(Sum(s - {w}, g), f(w));
      WrapAdds(Sum(s - {w}, f), f(w));
    }
  }

  lemma {:induction false} TermBelowSum(s: set<Sid>, f: Sid -> int, w: Sid)
    requires w in s && forall v <- s :: 0 <= f(v)
    ensures f(w) <= Sum(s, f)
  {
    SumRemove(s, f, w);
    SumMonotone(s - {w}, _ => 0, f);
    SumConstant(s - {w}, (_: Sid) => 0, 0);
    SumEqual(s - {w}, _ => 0, (_: Sid) => 0);
  }

  /** Summed counters agree with the true sum modulo 2^64, and exactly if that fits in one. */
  lemma WrappedSum(s: set<Sid>, f: Sid -> int, g: Sid -> int)
    requires forall w <- s :: 0 <= f(w) && g(w) == Wrap(f(w))
    ensures Wrap(Sum(s, g)) == Wrap(Sum(s, f))
    ensures Sum(s, f) < TWO64 ==> Sum(s, g) == Sum(s, f)
  {
    SumWraps(s, f, g);
    if Sum(s, f) < TWO64 {
      forall w <- s ensures g(w) == f(w) {
        TermBelowSum(s, f, w);
      }
      SumEqual(s, f, g);
    }
  }

  lemma CounterIsTold(run: seq<Attempt>, answers: seq<Answer>, w: Sid)
    requires Served(run, answers, w)
    ensures Tally(ZERO, run).processed == Wrap(Told(answers, w))
  {
    CountedIsTold(run, answers, w);
  }

  lemma CountersAreTold(runs: map<Sid, seq<Attempt>>, answers: seq<Answer>)
    requires AllServed(runs, answers)
    ensures Wrap(Processed64(runs)) == Wrap(Reported(answers))
    ensures Reported(answers) < TWO64 ==> Processed64(runs) == Reported(answers)
  {
    var f, g := (w: Sid) => Told(answers, w), (w: Sid) => Tally(ZERO, RunOf(runs, w)).processed;
    ToldIsReported(answers, runs.Keys);
    forall w <- runs ensures g(w) == Wrap(f(w)) {
      CounterIsTold(runs[w], answers, w);
    }
    WrappedSum(runs.Keys, f, g);
  }

  /** Counters plus unreported posts are the ledger's growth. */
  ghost predicate Reconciled(st: State, start: DB, runs: map<Sid, seq<Attempt>>) {
    var unreported, growth := Unreported(st.log), |st.db.ledger| - |start.ledger|;
    && Wrap(Processed64(runs) + unreported) == Wrap(growth)
    && (growth < TWO64 ==> Processed64(runs) + unreported == growth)
  }

  lemma StateReconciles(st: State, start: DB, runs: map<Sid, seq<Attempt>>)
    requires Accounted(st, start) && AllServed(runs, st.answers)
    ensures Reconciled(st, start, runs)
  {
    CountersAreTold(runs, st.answers);
    WrapAdds(Processed64(runs), Unreported(st.log));
    WrapAdds(Reported(st.answers), Unreported(st.log));
  }

  /** The EventsProcessed counters of all workers, plus the posts of commits reported as errors, are
      the ledger's growth: modulo 2^64 always, and exactly while the growth fits in a counter. */
  lemma WorkersReconcile(db: DB, clock: nat, schedule: seq<Move>, runs: map<Sid, seq<Attempt>>)
    requires Consistent(db) && AllServed(runs, Execute(Init(db, clock), schedule).answers)
    ensures Reconciled(Execute(Init(db, clock), schedule), db, runs)
  {
    HonestCounts(db, clock, schedule);
    StateReconciles(Execute(Init(db, clock), schedule), db, runs);
  }

  // --------------------------------------------------------------- log lines

  /** The events of a batch that carry a request id. */
  function Correlated(items: seq<Item>): seq<Item> {
    if items == [] then []
    else Correlated(items[..|items| - 1]) + if items[|items| - 1].requestId != "" then [items[|items| - 1]] else []
  }

  /** Each item carries the request id stored for its event, which is empty or can be logged as it is. */
  ghost predicate CarriesStoredIds(db: DB, ids: seq<Id>, items: seq<Item>) {
    && |items| == |ids|
    && forall i :: 0 <= i < |ids| ==>
         && ids[i] in db.usage && items[i].requestId == db.usage[ids[i]].priced.requestId
         && ForLog(items[i].requestId) == items[i].requestId
  }

  ghost predicate Settled(items: seq<Item>) { forall item <- items :: KnownOutcome(item) }

  lemma {:induction false} KeptIsCorrelated(items: seq<Item>, failed: bool)
    requires forall item <- items :: ForLog(item.requestId) == item.requestId
    requires failed || Settled(items)
    ensures Kept(items, failed) == Correlated(items)
  {
    if items != [] {
      assert items[|items| - 1] in items;
      KeptIsCorrelated(items[..|items| - 1], failed);
    }
  }

  /** The lines of the batch are exactly those of its correlated events, in order, under their stored
      ids: unconfirmed ones if the batch is lost now, confirmed ones once it is finished. */
  ghost predicate LoggedUnderStoredIds(db: DB, b: Batch, finished: bool) {
    && CarriesStoredIds(db, b.ids, b.items) && CarriesStoredIds(db, b.ids, Redact(b.items))
    && LogsAll(Lines(Redact(b.items), true), Correlated(Redact(b.items)), true)
    && (finished ==> LogsAll(Lines(b.items, false), Correlated(b.items), false))
  }

  lemma StoredIdLoggable(db: DB, id: Id)
    requires UsageValid(db) && id in db.usage
    ensures ForLog(db.usage[id].priced.requestId) == db.usage[id].priced.requestId
  {
    ForLogCanonical(db.usage[id].priced.requestId);
    assert ValidPriced(db.usage[id].priced);
  }

  lemma BatchRecorded(db: DB, s: Session)
    requires s.prog.InBatch() && BatchCoherent(db, s)
    ensures Claimed(db, s.prog.b, s.work) && Recorded(db, s.prog.b, RecordedUpto(s.prog))
  {
  }

  lemma ItemsCarryIds(db: DB, b: Batch, k: Work, n: nat)
    requires Partition(db) && UsageValid(db) && Claimed(db, b, k) && Recorded(db, b, n)
    ensures CarriesStoredIds(db, b.ids, b.items) && CarriesStoredIds(db, b.ids, Redact(b.items))
  {
    forall i | 0 <= i < |b.ids|
      ensures b.ids[i] in db.usage && b.items[i].requestId == db.usage[b.ids[i]].priced.requestId
      ensures ForLog(b.items[i].requestId) == b.items[i].requestId
    {
      assert b.items[i] == Report(db, b.ids[i], b.outcomes) && b.ids[i] in Members(b.ids);
      StoredIdLoggable(db, b.ids[i]);
    }
  }

  lemma FinishedSettled(db: DB, b: Batch)
    requires Recorded(db, b, |b.ids|)
    ensures Settled(b.items)
  {
    assert b.ids[..|b.ids|] == b.ids;
    forall i | 0 <= i < |b.items| ensures KnownOutcome(b.items[i]) {
      assert b.items[i] == Report(db, b.ids[i], b.outcomes) && b.ids[i] in Members(b.ids);
    }
  }

  lemma CarriedLogged(db: DB, b: Batch, finished: bool)
    requires CarriesStoredIds(db, b.ids, b.items) && CarriesStoredIds(db, b.ids, Redact(b.items))
    requires finished ==> Settled(b.items)
    ensures LoggedUnderStoredIds(db, b, finished)
  {
    CorrelatedEventsLogged(Redact(b.items), true);
    KeptIsCorrelated(Redact(b.items), true);
    if finished {
      CorrelatedEventsLogged(b.items, false);
      KeptIsCorrelated(b.items, false);
    }
  }

  lemma BatchLogged(db: DB, s: Session)
    requires Consistent(db) && s.prog.InBatch() && Coherent(db, s)
    ensures LoggedUnderStoredIds(db, s.prog.b, s.prog.BatchDone?)
  {
    BatchRecorded(db, s);
    ItemsCarryIds(db, s.prog.b, s.work, RecordedUpto(s.prog));
    if s.prog.BatchDone? {
      FinishedSettled(db, s.prog.b);
    }
    CarriedLogged(db, s.prog.b, s.prog.BatchDone?);
  }

  /** No correlated event loses its id before logging, under every schedule and for every batch at
      every point after its claim, whether it is lost at that point or finishes, and whatever legacy
      rows without an id it claimed. */
  lemma NoIdLostBeforeLogging(db: DB, clock: nat, schedule: seq<Move>, sid: Sid)
    requires Consistent(db)
    requires var st := Execute(Init(db, clock), schedule); sid in st.sessions && st.sessions[sid].prog.InBatch()
    ensures var st := Execute(Init(db, clock), schedule);
            var p := st.sessions[sid].prog;
            && LoggedUnderStoredIds(st.db, p.b, p.BatchDone?)
            && Fail(st, sid).answers == st.answers + [Answer(sid, Failed(Redact(p.b.items)))]
  {
    var st := Execute(Init(db, clock), schedule);
    InitSound(db, clock);
    ExecuteSound(Init(db, clock), db, schedule);
    assert Coherent(st.db, st.sessions[sid]);
    BatchLogged(st.db, st.sessions[sid]);
  }
}
