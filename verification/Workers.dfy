/** The polling worker: capped exponential backoff, counters and per-event log lines. */
module Workers {
  import opened Options
  import opened RequestIds
  import opened Sessions

  /** A 64-bit count of nanoseconds; every operation on it is proved not to overflow. */
  newtype Duration = x: int | -0x8000_0000_0000_0000 <= x < 0x8000_0000_0000_0000

  const TWO64 := 0x1_0000_0000_0000_0000

  type Uint64 = x: int | 0 <= x < TWO64

  function Wrap(x: int): Uint64 { x % TWO64 }

  lemma WrapAdds(a: int, b: int)
    ensures Wrap(Wrap(a) + b) == Wrap(a + b)
  {
    var q := a / TWO64;
    assert a + b == (a % TWO64 + b) + q * TWO64;
  }

  const THIRTY_SECONDS: Duration := 30_000_000_000

  // ---------------------------------------------------------------- backoff

  function Doubled(x: int, n: nat): int {
    if n == 0 then x else 2 * Doubled(x, n - 1)
  }

  function Pow2(n: nat): int { Doubled(1, n) }

  lemma {:induction false} DoubledIsPower(x: int, n: nat)
    ensures Doubled(x, n) == x * Pow2(n)
    ensures x > 0 ==> Doubled(x, n) >= x
  {
    if n > 0 {
      DoubledIsPower(x, n - 1);
    }
  }

  function Cap(interval: Duration): Duration {
    if THIRTY_SECONDS < interval then interval else THIRTY_SECONDS
  }

  /** The promised delay after `n` consecutive failures, over unbounded integers. */
  function Backoff(interval: Duration, n: nat): int {
    var exact, cap := Doubled(interval as int, n), Cap(interval) as int;
    if exact < cap then exact else cap
  }

  /** The closed form, its range, and the reset. */
  lemma BackoffClosedForm(interval: Duration, n: nat)
    requires interval > 0
    ensures var exact, cap := interval as int * Pow2(n), if interval > 30_000_000_000 then interval as int else 30_000_000_000;
            Backoff(interval, n) == if exact < cap then exact else cap
    ensures interval as int <= Backoff(interval, n) <= Cap(interval) as int
    ensures Pow2(0) == 1 && Pow2(n + 1) == 2 * Pow2(n)
    ensures Backoff(interval, 0) == interval as int
    ensures Backoff(interval, n) <= Backoff(interval, n + 1)
  {
    DoubledIsPower(interval as int, n);
  }

  /** The halving test of the loop takes the closed form from one failure count to the next. It is
      exact because the cap is even, or else equal to the interval. */
  lemma BackoffNext(interval: Duration, n: nat, delay: Duration)
    requires interval > 0 && delay as int == Backoff(interval, n)
    ensures Backoff(interval, n + 1) ==
            if delay >= Cap(interval) / 2 then Cap(interval) as int else delay as int * 2
  {
    BackoffClosedForm(interval, n);
  }

  // --------------------------------------------------------------- attempts

  datatype Failure = Canceled | DeadlineExceeded | Other

  /** One call of the processor: its results, its error, whether the attempt's context had ended,
      and whether the worker's own context ended during it. */
  datatype Attempt = Attempt(count: int, events: seq<Item>, err: Option<Failure>, contextErr: bool, stopped: bool) {
    predicate Success() { err.None? }
    predicate Cancellation() { err.Some? && (contextErr || err.value != Other) }
    predicate Error() { err.Some? && !contextErr && err.value == Other }
    function Counted(): nat { if err.None? && count > 0 then count else 0 }
  }

  /** What the select sees next: the context ends, or the timer fires and an attempt is made unless
      the context ended at the same time. */
  datatype Tick = Done | Fire(late: bool, attempt: Attempt)

  /** The number of attempts made from tick `i` on, counted from the start of the script; the
      context ends when the script does. */
  function Until(script: seq<Tick>, i: nat): (n: nat)
    requires i <= |script|
    ensures i <= n <= |script|
    ensures forall j :: i <= j < n ==> script[j].Fire?
    decreases |script| - i
  {
    if i == |script| || script[i].Done? || script[i].late then i
    else if script[i].attempt.stopped then i + 1
    else Until(script, i + 1)
  }

  function Attempts(script: seq<Tick>, n: nat): (a: seq<Attempt>)
    requires n <= |script| && forall j :: 0 <= j < n ==> script[j].Fire?
    ensures |a| == n
  {
    if n == 0 then [] else Attempts(script, n - 1) + [script[n - 1].attempt]
  }

  /** The attempts that Run makes. */
  function Made(script: seq<Tick>): seq<Attempt> { Attempts(script, Until(script, 0)) }

  function Successes(a: seq<Attempt>): nat {
    if a == [] then 0 else Successes(a[..|a| - 1]) + if a[|a| - 1].Success() then 1 else 0
  }

  function Errors(a: seq<Attempt>): nat {
    if a == [] then 0 else Errors(a[..|a| - 1]) + if a[|a| - 1].Error() then 1 else 0
  }

  function Cancellations(a: seq<Attempt>): nat {
    if a == [] then 0 else Cancellations(a[..|a| - 1]) + if a[|a| - 1].Cancellation() then 1 else 0
  }

  function Counted(a: seq<Attempt>): nat {
    if a == [] then 0 else Counted(a[..|a| - 1]) + a[|a| - 1].Counted()
  }

  /** Consecutive failures since the last success. */
  function Streak(a: seq<Attempt>): nat {
    if a == [] || a[|a| - 1].Success() then 0 else Streak(a[..|a| - 1]) + 1
  }

  /** Streak, said without recursion: it is the length of the longest failing suffix. */
  lemma {:induction false} StreakIsFailingSuffix(a: seq<Attempt>)
    ensures Streak(a) <= |a|
    ensures forall i :: |a| - Streak(a) <= i < |a| ==> a[i].err.Some?
    ensures Streak(a) < |a| ==> a[|a| - Streak(a) - 1].Success()
  {
    if a != [] && !a[|a| - 1].Success() {
      StreakIsFailingSuffix(a[..|a| - 1]);
    }
  }

  lemma {:induction false} AttemptsClassified(a: seq<Attempt>)
    ensures |a| == Successes(a) + Errors(a) + Cancellations(a)
  {
    if a != [] {
      AttemptsClassified(a[..|a| - 1]);
    }
  }

  datatype Stats = Stats(
    running: bool, inFlight: bool, attempts: Uint64, errors: Uint64, cancellations: Uint64, processed: Uint64)

  /** The counters after the attempts `a`. */
  function Tally(s: Stats, a: seq<Attempt>): Stats {
    s.(attempts := Wrap(s.attempts + |a|), errors := Wrap(s.errors + Errors(a)),
       cancellations := Wrap(s.cancellations + Cancellations(a)), processed := Wrap(s.processed + Counted(a)))
  }

  /** One more attempt, counted in exactly one of the three ways. */
  ghost predicate CountsOnce(s: Stats, s': Stats, a: Attempt) {
    && s'.running == s.running && !s'.inFlight
    && s'.attempts == Wrap(s.attempts + 1)
    && s'.errors == Wrap(s.errors + if a.Error() then 1 else 0)
    && s'.cancellations == Wrap(s.cancellations + if a.Cancellation() then 1 else 0)
    && s'.processed == Wrap(s.processed + a.Counted())
  }

  lemma CountNext(a: seq<Attempt>, next: Attempt)
    ensures Errors(a + [next]) == Errors(a) + if next.Error() then 1 else 0
    ensures Cancellations(a + [next]) == Cancellations(a) + if next.Cancellation() then 1 else 0
    ensures Counted(a + [next]) == Counted(a) + next.Counted()
  {
    assert (a + [next])[..|a|] == a;
  }

  lemma TallyNext(s: Stats, a: seq<Attempt>, next: Attempt, s': Stats)
    requires CountsOnce(Tally(s, a), s', next)
    ensures s' == Tally(s, a + [next]).(inFlight := false)
  {
    CountNext(a, next);
    WrapAdds(s.attempts + |a|, 1);
    WrapAdds(s.errors + Errors(a), if next.Error() then 1 else 0);
    WrapAdds(s.cancellations + Cancellations(a), if next.Cancellation() then 1 else 0);
    WrapAdds(s.processed + Counted(a), next.Counted());
  }

  /** The counters are those of `start` plus the attempts `a`. */
  ghost predicate Shows(s: Stats, start: Stats, a: seq<Attempt>) {
    s.(inFlight := false) == Tally(start, a).(inFlight := false)
  }

  lemma ShowsStart(s: Stats)
    ensures Shows(s.(running := true), s.(running := true), [])
  {
  }

  lemma ShowsStop(s: Stats, start: Stats, a: seq<Attempt>)
    requires Shows(s, start.(running := true), a)
    ensures s.(running := false, inFlight := false) == Tally(start, a).(running := false, inFlight := false)
  {
  }

  lemma ShowsNext(s: Stats, start: Stats, a: seq<Attempt>, next: Attempt, s': Stats)
    requires Shows(s, start, a) && CountsOnce(s, s', next)
    ensures Shows(s', start, a + [next])
  {
    TallyNext(start, a, next, s');
  }

  /** From zeroed counters, attempts are the successes plus both error counters, modulo 2^64. */
  lemma CountersReconcile(a: seq<Attempt>)
    ensures var s := Tally(Stats(false, false, 0, 0, 0, 0), a);
            s.attempts == Wrap(Successes(a) + s.errors + s.cancellations)
  {
    AttemptsClassified(a);
    WrapAdds(Errors(a), Successes(a) + Wrap(Cancellations(a)));
    WrapAdds(Cancellations(a), Successes(a) + Errors(a));
  }

  /** The worker was stopped during the last attempt, which is followed by no delay. */
  predicate LastStopped(a: seq<Attempt>) { a != [] && a[|a| - 1].stopped }

  /** The delays set after each attempt of `a` but possibly the last. */
  ghost predicate Spaced(interval: Duration, a: seq<Attempt>, delays: seq<Duration>)
    requires |delays| <= |a|
  {
    forall i :: 0 <= i < |delays| ==> delays[i] as int == Backoff(interval, Streak(a[..i + 1]))
  }

  lemma {:induction false} SpacedPrefix(interval: Duration, a: seq<Attempt>, delays: seq<Duration>, next: Attempt)
    requires |delays| <= |a| && Spaced(interval, a, delays)
    ensures Spaced(interval, a + [next], delays)
  {
    forall i | 0 <= i < |delays| ensures delays[i] as int == Backoff(interval, Streak((a + [next])[..i + 1])) {
      assert (a + [next])[..i + 1] == a[..i + 1];
    }
  }

  lemma SpacedNext(interval: Duration, a: seq<Attempt>, delays: seq<Duration>, delay: Duration)
    requires |delays| + 1 == |a| && Spaced(interval, a, delays) && delay as int == Backoff(interval, Streak(a))
    ensures Spaced(interval, a, delays + [delay])
  {
    assert a[..|delays| + 1] == a;
  }

  lemma DelayNext(interval: Duration, a: seq<Attempt>, delay: Duration, next: Attempt)
    requires interval > 0 && delay as int == Backoff(interval, Streak(a))
    ensures Backoff(interval, Streak(a + [next])) ==
            if next.err.None? then interval as int
            else if delay >= Cap(interval) / 2 then Cap(interval) as int
            else delay as int * 2
  {
    assert (a + [next])[..|a|] == a;
    BackoffNext(interval, Streak(a), delay);
    BackoffClosedForm(interval, 0);
  }

  /** `a` was made on the first `i` ticks and the loop is still running. */
  ghost predicate Reached(script: seq<Tick>, i: nat, a: seq<Attempt>) {
    && i <= |script| && Until(script, 0) == Until(script, i)
    && (forall j :: 0 <= j < i ==> script[j].Fire?)
    && a == Attempts(script, i)
  }

  /** Which attempts are made: those of the leading ticks on which the timer fires in time, up to the
      first during which the worker is stopped. */
  lemma {:induction false} MadeUpTo(script: seq<Tick>, n: nat)
    requires n <= |script|
    requires forall i :: 0 <= i < n ==> script[i].Fire? && !script[i].late && (i < n - 1 ==> !script[i].attempt.stopped)
    requires n == |script| || script[n].Done? || script[n].late || (n > 0 && script[n - 1].attempt.stopped)
    ensures |Made(script)| == n && forall i :: 0 <= i < n ==> Made(script)[i] == script[i].attempt
  {
    UntilIs(script, 0, n);
    AttemptsAre(script, n);
  }

  lemma {:induction false} UntilIs(script: seq<Tick>, i: nat, n: nat)
    requires i <= n <= |script|
    requires forall j :: i <= j < n ==> script[j].Fire? && !script[j].late && (j < n - 1 ==> !script[j].attempt.stopped)
    requires n == |script| || script[n].Done? || script[n].late || (n > i && script[n - 1].attempt.stopped)
    ensures Until(script, i) == n
    decreases n - i
  {
    if i < n && !script[i].attempt.stopped {
      UntilIs(script, i + 1, n);
    }
  }

  lemma {:induction false} AttemptsAre(script: seq<Tick>, n: nat)
    requires n <= |script| && forall j :: 0 <= j < n ==> script[j].Fire?
    ensures forall i :: 0 <= i < n ==> Attempts(script, n)[i] == script[i].attempt
  {
    if n > 0 {
      AttemptsAre(script, n - 1);
    }
  }

  lemma ReachedNext(script: seq<Tick>, i: nat, a: seq<Attempt>)
    requires i < |script| && script[i].Fire? && !script[i].late && Reached(script, i, a)
    ensures script[i].attempt.stopped ==> Made(script) == a + [script[i].attempt]
    ensures !script[i].attempt.stopped ==> Reached(script, i + 1, a + [script[i].attempt])
  {
  }

  lemma ReachedEnd(script: seq<Tick>, i: nat, a: seq<Attempt>)
    requires Reached(script, i, a) && (i == |script| || script[i].Done? || script[i].late)
    ensures Made(script) == a
  {
  }

  // -------------------------------------------------------------- log lines

  datatype Line =
    | Unconfirmed(requestId: string)
    | PostedLine(requestId: string, generation: int)
    | FailedLine(requestId: string, outcome: string, failures: int, generation: int)
    | BatchFailed
    | BatchCompleted(count: int)
  {
    predicate OfEvent() { Unconfirmed? || PostedLine? || FailedLine? }
  }

  function LineFor(e: Item, failed: bool): seq<Line> {
    var id := ForLog(e.requestId);
    if id == "" then []
    else if failed then [Unconfirmed(id)]
    else if e.outcome == "processed" then [PostedLine(id, e.generation)]
    else if e.outcome == "retry_scheduled" || e.outcome == "quarantined" then
      [FailedLine(id, e.outcome, e.failures, e.generation)]
    else []
  }

  function Lines(events: seq<Item>, failed: bool): seq<Line> {
    if events == [] then []
    else Lines(events[..|events| - 1], failed) + LineFor(events[|events| - 1], failed)
  }

  predicate KnownOutcome(e: Item) {
    e.outcome == "processed" || e.outcome == "retry_scheduled" || e.outcome == "quarantined"
  }

  /** The line agrees with the event it reports. */
  predicate Logs(line: Line, e: Item, failed: bool) {
    && line.OfEvent() && line.requestId == ForLog(e.requestId)
    && (line.Unconfirmed? <==> failed)
    && (line.PostedLine? <==> !failed && e.outcome == "processed")
    && (line.FailedLine? ==> line.outcome == e.outcome && line.failures == e.failures)
    && (!failed ==> line.generation == e.generation)
  }

  /** The events that get a line: those whose id can be logged and, if confirmed, whose outcome is known. */
  function Kept(events: seq<Item>, failed: bool): seq<Item> {
    if events == [] then []
    else Kept(events[..|events| - 1], failed) + if Keeps(events[|events| - 1], failed) then [events[|events| - 1]] else []
  }

  predicate Keeps(e: Item, failed: bool) { ForLog(e.requestId) != "" && (failed || KnownOutcome(e)) }

  lemma EventLogged(e: Item, failed: bool)
    ensures if Keeps(e, failed) then |LineFor(e, failed)| == 1 && Logs(LineFor(e, failed)[0], e, failed)
            else LineFor(e, failed) == []
  {
  }

  lemma Associates(a: seq<Line>, b: seq<Line>, c: seq<Line>)
    ensures a + (b + c) == a + b + c
  {
  }

  lemma LinesNext(before: seq<Line>, events: seq<Item>, failed: bool, n: nat)
    requires n < |events|
    ensures before + Lines(events[..n + 1], failed) == before + Lines(events[..n], failed) + LineFor(events[n], failed)
  {
    assert events[..n + 1][..n] == events[..n];
    Associates(before, Lines(events[..n], failed), LineFor(events[n], failed));
  }

  lemma AllLinesNext(before: seq<Line>, a: seq<Attempt>, next: Attempt)
    ensures before + AllLines(a + [next]) == before + AllLines(a) + Lines(next.events, next.err.Some?) + BatchLines(next)
  {
    assert (a + [next])[..|a|] == a;
    var earlier, lines, batch := AllLines(a), Lines(next.events, next.err.Some?), BatchLines(next);
    assert AllLines(a + [next]) == earlier + lines + batch;
    Associates(before, earlier + lines, batch);
    Associates(before, earlier, lines);
  }

  /** One line per event, in the same order. */
  ghost predicate LogsAll(lines: seq<Line>, events: seq<Item>, failed: bool) {
    |lines| == |events| && forall i :: 0 <= i < |lines| ==> Logs(lines[i], events[i], failed)
  }

  lemma LogsNext(lines: seq<Line>, line: Line, events: seq<Item>, event: Item, failed: bool)
    requires LogsAll(lines, events, failed) && Logs(line, event, failed)
    ensures LogsAll(lines + [line], events + [event], failed)
  {
  }

  /** Whatever the batch holds: the lines are exactly those of its loggable events, in order, each with
      the event's own id and outcome. Events without an id are passed over and hide no other. */
  lemma {:induction false} CorrelatedEventsLogged(events: seq<Item>, failed: bool)
    ensures LogsAll(Lines(events, failed), Kept(events, failed), failed)
  {
    if events != [] {
      var last, rest := events[|events| - 1], events[..|events| - 1];
      CorrelatedEventsLogged(rest, failed);
      EventLogged(last, failed);
      if Keeps(last, failed) {
        LogsNext(Lines(rest, failed), LineFor(last, failed)[0], Kept(rest, failed), last, failed);
        assert LineFor(last, failed) == [LineFor(last, failed)[0]];
      }
    }
  }

  /** Nothing but a canonical id, taken from some event, is ever logged as a request id. */
  lemma {:induction false} LoggedIdsCanonical(events: seq<Item>, failed: bool, line: Line)
    requires line in Lines(events, failed)
    ensures line.OfEvent() && Canonical(line.requestId)
    ensures exists e <- events :: line.requestId == ForLog(e.requestId)
  {
    var last := events[|events| - 1];
    if line in LineFor(last, failed) {
      ForLogCanonical(last.requestId);
      assert last in events;
    } else {
      LoggedIdsCanonical(events[..|events| - 1], failed, line);
    }
  }

  /** One line about the batch itself, unless the worker was stopped meanwhile: a failure, or how
      many events were posted. An empty batch is silent. */
  function BatchLines(a: Attempt): seq<Line> {
    if a.stopped || (a.Success() && a.count <= 0) then []
    else if a.Success() then [BatchCompleted(a.count)]
    else [BatchFailed]
  }

  /** The line of one event. */
  lemma EventLine(e: Item, failed: bool)
    ensures ForLog(e.requestId) == "" ==> LineFor(e, failed) == []
    ensures ForLog(e.requestId) != "" && failed ==> LineFor(e, failed) == [Unconfirmed(ForLog(e.requestId))]
    ensures ForLog(e.requestId) != "" && !failed && e.outcome == "processed" ==>
              LineFor(e, failed) == [PostedLine(ForLog(e.requestId), e.generation)]
    ensures ForLog(e.requestId) != "" && !failed && e.outcome in {"retry_scheduled", "quarantined"} ==>
              LineFor(e, failed) == [FailedLine(ForLog(e.requestId), e.outcome, e.failures, e.generation)]
  {
  }

  lemma LaterLines(events: seq<Item>, failed: bool, i: nat)
    requires i < |events| - 1
    ensures Lines(events[i + 1..], failed) == Lines(events[..|events| - 1][i + 1..], failed) + LineFor(events[|events| - 1], failed)
  {
    var later := events[i + 1..];
    assert later[..|later| - 1] == events[..|events| - 1][i + 1..] && later[|later| - 1] == events[|events| - 1];
  }

  lemma LinesLast(events: seq<Item>, failed: bool)
    requires events != []
    ensures Lines(events, failed) == Lines(events[..|events| - 1], failed) + LineFor(events[|events| - 1], failed)
  {
  }

  lemma InsertLater(before: seq<Line>, middle: seq<Line>, after: seq<Line>, last: seq<Line>)
    ensures before + middle + after + last == before + middle + (after + last)
  {
  }

  /** Every event has its place among the lines, however many others there are. */
  lemma {:induction false} EventHasLine(events: seq<Item>, failed: bool, i: nat)
    requires i < |events|
    ensures Lines(events, failed) == Lines(events[..i], failed) + LineFor(events[i], failed) + Lines(events[i + 1..], failed)
    decreases |events|
  {
    LinesLast(events, failed);
    if i == |events| - 1 {
      assert events[i + 1..] == [] && Lines([], failed) == [];
    } else {
      var last, rest := events[|events| - 1], events[..|events| - 1];
      EventHasLine(rest, failed, i);
      assert rest[..i] == events[..i] && rest[i] == events[i];
      LaterLines(events, failed, i);
      InsertLater(Lines(events[..i], failed), LineFor(events[i], failed), Lines(rest[i + 1..], failed), LineFor(last, failed));
    }
  }

  lemma AllLinesUpTo(a: seq<Attempt>, i: nat)
    requires i < |a|
    ensures AllLines(a[..i + 1]) == AllLines(a[..i]) + Lines(a[i].events, a[i].err.Some?) + BatchLines(a[i])
  {
    assert a[..i + 1][..i] == a[..i];
  }

  lemma BatchLine(a: Attempt)
    ensures a.stopped ==> BatchLines(a) == []
    ensures !a.stopped && a.err != None ==> BatchLines(a) == [BatchFailed]
    ensures !a.stopped && a.err == None && a.count > 0 ==> BatchLines(a) == [BatchCompleted(a.count)]
    ensures !a.stopped && a.err == None && a.count <= 0 ==> BatchLines(a) == []
  {
  }

  /** What attempt `i` adds to the log after the lines of its events: nothing if the worker was stopped,
      a failure after an error, the count after a success that posted something, nothing otherwise. */
  lemma BatchLineAfter(a: seq<Attempt>, i: nat)
    requires i < |a|
    ensures var added := if a[i].stopped then [] else if a[i].err != None then [BatchFailed]
                         else if a[i].count > 0 then [BatchCompleted(a[i].count)] else [];
            AllLines(a[..i + 1]) == AllLines(a[..i]) + Lines(a[i].events, a[i].err != None) + added
  {
    AllLinesUpTo(a, i);
    BatchLine(a[i]);
  }

  /** The lines of all attempts, in order. */
  function AllLines(a: seq<Attempt>): seq<Line> {
    if a == [] then []
    else AllLines(a[..|a| - 1]) + Lines(a[|a| - 1].events, a[|a| - 1].err.Some?) + BatchLines(a[|a| - 1])
  }

  // ------------------------------------------------------------- the worker

  datatype RunError = InvalidConfiguration | AlreadyRunning

  class Worker {
    const hasProcessor: bool
    const hasLogger: bool
    const interval: Duration
    const batch: int
    var stats: Stats
    var log: seq<Line>

    constructor (hasProcessor: bool, interval: Duration, batch: int, hasLogger: bool)
      ensures this.hasProcessor == hasProcessor && this.hasLogger == hasLogger
      ensures this.interval == interval && this.batch == batch
      ensures stats == Stats(false, false, 0, 0, 0, 0) && log == []
    {
      this.hasProcessor, this.hasLogger, this.interval, this.batch := hasProcessor, hasLogger, interval, batch;
      stats, log := Stats(false, false, 0, 0, 0, 0), [];
    }

    method Snapshot() returns (s: Stats)
      ensures s == stats
    {
      s := stats;
    }

    method Start() returns (ok: bool)
      modifies this`stats
      ensures ok == !old(stats).running
      ensures stats == old(stats).(running := true)
    {
      if stats.running {
        return false;
      }
      stats := stats.(running := true);
      return true;
    }

    method Stop()
      modifies this`stats
      ensures stats == old(stats).(running := false, inFlight := false)
    {
      stats := stats.(running := false, inFlight := false);
    }

    method BeginAttempt()
      modifies this`stats
      ensures stats == old(stats).(inFlight := true)
    {
      stats := stats.(inFlight := true);
    }

    method FinishAttempt(a: Attempt)
      modifies this`stats
      ensures CountsOnce(old(stats), stats, a)
      ensures var s := old(stats).(inFlight := false, attempts := (old(stats).attempts + 1) % 18446744073709551616);
              stats ==
              if a.err == None && a.count > 0 then s.(processed := (s.processed + a.count) % 18446744073709551616)
              else if a.err == None then s
              else if a.err == Some(Other) && !a.contextErr then s.(errors := (s.errors + 1) % 18446744073709551616)
              else s.(cancellations := (s.cancellations + 1) % 18446744073709551616)
    {
      stats := stats.(inFlight := false);
      stats := stats.(attempts := Wrap(stats.attempts + 1));
      if a.err.Some? {
        if a.contextErr || a.err == Some(Canceled) || a.err == Some(DeadlineExceeded) {
          stats := stats.(cancellations := Wrap(stats.cancellations + 1));
        } else {
          stats := stats.(errors := Wrap(stats.errors + 1));
        }
        return;
      }
      if a.count > 0 {
        stats := stats.(processed := Wrap(stats.processed + a.count));
      }
    }

    method LogEvent(event: Item, failed: bool)
      modifies this`log
      ensures log == old(log) + LineFor(event, failed)
    {
      var id := ForLog(event.requestId);
      if id == "" {
        return;
      }
      if failed {
        log := log + [Unconfirmed(id)];
        return;
      }
      match event.outcome {
        case "processed" =>
          log := log + [PostedLine(id, event.generation)];
        case _ =>
          if event.outcome == "retry_scheduled" || event.outcome == "quarantined" {
            log := log + [FailedLine(id, event.outcome, event.failures, event.generation)];
          }
      }
    }

    /** Logs each event of one attempt. */
    method ProcessBatch(a: Attempt)
      modifies this`log
      ensures log == old(log) + Lines(a.events, a.err.Some?)
    {
      for i := 0 to |a.events|
        invariant log == old(log) + Lines(a.events[..i], a.err.Some?)
      {
        LinesNext(old(log), a.events, a.err.Some?, i);
        LogEvent(a.events[i], a.err.Some?);
      }
      assert a.events[..|a.events|] == a.events;
    }

    /** One attempt between two waits of the timer; `next` is the delay to the following one. */
    method MakeAttempt(a: Attempt, delay: Duration, ghost start: Stats, ghost made: seq<Attempt>, ghost lines: seq<Line>)
      returns (next: Duration)
      requires interval > 0 && delay as int == Backoff(interval, Streak(made))
      requires Shows(stats, start, made) && log == lines + AllLines(made)
      modifies this
      ensures Shows(stats, start, made + [a]) && log == lines + AllLines(made + [a])
      ensures !a.stopped ==> next as int == Backoff(interval, Streak(made + [a]))
    {
      AllLinesNext(lines, made, a);
      BeginAttempt();
      ProcessBatch(a);
      ghost var during := stats;
      FinishAttempt(a);
      ShowsNext(during, start, made, a, stats);
      if a.stopped {
        return delay;
      }
      next := NextDelay(delay, a, made);
    }

    /** The warning or the completion line of a batch, and the delay after it. */
    method NextDelay(delay: Duration, attempt: Attempt, ghost made: seq<Attempt>) returns (next: Duration)
      requires interval > 0 && delay as int == Backoff(interval, Streak(made)) && !attempt.stopped
      modifies this`log
      ensures next as int == Backoff(interval, Streak(made + [attempt]))
      ensures log == old(log) + BatchLines(attempt)
    {
      BackoffClosedForm(interval, Streak(made));
      DelayNext(interval, made, delay, attempt);
      var maxDelay := Cap(interval);
      if attempt.err.Some? {
        log := log + [BatchFailed];
        if delay >= maxDelay / 2 {
          next := maxDelay;
        } else {
          next := delay * 2;
        }
      } else {
        next := interval;
        if attempt.count > 0 {
          log := log + [BatchCompleted(attempt.count)];
        }
      }
    }

    /** The select loop; `delays` are the successive timer settings. */
    method Poll(script: seq<Tick>, ghost start: Stats) returns (delays: seq<Duration>)
      requires interval > 0 && Shows(stats, start, [])
      modifies this
      ensures Shows(stats, start, Made(script)) && log == old(log) + AllLines(Made(script))
      ensures |delays| <= |Made(script)| && Spaced(interval, Made(script), delays)
      ensures |Made(script)| == |delays| + if LastStopped(Made(script)) then 1 else 0
    {
      delays := [];
      var delay := interval;
      var i := 0;
      ghost var made: seq<Attempt> := [];
      BackoffClosedForm(interval, 0);
      while i < |script|
        invariant 0 <= i <= |script| && |made| == |delays| == i
        invariant Reached(script, i, made)
        invariant Shows(stats, start, made) && log == old(log) + AllLines(made)
        invariant delay as int == Backoff(interval, Streak(made))
        invariant Spaced(interval, made, delays) && !LastStopped(made)
      {
        if script[i].Done? {
          ReachedEnd(script, i, made);
          return;
        }
        if script[i].late {
          ReachedEnd(script, i, made);
          return;
        }
        var attempt := script[i].attempt;
        ReachedNext(script, i, made);
        SpacedPrefix(interval, made, delays, attempt);
        delay := MakeAttempt(attempt, delay, start, made, old(log));
        if attempt.stopped {
          return;
        }
        made := made + [attempt];
        SpacedNext(interval, made, delays, delay);
        delays := delays + [delay];
        i := i + 1;
      }
      ReachedEnd(script, i, made);
    }

    /** Polls until the context ends, unless misconfigured or already running. */
    method Run(script: seq<Tick>) returns (err: Option<RunError>, delays: seq<Duration>)
      modifies this
      ensures var valid := hasProcessor && hasLogger && interval > 0 && 1 <= batch <= 1000;
              && (err == Some(InvalidConfiguration) <==> !valid)
              && (err == Some(AlreadyRunning) <==> valid && old(stats).running)
      ensures err.Some? ==> stats == old(stats) && log == old(log) && delays == []
      ensures err.None? ==>
                && stats == Tally(old(stats), Made(script)).(running := false, inFlight := false)
                && log == old(log) + AllLines(Made(script))
                && |delays| <= |Made(script)| && Spaced(interval, Made(script), delays)
                && |Made(script)| == |delays| + if LastStopped(Made(script)) then 1 else 0
    {
      if !hasProcessor || !hasLogger || interval <= 0 || batch < 1 || batch > 1000 {
        return Some(InvalidConfiguration), [];
      }
      var ok := Start();
      if !ok {
        return Some(AlreadyRunning), [];
      }
      ShowsStart(old(stats));
      delays := Poll(script, stats);
      ShowsStop(stats, old(stats), Made(script));
      Stop();
      err := None;
    }
  }
}
