/** The billing service: validation, exact pricing, and replay under a changed rate. */
module Billing {
  import opened Options
  import opened Identifiers
  import opened Tables
  import opened Atomic
  import opened RequestIds
  import opened Store

  type Rate = x: int | 0 < x <= MAX_INT64 witness 1

  /** Inputs the service accepts for pricing, whatever the rate. */
  predicate WellFormed(input: Input) {
    ValidId(input.eventId) && ValidId(input.customerId) && input.meter == "api_calls" && input.units > 0
  }

  /** The true product, as a mathematical integer. */
  function Product(input: Input, rate: Rate): int { input.units * rate }

  predicate Overflows(units: int, rate: Rate) { units > MAX_INT64 / rate }

  /** The division guard rejects exactly the products that do not fit in 64 bits. */
  lemma GuardIsExact(units: int, rate: Rate)
    ensures Overflows(units, rate) <==> units * rate > 9223372036854775807
  {
    var q, m := MAX_INT64 / rate, MAX_INT64 % rate;
    assert MAX_INT64 == q * rate + m;
    if units > q {
      Scales(q + 1, units, rate);
    } else {
      Scales(units, q, rate);
    }
  }

  lemma Scales(a: int, b: int, rate: Rate)
    requires a <= b
    ensures a * rate <= b * rate
  {
  }

  function Price(input: Input, rate: Rate, requestId: string): Priced {
    Priced(input, rate, Product(input, rate), "USD", requestId)
  }

  /** What an answer of the service means, for either branch of the overflow guard. */
  ghost predicate Answers(
    before: DB, after: DB, input: Input, rate: Rate, requestId: string, limit: nat, reliable: bool, r: Result<(Event, bool)>)
  {
    var id := input.eventId;
    match r
    case Ok((event, created)) =>
      && event.usage.priced.input == input
      && EventShows(after, id, event)
      && (if created then
            Product(input, rate) <= MAX_INT64 && Admitted(before, after, Price(input, rate, requestId), limit)
          else after == before)
    case Err(Invalid) =>
      after == before && (!WellFormed(input) || (id !in before.usage && Product(input, rate) > MAX_INT64))
    case Err(Conflict) => after == before && id in before.usage && before.usage[id].priced.input != input
    case Err(QueueFull) =>
      after == before && id !in before.usage && Product(input, rate) <= MAX_INT64 && |before.pending| >= limit
    case Err(Unavailable) =>
      !reliable && (after == before || Admitted(before, after, Price(input, rate, requestId), limit))
    case Err(_) => false
  }

  lemma PriceIsValid(input: Input, rate: Rate, ctx: Context, raw: seq<Byte>)
    requires WellFormed(input) && Product(input, rate) <= MAX_INT64 && Built(ctx) && |raw| == 16
    ensures ValidPriced(Price(input, rate, StoredRequestId(ctx, raw)))
  {
    StoredIdsReachTheLog(ctx, raw);
    Scales(1, input.units, rate);
    Scales(1, rate, input.units);
  }

  lemma CreatedStoresId(before: DB, after: DB, input: Input, rate: Rate, ctx: Context, raw: seq<Byte>,
                        limit: nat, reliable: bool, r: Result<(Event, bool)>)
    requires |raw| == 16 && r.Ok? && r.value.1
    requires Answers(before, after, input, rate, StoredRequestId(ctx, raw), limit, reliable, r)
    ensures StoresId(ctx, raw, r.value.0.usage.priced.requestId)
  {
    StoredIdIsAttached(ctx, raw);
  }

  class Service {
    const repo: Store
    const rate: Rate

    constructor (repo: Store, rate: Rate)
      ensures this.repo == repo && this.rate == rate
    {
      this.repo, this.rate := repo, rate;
    }

    method Accept(input: Input, ctx: Context, raw: seq<Byte>) returns (r: Result<(Event, bool)>)
      requires Consistent(repo.base.db) && Built(ctx) && |raw| == 16
      modifies repo.base
      ensures Consistent(repo.base.db)
      ensures Answers(old(repo.base.db), repo.base.db, input, rate, StoredRequestId(ctx, raw),
                      repo.maxPending, repo.base.reliable, r)
      ensures r.Ok? && r.value.1 ==> StoresId(ctx, raw, r.value.0.usage.priced.requestId)
    {
      var ok := ValidateID(input.eventId);
      if !ok {
        return Err(Invalid);
      }
      ok := ValidateID(input.customerId);
      if !ok {
        return Err(Invalid);
      }
      if input.meter != "api_calls" || input.units <= 0 {
        return Err(Invalid);
      }
      GuardIsExact(input.units, rate);
      if input.units > MAX_INT64 / rate {
        r := Replay(input);
        return;
      }
      ghost var before := repo.base.db;
      r := AcceptPriced(input, ctx, raw);
      if r.Ok? && r.value.1 {
        CreatedStoresId(before, repo.base.db, input, rate, ctx, raw, repo.maxPending, repo.base.reliable, r);
      }
    }

    /** Admission at the current rate, under the request's id or a new one. */
    method AcceptPriced(input: Input, ctx: Context, raw: seq<Byte>) returns (r: Result<(Event, bool)>)
      requires Consistent(repo.base.db) && Built(ctx) && |raw| == 16
      requires WellFormed(input) && Product(input, rate) <= MAX_INT64
      modifies repo.base
      ensures Consistent(repo.base.db)
      ensures Answers(old(repo.base.db), repo.base.db, input, rate, StoredRequestId(ctx, raw),
                      repo.maxPending, repo.base.reliable, r)
    {
      var id := FromContext(ctx);
      if id == "" {
        id := RequestIds.New(raw);
      }
      PriceIsValid(input, rate, ctx, raw);
      r := repo.Accept(Price(input, rate, id));
    }

    /** The lookup that replaces admission when the current rate would overflow. */
    method Replay(input: Input) returns (r: Result<(Event, bool)>)
      requires UsageValid(repo.base.db)
      modifies repo.base`clock
      ensures match r
              case Ok((event, created)) =>
                event.usage.priced.input == input && !created && EventShows(repo.base.db, input.eventId, event)
              case Err(Invalid) => input.eventId !in repo.base.db.usage
              case Err(Conflict) =>
                input.eventId in repo.base.db.usage && repo.base.db.usage[input.eventId].priced.input != input
              case Err(error) => error == Unavailable && !repo.base.reliable
    {
      var existing := repo.Get(input.eventId);
      if existing == Err(NotFound) {
        return Err(Invalid);
      }
      if existing.Err? {
        return Err(Unavailable);
      }
      if existing.value.usage.priced.input != input {
        return Err(Conflict);
      }
      return Ok((existing.value, false));
    }

    method Retry(id: Id, generation: int) returns (r: Result<(Event, bool)>)
      requires Consistent(repo.base.db)
      modifies repo.base
      ensures Consistent(repo.base.db)
      ensures RetryAnswer(old(repo.base.db), repo.base.db, id, generation, repo.base.reliable, r)
    {
      var ok := ValidateID(id);
      if !ok || generation < 0 || generation == MAX_INT64 {
        return Err(Invalid);
      }
      r := repo.Retry(id, generation);
    }
  }

  method New(repo: Store?, rate: int) returns (s: Service?)
    requires rate <= MAX_INT64
    ensures s == null <==> repo == null || rate <= 0
    ensures s != null ==> s.repo == repo && s.rate == rate
  {
    if repo == null || rate <= 0 {
      return null;
    }
    s := new Service(repo, rate);
  }

  // ------------------------------------------------------------ frozen prices

  /** Nothing changes, and the answer is the original row or, unreliably, none at all. */
  ghost predicate Replayed(before: DB, after: DB, row: Usage, reliable: bool, r: Result<(Event, bool)>) {
    && after == before
    && match r
       case Ok((event, created)) => event.usage == row && !created
       case Err(error) => error == Unavailable && !reliable
  }

  /** Once accepted, an input replays to its original row: after any later commits of any services
      and workers, under any rate on either side of the guard, and at any queue limit. */
  lemma PriceFrozen(states: seq<DB>, log: seq<Commit>, i: nat, j: nat, input: Input,
                    rate: Rate, requestId: string, limit: nat, reliable: bool, after: DB, r: Result<(Event, bool)>)
    requires Behaves(states, log) && Consistent(states[0]) && i <= j < |states|
    requires input.eventId in states[i].usage && states[i].usage[input.eventId].priced.input == input
    requires Answers(states[j], after, input, rate, requestId, limit, reliable, r)
    ensures Replayed(states[j], after, states[i].usage[input.eventId], reliable, r)
  {
    RunConsistent(states, log, i);
    RunExtends(states, log, i, j);
    assert WellFormed(input);
  }

  /** A changed input under an accepted id is a conflict, whatever the rate. */
  lemma ChangedInputConflicts(db: DB, after: DB, input: Input, rate: Rate, requestId: string, limit: nat, r: Result<(Event, bool)>)
    requires Consistent(db) && WellFormed(input)
    requires input.eventId in db.usage && db.usage[input.eventId].priced.input != input
    requires Answers(db, after, input, rate, requestId, limit, true, r)
    ensures r == Err(Conflict) && after == db
  {
  }

  /** A new, well-formed input is refused as invalid exactly when its true product is too large;
      otherwise it is created at the exact price unless the queue is full. */
  lemma NewInputDecided(db: DB, after: DB, input: Input, rate: Rate, requestId: string, limit: nat, r: Result<(Event, bool)>)
    requires WellFormed(input) && input.eventId !in db.usage
    requires Answers(db, after, input, rate, requestId, limit, true, r)
    ensures r == Err(Invalid) <==> input.units * rate > 9223372036854775807
    ensures r == Err(QueueFull) <==> input.units * rate <= 9223372036854775807 && |db.pending| >= limit
    ensures r.Ok? ==> r.value.1 && r.value.0.usage.priced == Priced(input, rate, input.units * rate, "USD", requestId)
    ensures r.Ok? ==> input.eventId in after.pending && after.pending[input.eventId].failures == 0
  {
  }
}
