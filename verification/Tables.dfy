/** The three tables, their CHECK constraints and keys, and the order of the claim query. */
module Tables {
  import opened Options
  import opened Identifiers
  import RequestIds

  const MAX_INT64 := 0x7FFF_FFFF_FFFF_FFFF

  /** Failures at which a row is quarantined. */
  const QUARANTINE := 3

  const INTEGRITY_CODES: set<string> := {"23502", "23503", "23505", "23514", "23P01"}

  datatype Input = Input(eventId: Id, customerId: string, meter: string, units: int)

  /** An input with its price, as handed to the store. */
  datatype Priced = Priced(input: Input, price: int, amount: int, currency: string, requestId: string)

  datatype Usage = Usage(priced: Priced, createdAt: nat)

  datatype PendingRow = PendingRow(failures: int, code: string, generation: int, enqueuedAt: nat)

  datatype DB = DB(usage: map<Id, Usage>, pending: map<Id, PendingRow>, ledger: set<Id>)

  /** A row of `readEvent`: the frozen usage joined with its ledger mark and queue state. */
  datatype Event = Event(usage: Usage, processed: bool, failures: int, code: string, generation: int) {
    predicate Failed() { failures == QUARANTINE }
  }

  /** CHECK constraints of `usage_events`, including the column widths. */
  predicate ValidPriced(e: Priced) {
    && ValidId(e.input.eventId)
    && ValidId(e.input.customerId)
    && e.input.meter == "api_calls"
    && 0 < e.input.units <= MAX_INT64
    && 0 < e.price <= MAX_INT64
    && 0 < e.amount <= MAX_INT64
    && e.amount == e.input.units * e.price
    && e.currency == "USD"
    && (e.requestId == "" || RequestIds.Canonical(e.requestId))
  }

  /** CHECK constraints of `pending_events` after the second migration. */
  predicate ValidPending(r: PendingRow) {
    && 0 <= r.failures <= QUARANTINE
    && (r.code == "" || r.code in INTEGRITY_CODES)
    && 0 <= r.generation <= MAX_INT64
    && (r.failures == 0 <==> r.code == "")
  }

  /** Every accepted event is either queued or posted, never both. */
  ghost predicate Partition(db: DB) {
    db.usage.Keys == db.pending.Keys + db.ledger && db.pending.Keys !! db.ledger
  }

  ghost predicate UsageValid(db: DB) {
    forall id <- db.usage :: ValidPriced(db.usage[id].priced) && db.usage[id].priced.input.eventId == id
  }

  ghost predicate AllValid(p: map<Id, PendingRow>) {
    forall id <- p :: ValidPending(p[id])
  }

  ghost predicate QueueValid(db: DB) { AllValid(db.pending) }

  ghost predicate Consistent(db: DB) {
    Partition(db) && UsageValid(db) && QueueValid(db)
  }

  function Fresh(now: nat): PendingRow { PendingRow(0, "", 0, now) }

  function Bump(r: PendingRow, code: string): PendingRow {
    r.(failures := r.failures + 1, code := code)
  }

  function Eligible(p: map<Id, PendingRow>): set<Id> {
    set id | id in p && p[id].failures < QUARANTINE
  }

  /** `readEvent`: None is ErrNotFound. */
  function ReadEvent(db: DB, id: Id): Option<Event> {
    if id !in db.usage then None
    else if id in db.pending then
      var r := db.pending[id];
      Some(Event(db.usage[id], id in db.ledger, r.failures, r.code, r.generation))
    else Some(Event(db.usage[id], id in db.ledger, 0, "", 0))
  }

  /** The event shows the stored usage, the ledger mark, and the state of the queue row if there is
      one; `failed` stands for exactly three failures. */
  ghost predicate EventShows(db: DB, id: Id, e: Event) {
    && id in db.usage && e.usage == db.usage[id]
    && (e.processed <==> id in db.ledger)
    && (id in db.pending ==>
          && e.failures == db.pending[id].failures && e.code == db.pending[id].code
          && e.generation == db.pending[id].generation)
    && (id !in db.pending ==> e.failures == 0 && e.code == "" && e.generation == 0)
    && (e.Failed() <==> id in db.pending && db.pending[id].failures == 3)
  }

  /** Rows that a claim may take: fewer than three failures. */
  lemma EligibleRows(p: map<Id, PendingRow>, id: Id)
    ensures id in Eligible(p) <==> id in p && p[id].failures < 3
  {
  }

  /** The CHECK constraints of the three tables and their keys and references, in figures. */
  lemma ChecksMean(db: DB, id: Id)
    requires Consistent(db)
    ensures id in db.usage <==> id in db.pending || id in db.ledger
    ensures !(id in db.pending && id in db.ledger)
    ensures id in db.pending ==>
              && 0 <= db.pending[id].failures <= 3
              && db.pending[id].code in {"", "23502", "23503", "23505", "23514", "23P01"}
              && 0 <= db.pending[id].generation <= 9223372036854775807
              && (db.pending[id].failures == 0 <==> db.pending[id].code == "")
    ensures id in db.usage ==>
              var e := db.usage[id].priced;
              && e.input.eventId == id && 1 <= |id| <= 64 && 1 <= |e.input.customerId| <= 64
              && (forall c :: c in id || c in e.input.customerId ==>
                    'A' <= c <= 'Z' || 'a' <= c <= 'z' || '0' <= c <= '9' || c == '_' || c == '-')
              && e.input.meter == "api_calls" && e.currency == "USD"
              && 0 < e.input.units && 0 < e.price && 0 < e.amount <= 9223372036854775807
              && e.amount == e.input.units * e.price
              && (e.requestId == "" || (|e.requestId| == 32 && forall c <- e.requestId :: '0' <= c <= '9' || 'a' <= c <= 'f'))
  {
    if id in db.pending {
      assert ValidPending(db.pending[id]);
    }
    if id in db.usage {
      assert ValidPriced(db.usage[id].priced);
    }
  }

  /** `readEvent` finds exactly the accepted events, and returns the one event that shows them. */
  lemma ReadEventShows(db: DB, id: Id)
    ensures ReadEvent(db, id).Some? <==> id in db.usage
    ensures forall e :: ReadEvent(db, id) == Some(e) <==> EventShows(db, id, e)
  {
  }

  /** ORDER BY enqueued_at, event_id. */
  predicate Precedes(p: map<Id, PendingRow>, a: Id, b: Id)
    requires a in p && b in p
  {
    p[a].enqueuedAt < p[b].enqueuedAt || (p[a].enqueuedAt == p[b].enqueuedAt && Less(a, b))
  }

  lemma PrecedesTransitive(p: map<Id, PendingRow>, a: Id, b: Id, c: Id)
    requires a in p && b in p && c in p
    requires Precedes(p, a, b) && Precedes(p, b, c)
    ensures Precedes(p, a, c)
  {
    if p[a].enqueuedAt == p[b].enqueuedAt == p[c].enqueuedAt {
      LessTransitive(a, b, c);
    }
  }

  predicate IsFirst(p: map<Id, PendingRow>, s: set<Id>, m: Id)
    requires s <= p.Keys
  {
    m in s && forall x <- s :: x == m || Precedes(p, m, x)
  }

  lemma {:induction false} FirstExists(p: map<Id, PendingRow>, s: set<Id>)
    requires s <= p.Keys && s != {}
    ensures exists m :: IsFirst(p, s, m)
    decreases |s|
  {
    var x :| x in s;
    if s == {x} {
      assert IsFirst(p, s, x);
    } else {
      FirstExists(p, s - {x});
      var m :| IsFirst(p, s - {x}, m);
      LessTotal(m, x);
      if Precedes(p, m, x) {
        assert IsFirst(p, s, m);
      } else {
        forall y <- s ensures y == x || Precedes(p, x, y) {
          if y != x {
            assert y in s - {x};
            if y != m {
              PrecedesTransitive(p, x, m, y);
            }
          }
        }
        assert IsFirst(p, s, x);
      }
    }
  }

  lemma FirstUnique(p: map<Id, PendingRow>, s: set<Id>)
    requires s <= p.Keys
    ensures forall m, n :: IsFirst(p, s, m) && IsFirst(p, s, n) ==> m == n
  {
    forall m, n | IsFirst(p, s, m) && IsFirst(p, s, n) ensures m == n {
      LessTotal(m, n);
    }
  }

  function First(p: map<Id, PendingRow>, s: set<Id>): (m: Id)
    requires s <= p.Keys && s != {}
    ensures IsFirst(p, s, m)
  {
    FirstExists(p, s);
    FirstUnique(p, s);
    var m :| m in s && IsFirst(p, s, m);
    m
  }

  /** The claim query over the rows `s` that no other transaction has locked. */
  function Claim(p: map<Id, PendingRow>, s: set<Id>, limit: nat): (ids: seq<Id>)
    requires s <= p.Keys
    ensures |ids| <= limit
    ensures forall id <- ids :: id in s
  {
    if limit == 0 || s == {} then []
    else
      var m := First(p, s);
      [m] + Claim(p, s - {m}, limit - 1)
  }

  ghost predicate Distinct(ids: seq<Id>) {
    forall i, j :: 0 <= i < j < |ids| ==> ids[i] != ids[j]
  }

  function Members(ids: seq<Id>): set<Id> { set id | id in ids }

  lemma {:induction false} DistinctCard(ids: seq<Id>)
    requires Distinct(ids)
    ensures |Members(ids)| == |ids|
  {
    if ids != [] {
      DistinctCard(ids[1..]);
      assert Members(ids) == Members(ids[1..]) + {ids[0]};
    }
  }

  /** The claim is exactly the first `limit` unlocked rows, in queue order, without repetition. */
  lemma {:induction false} ClaimIsQueuePrefix(p: map<Id, PendingRow>, s: set<Id>, limit: nat)
    requires s <= p.Keys
    ensures var ids := Claim(p, s, limit);
            && Distinct(ids)
            && |ids| == (if |s| < limit then |s| else limit)
            && (forall i, j :: 0 <= i < j < |ids| ==> Precedes(p, ids[i], ids[j]))
            && (forall x, y :: x in ids && y in s && y !in ids ==> Precedes(p, x, y))
  {
    if limit > 0 && s != {} {
      var m := First(p, s);
      ClaimIsQueuePrefix(p, s - {m}, limit - 1);
      var rest := Claim(p, s - {m}, limit - 1);
      assert Claim(p, s, limit) == [m] + rest;
      assert m !in rest;
    }
  }
}
