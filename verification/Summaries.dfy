/** The customer summary: one joined statement over the three tables as stored rows. */
module Summaries {
  import opened Options
  import opened Identifiers
  import opened Tables
  import opened Atomic
  import Sums

  datatype LedgerRow = LedgerRow(event: Id, processedAt: nat)

  datatype QueueRow = QueueRow(event: Id, row: PendingRow)

  /** The stored rows of `ledger_entries` and `pending_events`. Nothing but the primary keys keeps
      an event from having several. */
  datatype Rows = Rows(ledger: set<LedgerRow>, queue: set<QueueRow>)

  ghost predicate Unique<R(!new)>(rows: set<R>, key: R -> Id) {
    forall a, b :: a in rows && b in rows && key(a) == key(b) ==> a == b
  }

  function LedgerKey(): LedgerRow -> Id { (r: LedgerRow) => r.event }

  function QueueKey(): QueueRow -> Id { (r: QueueRow) => r.event }

  ghost predicate PrimaryKeys(h: Rows) { Unique(h.ledger, LedgerKey()) && Unique(h.queue, QueueKey()) }

  /** The rows hold the tables `db`. */
  ghost predicate Stores(h: Rows, db: DB) {
    && PrimaryKeys(h)
    && (set r | r in h.ledger :: r.event) == db.ledger
    && (forall r <- h.queue :: r.event in db.pending && r.row == db.pending[r.event])
    && (forall id <- db.pending :: QueueRow(id, db.pending[id]) in h.queue)
  }

  /** One joined row: the event with its ledger and queue matches. */
  datatype Joined = Joined(event: Id, ledger: Option<LedgerRow>, pending: Option<QueueRow>)

  function Found<R>(rows: set<R>, key: R -> Id, id: Id): set<R> { set r | r in rows && key(r) == id }

  /** LEFT JOIN on event_id: all matches, or one empty row. */
  function LeftMatches<R>(rows: set<R>, key: R -> Id, id: Id): set<Option<R>> {
    if Found(rows, key, id) == {} then {None} else set r | r in Found(rows, key, id) :: Some(r)
  }

  function Customers(db: DB, customer: string): set<Id> {
    set id | id in db.usage && db.usage[id].priced.input.customerId == customer
  }

  function JoinRows(db: DB, h: Rows, customer: string): set<Joined> {
    set id, l, p | id in Customers(db, customer) && l in LeftMatches(h.ledger, LedgerKey(), id)
                   && p in LeftMatches(h.queue, QueueKey(), id) :: Joined(id, l, p)
  }

  function Units(db: DB, id: Id): int { if id in db.usage then db.usage[id].priced.input.units else 0 }

  function Amount(db: DB, id: Id): int { if id in db.usage then db.usage[id].priced.amount else 0 }

  /** Units times the price frozen at acceptance. */
  function Charge(db: DB, id: Id): int {
    if id in db.usage then db.usage[id].priced.input.units * db.usage[id].priced.price else 0
  }

  /** The totals are unbounded, as numeric sums printed in decimal. */
  datatype Summary = Summary(units: int, amount: int, pending: nat, processed: nat, failed: nat)

  predicate Active(j: Joined) { j.pending.Some? && j.pending.value.row.failures < QUARANTINE }

  predicate Stuck(j: Joined) { j.pending.Some? && j.pending.value.row.failures == QUARANTINE }

  function PostedRows(db: DB, h: Rows, customer: string): set<Joined> {
    set j | j in JoinRows(db, h, customer) && j.ledger.Some?
  }

  function ActiveRows(db: DB, h: Rows, customer: string): set<Joined> {
    set j | j in JoinRows(db, h, customer) && Active(j)
  }

  function StuckRows(db: DB, h: Rows, customer: string): set<Joined> {
    set j | j in JoinRows(db, h, customer) && Stuck(j)
  }

  ghost function Summarize(db: DB, h: Rows, customer: string): Summary {
    Summary(Sums.Sum(PostedRows(db, h, customer), (j: Joined) => Units(db, j.event)),
            Sums.Sum(PostedRows(db, h, customer), (j: Joined) => Amount(db, j.event)),
            |ActiveRows(db, h, customer)|,
            |PostedRows(db, h, customer)|,
            |StuckRows(db, h, customer)|)
  }

  // ------------------------------------------------------------- no fan-out

  /** The only match under a primary key. */
  ghost function Match<R>(rows: set<R>, key: R -> Id, id: Id): Option<R> {
    if Found(rows, key, id) == {} then None
    else
      var r :| r in Found(rows, key, id);
      Some(r)
  }

  lemma MatchOnce<R(!new)>(rows: set<R>, key: R -> Id, id: Id)
    requires Unique(rows, key)
    ensures LeftMatches(rows, key, id) == {Match(rows, key, id)}
  {
    if Found(rows, key, id) != {} {
      var r := Match(rows, key, id).value;
      forall o <- LeftMatches(rows, key, id) ensures o == Some(r) {
        assert o.value in rows && key(o.value) == key(r);
      }
      assert Some(r) in LeftMatches(rows, key, id);
    }
  }

  /** The only joined row of an event. */
  ghost function RowOf(h: Rows, id: Id): Joined {
    Joined(id, Match(h.ledger, LedgerKey(), id), Match(h.queue, QueueKey(), id))
  }

  lemma JoinedRow(db: DB, h: Rows, customer: string, j: Joined)
    requires PrimaryKeys(h)
    ensures j in JoinRows(db, h, customer) <==> j.event in Customers(db, customer) && j == RowOf(h, j.event)
  {
    MatchOnce(h.ledger, LedgerKey(), j.event);
    MatchOnce(h.queue, QueueKey(), j.event);
  }

  /** The primary keys exclude join fan-out: the joined rows are one per event of the customer. */
  lemma JoinIsOneToOne(db: DB, h: Rows, customer: string)
    requires PrimaryKeys(h)
    ensures JoinRows(db, h, customer) == set id | id in Customers(db, customer) :: RowOf(h, id)
    ensures |JoinRows(db, h, customer)| == |Customers(db, customer)|
  {
    var image := set id | id in Customers(db, customer) :: RowOf(h, id);
    forall j ensures j in JoinRows(db, h, customer) <==> j in image {
      JoinedRow(db, h, customer, j);
    }
    Sums.SumImage(Customers(db, customer), id => RowOf(h, id), (j: Joined) => 0, image);
  }

  lemma {:induction false} CoverCard(rows: set<Joined>, events: set<Id>)
    requires forall id <- events :: exists j <- rows :: j.event == id
    ensures |events| <= |rows|
    decreases |events|
  {
    if events != {} {
      var id :| id in events;
      var j :| j in rows && j.event == id;
      forall other <- events - {id} ensures exists k <- rows - {j} :: k.event == other {
        var k :| k in rows && k.event == other;
        assert k in rows - {j};
      }
      CoverCard(rows - {j}, events - {id});
    }
  }

  lemma SomeMatch<R>(rows: set<R>, key: R -> Id, id: Id) returns (m: Option<R>)
    ensures m in LeftMatches(rows, key, id)
  {
    m := None;
    if Found(rows, key, id) != {} {
      var r :| r in Found(rows, key, id);
      m := Some(r);
    }
  }

  /** Without the key of the ledger the join does fan out. */
  lemma DuplicateFansOut(db: DB, h: Rows, customer: string, a: LedgerRow, b: LedgerRow)
    requires a in h.ledger && b in h.ledger && a != b && a.event == b.event && b.event in Customers(db, customer)
    ensures |JoinRows(db, h, customer)| > |Customers(db, customer)|
  {
    var p := SomeMatch(h.queue, QueueKey(), a.event);
    var extra := Joined(b.event, Some(b), p);
    assert a in Found(h.ledger, LedgerKey(), a.event) && b in Found(h.ledger, LedgerKey(), a.event);
    assert extra in JoinRows(db, h, customer);
    var rest := JoinRows(db, h, customer) - {extra};
    forall id <- Customers(db, customer) ensures exists j <- rest :: j.event == id {
      var q := SomeMatch(h.queue, QueueKey(), id);
      var l := SomeMatch(h.ledger, LedgerKey(), id);
      if id == a.event {
        l := Some(a);
      }
      assert Joined(id, l, q) in rest;
    }
    CoverCard(rest, Customers(db, customer));
  }

  /** All tables can be stored. */
  lemma StoredSomehow(db: DB) returns (h: Rows)
    ensures Stores(h, db)
  {
    h := Rows(set id | id in db.ledger :: LedgerRow(id, 0), set id | id in db.pending :: QueueRow(id, db.pending[id]));
    assert (set r | r in h.ledger :: r.event) == db.ledger by {
      forall id <- db.ledger ensures id in set r | r in h.ledger :: r.event {
        assert LedgerRow(id, 0) in h.ledger;
      }
    }
  }

  // ---------------------------------------------------------------- totals

  function PostedOf(db: DB, customer: string): set<Id> { Customers(db, customer) * db.ledger }

  /** Under `Stores`, matches are membership in the tables. */
  lemma StoredMatch(db: DB, h: Rows, id: Id)
    requires Stores(h, db)
    ensures Match(h.ledger, LedgerKey(), id).Some? <==> id in db.ledger
    ensures Match(h.queue, QueueKey(), id).Some? <==> id in db.pending
    ensures id in db.pending ==> Match(h.queue, QueueKey(), id).value.row == db.pending[id]
  {
    if id in db.ledger {
      var r :| r in h.ledger && r.event == id;
      assert r in Found(h.ledger, LedgerKey(), id);
    }
    if id in db.pending {
      assert QueueRow(id, db.pending[id]) in Found(h.queue, QueueKey(), id);
    }
  }

  /** Filtered joined rows are the image of the filtered events. */
  lemma PostedImage(db: DB, h: Rows, customer: string)
    requires Stores(h, db)
    ensures PostedRows(db, h, customer) == set id | id in PostedOf(db, customer) :: RowOf(h, id)
  {
    JoinIsOneToOne(db, h, customer);
    forall id <- Customers(db, customer) ensures RowOf(h, id).ledger.Some? <==> id in db.ledger {
      StoredMatch(db, h, id);
    }
  }

  /** Summing over joined rows is summing over their events. */
  lemma {:induction false} ImageSum(posted: set<Id>, row: Id -> Joined, rows: set<Joined>, f: Joined -> int, g: Id -> int)
    requires forall j <- rows :: j.event in posted && j == row(j.event)
    requires forall id <- posted :: row(id) in rows && row(id).event == id && f(row(id)) == g(id)
    ensures Sums.Sum(rows, f) == Sums.Sum(posted, g) && |rows| == |posted|
    decreases |posted|
  {
    if posted == {} {
      assert rows == {};
    } else {
      var x :| x in posted;
      Sums.SumRemove(posted, g, x);
      Sums.SumRemove(rows, f, row(x));
      ImageSum(posted - {x}, row, rows - {row(x)}, f, g);
    }
  }

  lemma PostedSum(db: DB, h: Rows, customer: string, f: Joined -> int, g: Id -> int)
    requires Stores(h, db) && forall id <- PostedOf(db, customer) :: f(RowOf(h, id)) == g(id)
    ensures Sums.Sum(PostedRows(db, h, customer), f) == Sums.Sum(PostedOf(db, customer), g)
    ensures |PostedRows(db, h, customer)| == |PostedOf(db, customer)|
  {
    PostedImage(db, h, customer);
    ImageSum(PostedOf(db, customer), id => RowOf(h, id), PostedRows(db, h, customer), f, g);
  }

  lemma AmountIsCharge(db: DB, id: Id)
    requires UsageValid(db)
    ensures Amount(db, id) == Charge(db, id)
  {
  }

  /** The totals are sums over the customer's posted events, each exactly once. */
  lemma TotalsOverPosted(db: DB, h: Rows, customer: string)
    requires UsageValid(db) && Stores(h, db)
    ensures var s := Summarize(db, h, customer); var posted := PostedOf(db, customer);
            && s.processed == |posted|
            && s.units == Sums.Sum(posted, id => Units(db, id))
            && s.amount == Sums.Sum(posted, id => Charge(db, id))
  {
    forall id <- PostedOf(db, customer) ensures Amount(db, id) == Charge(db, id) {
      AmountIsCharge(db, id);
    }
    PostedSum(db, h, customer, (j: Joined) => Amount(db, j.event), id => Charge(db, id));
    PostedSum(db, h, customer, (j: Joined) => Units(db, j.event), id => Units(db, id));
  }

  lemma RowsClassified(db: DB, h: Rows, j: Joined, customer: string)
    requires Partition(db) && QueueValid(db) && Stores(h, db) && j in JoinRows(db, h, customer)
    ensures j.ledger.Some? || Active(j) || Stuck(j)
    ensures j.ledger.Some? ==> !Active(j) && !Stuck(j)
    ensures !(Active(j) && Stuck(j))
  {
    JoinIsOneToOne(db, h, customer);
    StoredMatch(db, h, j.event);
    if j.event in db.pending {
      assert ValidPending(db.pending[j.event]);
    }
  }

  lemma CountsPartition(db: DB, h: Rows, customer: string)
    requires Partition(db) && QueueValid(db) && Stores(h, db)
    ensures var s := Summarize(db, h, customer); s.pending + s.failed + s.processed == |JoinRows(db, h, customer)|
  {
    var posted, active, stuck := PostedRows(db, h, customer), ActiveRows(db, h, customer), StuckRows(db, h, customer);
    forall j <- JoinRows(db, h, customer) ensures j in posted || j in active || j in stuck
                                       ensures !(j in posted && (j in active || j in stuck)) {
      RowsClassified(db, h, j, customer);
    }
    assert JoinRows(db, h, customer) == posted + active + stuck;
    assert posted !! active && (posted + active) !! stuck;
  }

  /** The customer's queued events with fewer than three failures, and with three. */
  function WaitingOf(db: DB, customer: string): set<Id> {
    set id | id in Customers(db, customer) && id in db.pending && db.pending[id].failures < 3
  }

  function FailedOf(db: DB, customer: string): set<Id> {
    set id | id in Customers(db, customer) && id in db.pending && db.pending[id].failures == 3
  }

  lemma QueueRowsCounted(db: DB, h: Rows, customer: string)
    requires Stores(h, db)
    ensures |ActiveRows(db, h, customer)| == |WaitingOf(db, customer)|
    ensures |StuckRows(db, h, customer)| == |FailedOf(db, customer)|
  {
    JoinIsOneToOne(db, h, customer);
    forall id <- Customers(db, customer)
      ensures RowOf(h, id).pending.Some? <==> id in db.pending
      ensures id in db.pending ==> RowOf(h, id).pending.value.row == db.pending[id]
    {
      StoredMatch(db, h, id);
    }
    ImageSum(WaitingOf(db, customer), id => RowOf(h, id), ActiveRows(db, h, customer), j => 0, id => 0);
    ImageSum(FailedOf(db, customer), id => RowOf(h, id), StuckRows(db, h, customer), j => 0, id => 0);
  }

  lemma TotalsInFigures(db: DB, h: Rows, customer: string)
    requires UsageValid(db) && Stores(h, db)
    ensures var s := Summarize(db, h, customer); var posted := PostedOf(db, customer);
            && s.units == Sums.Sum(posted, id => if id in db.usage then db.usage[id].priced.input.units else 0)
            && s.amount == Sums.Sum(posted, id =>
                 if id in db.usage then db.usage[id].priced.input.units * db.usage[id].priced.price else 0)
  {
    TotalsOverPosted(db, h, customer);
    var posted := PostedOf(db, customer);
    Sums.SumEqual(posted, id => Units(db, id), id => if id in db.usage then db.usage[id].priced.input.units else 0);
    Sums.SumEqual(posted, id => Charge(db, id), id =>
      if id in db.usage then db.usage[id].priced.input.units * db.usage[id].priced.price else 0);
  }

  /** Conservation: every accepted event of a customer is counted once. Pending are its queued events
      with fewer than three failures, failed those with three, processed those in the ledger; units and
      amount are the sums over the latter, the amount at the frozen price. */
  lemma SummaryConserved(db: DB, h: Rows, customer: string)
    requires Consistent(db) && Stores(h, db)
    ensures var s := Summarize(db, h, customer);
            var mine := set id | id in db.usage && db.usage[id].priced.input.customerId == customer;
            var posted := mine * db.ledger;
            && s.pending == |set id | id in mine && id in db.pending && db.pending[id].failures < 3|
            && s.failed == |set id | id in mine && id in db.pending && db.pending[id].failures == 3|
            && s.processed == |posted|
            && s.pending + s.failed + s.processed == |mine|
            && s.units == Sums.Sum(posted, id => if id in db.usage then db.usage[id].priced.input.units else 0)
            && s.amount == Sums.Sum(posted, id =>
                 if id in db.usage then db.usage[id].priced.input.units * db.usage[id].priced.price else 0)
  {
    CountsPartition(db, h, customer);
    JoinIsOneToOne(db, h, customer);
    QueueRowsCounted(db, h, customer);
    TotalsOverPosted(db, h, customer);
    TotalsInFigures(db, h, customer);
    var mine := set id | id in db.usage && db.usage[id].priced.input.customerId == customer;
    assert mine == Customers(db, customer);
    assert WaitingOf(db, customer) == set id | id in mine && id in db.pending && db.pending[id].failures < 3;
    assert FailedOf(db, customer) == set id | id in mine && id in db.pending && db.pending[id].failures == 3;
  }

  /** Newly posted events of the customer. */
  function NewlyPosted(db: DB, m: map<Id, Outcome>, customer: string): set<Id> {
    PostedIn(m) * Customers(db, customer)
  }

  /** Each batch adds exactly the charges of the events it posts. */
  lemma BatchAdds(db: DB, op: Op, h: Rows, h': Rows, customer: string)
    requires Consistent(db) && Legal(db, op) && op.Settle? && Stores(h, db) && Stores(h', Effect(db, op))
    ensures var db' := Effect(db, op);
            Summarize(db', h', customer).amount == Summarize(db, h, customer).amount
              + Sums.Sum(NewlyPosted(db, op.outcomes, customer), id => Charge(db, id))
  {
    var db' := Effect(db, op);
    StepConsistent(db, op);
    TotalsOverPosted(db, h, customer);
    TotalsOverPosted(db', h', customer);
    var earlier, added := PostedOf(db, customer), NewlyPosted(db, op.outcomes, customer);
    NewlyPostedDisjoint(db, op, customer);
    Sums.SumEqual(PostedOf(db', customer), id => Charge(db', id), id => Charge(db, id));
    Sums.SumUnion(earlier, added, id => Charge(db, id));
  }

  lemma NewlyPostedDisjoint(db: DB, op: Op, customer: string)
    requires Partition(db) && Legal(db, op) && op.Settle?
    ensures PostedOf(db, customer) !! NewlyPosted(db, op.outcomes, customer)
    ensures PostedOf(Effect(db, op), customer) == PostedOf(db, customer) + NewlyPosted(db, op.outcomes, customer)
  {
    assert Customers(Effect(db, op), customer) == Customers(db, customer);
  }

  lemma PostedUnchanged(db: DB, op: Op, customer: string)
    requires Consistent(db) && Legal(db, op) && !op.Settle?
    ensures PostedOf(Effect(db, op), customer) == PostedOf(db, customer)
  {
    StepExtends(db, op);
    assert Effect(db, op).ledger == db.ledger;
  }

  /** Admissions and reactivations charge nothing. */
  lemma OnlyBatchesCharge(db: DB, op: Op, h: Rows, h': Rows, customer: string)
    requires Consistent(db) && Legal(db, op) && !op.Settle? && Stores(h, db) && Stores(h', Effect(db, op))
    ensures Summarize(Effect(db, op), h', customer).amount == Summarize(db, h, customer).amount
  {
    var db' := Effect(db, op);
    StepConsistent(db, op);
    TotalsOverPosted(db, h, customer);
    TotalsOverPosted(db', h', customer);
    PostedUnchanged(db, op, customer);
    ChargesFrozen(db, op, customer);
    Sums.SumEqual(PostedOf(db, customer), id => Charge(db', id), id => Charge(db, id));
  }

  lemma ChargesFrozen(db: DB, op: Op, customer: string)
    requires Legal(db, op)
    ensures forall id <- PostedOf(db, customer) :: Charge(Effect(db, op), id) == Charge(db, id)
  {
    StepExtends(db, op);
  }
}
