/** The guarded migrations that add and remove recovery columns and request ids. */
module Migrations {
  import opened Identifiers
  import opened Tables
  import RequestIds

  /** A row of `pending_events` before and after the second migration. */
  datatype QueueRow = Bare(enqueuedAt: nat) | Tracked(row: PendingRow)

  /** The partial index came with the recovery columns; both are part of the schema. */
  datatype Queue = Queue(rows: map<Id, QueueRow>, recovery: bool, partialIndex: bool)

  /** A row of `usage_events` before and after the third migration. */
  datatype UsageRow = Plain(input: Input, price: int, amount: int, currency: string, createdAt: nat) | Traced(usage: Usage)

  datatype UsageTable = UsageTable(rows: map<Id, UsageRow>, requestIds: bool)

  ghost predicate ValidQueue(q: Queue) {
    && q.partialIndex == q.recovery
    && forall id <- q.rows :: q.rows[id].Tracked? == q.recovery && (q.recovery ==> ValidPending(q.rows[id].row))
  }

  ghost predicate ValidUsage(t: UsageTable) {
    forall id <- t.rows ::
      && t.rows[id].Traced? == t.requestIds
      && (t.requestIds ==> ValidPriced(t.rows[id].usage.priced))
      && (!t.requestIds ==> ValidPriced(WithId(t.rows[id], "").priced))
  }

  // ---------------------------------------------------------- row by row

  function AddRecovery(r: QueueRow): QueueRow { if r.Bare? then Tracked(Fresh(r.enqueuedAt)) else r }

  function DropRecovery(r: QueueRow): QueueRow { if r.Bare? then r else Bare(r.row.enqueuedAt) }

  /** A usage row under a given request id. */
  function WithId(r: UsageRow, requestId: string): Usage {
    match r
    case Plain(input, price, amount, currency, createdAt) =>
      Usage(Priced(input, price, amount, currency, requestId), createdAt)
    case Traced(u) => u.(priced := u.priced.(requestId := requestId))
  }

  function AddRequestId(r: UsageRow): UsageRow { if r.Plain? then Traced(WithId(r, "")) else r }

  function DropRequestId(r: UsageRow): UsageRow {
    match r
    case Plain(_, _, _, _, _) => r
    case Traced(u) => Plain(u.priced.input, u.priced.price, u.priced.amount, u.priced.currency, u.createdAt)
  }

  // --------------------------------------------------------- whole tables

  function MapRows<R>(rows: map<Id, R>, f: R -> R): (m: map<Id, R>)
    ensures m.Keys == rows.Keys && forall id <- rows :: m[id] == f(rows[id])
  {
    if rows == map[] then map[] else map id | id in rows :: f(rows[id])
  }

  function UpQueue(q: Queue): Queue { Queue(MapRows(q.rows, AddRecovery), true, true) }

  function DownQueue(q: Queue): Queue { Queue(MapRows(q.rows, DropRecovery), false, false) }

  function UpUsage(t: UsageTable): UsageTable { UsageTable(MapRows(t.rows, AddRequestId), true) }

  function DownUsage(t: UsageTable): UsageTable { UsageTable(MapRows(t.rows, DropRequestId), false) }

  /** The guard of the second down migration: no failure and no retry to forget. */
  predicate QueueDrained(q: Queue) {
    forall id <- q.rows :: q.rows[id].Tracked? ==> q.rows[id].row.failures <= 0 && q.rows[id].row.generation <= 0
  }

  /** The guard of the third: no correlation history to erase. */
  predicate Uncorrelated(t: UsageTable) {
    forall id <- t.rows :: t.rows[id].Traced? ==> t.rows[id].usage.priced.requestId == ""
  }

  // ------------------------------------------------------------ migrations

  class Catalog {
    var queue: Queue
    var usage: UsageTable

    ghost predicate Valid() reads this { ValidQueue(queue) && ValidUsage(usage) }

    constructor (queue: Queue, usage: UsageTable)
      requires ValidQueue(queue) && ValidUsage(usage)
      ensures Valid() && this.queue == queue && this.usage == usage
    {
      this.queue, this.usage := queue, usage;
    }

    /** 000002 up; fails when the columns are already there. */
    method RecoveryUp() returns (ok: bool)
      requires Valid()
      modifies this`queue
      ensures Valid() && ok == !old(queue).recovery
      ensures queue == if ok then UpQueue(old(queue)) else old(queue)
    {
      ok := !queue.recovery;
      if ok {
        queue := queue.(rows := MapRows(queue.rows, AddRecovery), recovery := true);
        queue := queue.(partialIndex := true);
      }
    }

    /** 000002 down; the guard raises before anything is dropped. */
    method RecoveryDown() returns (ok: bool)
      requires Valid()
      modifies this`queue
      ensures Valid() && ok == (old(queue).recovery && QueueDrained(old(queue)))
      ensures queue == if ok then DownQueue(old(queue)) else old(queue)
    {
      if !queue.recovery {
        return false;
      }
      if exists id <- queue.rows :: queue.rows[id].row.failures > 0 || queue.rows[id].row.generation > 0 {
        return false;
      }
      queue := queue.(partialIndex := false);
      queue := queue.(rows := MapRows(queue.rows, DropRecovery), recovery := false);
      return true;
    }

    /** 000003 up. */
    method RequestIdUp() returns (ok: bool)
      requires Valid()
      modifies this`usage
      ensures Valid() && ok == !old(usage).requestIds
      ensures usage == if ok then UpUsage(old(usage)) else old(usage)
    {
      ok := !usage.requestIds;
      if ok {
        usage := UsageTable(MapRows(usage.rows, AddRequestId), true);
      }
    }

    /** 000003 down. */
    method RequestIdDown() returns (ok: bool)
      requires Valid()
      modifies this`usage
      ensures Valid() && ok == (old(usage).requestIds && Uncorrelated(old(usage)))
      ensures usage == if ok then DownUsage(old(usage)) else old(usage)
    {
      if !usage.requestIds {
        return false;
      }
      if exists id <- usage.rows :: usage.rows[id].usage.priced.requestId != "" {
        return false;
      }
      usage := UsageTable(MapRows(usage.rows, DropRequestId), false);
      return true;
    }
  }

  // ------------------------------------------------------------ round trips

  /** Up, then down: the guard permits it and every row is back. */
  lemma QueueUpThenDown(q: Queue)
    requires ValidQueue(q) && !q.recovery
    ensures ValidQueue(UpQueue(q)) && QueueDrained(UpQueue(q)) && DownQueue(UpQueue(q)) == q
  {
    assert DownQueue(UpQueue(q)).rows == q.rows;
  }

  /** Down, then up restores the queue exactly when the guard permits the down migration. */
  lemma QueueDownThenUp(q: Queue)
    requires ValidQueue(q) && q.recovery
    ensures QueueDrained(q) <==> UpQueue(DownQueue(q)) == q
  {
    var back := UpQueue(DownQueue(q));
    forall id <- q.rows ensures back.rows[id] == Tracked(Fresh(q.rows[id].row.enqueuedAt)) {
      assert DownQueue(q).rows[id] == Bare(q.rows[id].row.enqueuedAt);
    }
    if QueueDrained(q) {
      assert back.rows == q.rows;
    }
  }

  /** What a refusal prevents: some row would lose its failures or its generation, and a
      quarantined one would become eligible again. */
  lemma RefusalProtectsQueue(q: Queue) returns (id: Id)
    requires ValidQueue(q) && q.recovery && !QueueDrained(q)
    ensures id in q.rows && (q.rows[id].row.failures > 0 || q.rows[id].row.generation > 0)
    ensures UpQueue(DownQueue(q)).rows[id] == Tracked(Fresh(q.rows[id].row.enqueuedAt)) != q.rows[id]
  {
    id :| id in q.rows && (q.rows[id].row.failures > 0 || q.rows[id].row.generation > 0);
    assert DownQueue(q).rows[id] == Bare(q.rows[id].row.enqueuedAt);
  }

  lemma UsageUpThenDown(t: UsageTable)
    requires ValidUsage(t) && !t.requestIds
    ensures ValidUsage(UpUsage(t)) && Uncorrelated(UpUsage(t)) && DownUsage(UpUsage(t)) == t
  {
    forall id <- t.rows ensures DownUsage(UpUsage(t)).rows[id] == t.rows[id] {
      assert UpUsage(t).rows[id] == Traced(WithId(t.rows[id], ""));
    }
    assert DownUsage(UpUsage(t)).rows == t.rows;
  }

  lemma UsageDownThenUp(t: UsageTable)
    requires ValidUsage(t) && t.requestIds
    ensures Uncorrelated(t) <==> UpUsage(DownUsage(t)) == t
  {
    var back := UpUsage(DownUsage(t));
    forall id <- t.rows ensures back.rows[id] == Traced(WithId(t.rows[id], "")) {
      assert DownUsage(t).rows[id] == DropRequestId(t.rows[id]);
    }
    if Uncorrelated(t) {
      assert back.rows == t.rows;
    }
  }

  /** Every id the third migration would erase is a canonical one. */
  lemma RefusalProtectsIds(t: UsageTable) returns (id: Id)
    requires ValidUsage(t) && t.requestIds && !Uncorrelated(t)
    ensures id in t.rows && RequestIds.Canonical(t.rows[id].usage.priced.requestId)
    ensures UpUsage(DownUsage(t)).rows[id] == Traced(WithId(t.rows[id], "")) != t.rows[id]
  {
    id :| id in t.rows && t.rows[id].usage.priced.requestId != "";
    assert DownUsage(t).rows[id] == DropRequestId(t.rows[id]);
  }
}
