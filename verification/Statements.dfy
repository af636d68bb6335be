/** One transaction's private workspace and the effect of each SQL statement on it.
    The sequential store and the interleaved sessions both run these statements. */
module Statements {
  import opened Options
  import opened Identifiers
  import opened Tables

  /** Uncommitted writes: inserted usage, changed queue rows (None is deleted), posted marks. */
  datatype Writes = Writes(usage: map<Id, Usage>, pending: map<Id, Option<PendingRow>>, ledger: set<Id>)

  const NO_WRITES := Writes(map[], map[], {})

  datatype Save = Save(name: string, writes: Writes, rows: set<Id>, admission: bool)

  /** `rows` are the queue rows locked so far, `admission` the advisory lock.
      An uncommitted key insertion is itself the lock on that key. After a failed statement the
      transaction is `aborted`: until a rollback, every other statement fails. */
  datatype Work = Work(writes: Writes, rows: set<Id>, admission: bool, saves: seq<Save>, aborted: bool)

  const IDLE := Work(NO_WRITES, {}, false, [], false)

  function ApplyPending(p: map<Id, PendingRow>, c: map<Id, Option<PendingRow>>): map<Id, PendingRow> {
    if c == map[] then p
    else map id | id in p.Keys + c.Keys && (id in c ==> c[id].Some?) :: if id in c then c[id].value else p[id]
  }

  /** The tables after a commit; also what a statement of the transaction reads. */
  function Apply(db: DB, w: Writes): DB {
    DB(db.usage + w.usage, ApplyPending(db.pending, w.pending), db.ledger + w.ledger)
  }

  function View(db: DB, k: Work): DB { Apply(db, k.writes) }

  /** INSERT INTO usage_events ... ON CONFLICT DO NOTHING. */
  function InsertUsage(db: DB, k: Work, e: Priced, now: nat): Work {
    if e.input.eventId in View(db, k).usage then k
    else k.(writes := k.writes.(usage := k.writes.usage[e.input.eventId := Usage(e, now)]))
  }

  function TakeAdmission(k: Work): Work { k.(admission := true) }

  /** SELECT COUNT(*) over a LIMIT-bounded subquery. */
  function BoundedCount(db: DB, k: Work, limit: nat): nat {
    var n := |View(db, k).pending|;
    if n < limit then n else limit
  }

  function Enqueue(k: Work, id: Id, now: nat): Work {
    k.(writes := k.writes.(pending := k.writes.pending[id := Some(Fresh(now))]), rows := k.rows + {id})
  }

  /** SELECT ... FOR UPDATE SKIP LOCKED, where other transactions hold `held`. */
  function ClaimIds(db: DB, k: Work, held: set<Id>, limit: nat): seq<Id> {
    var p := View(db, k).pending;
    Claim(p, Eligible(p) - held, limit)
  }

  function LockRows(k: Work, ids: set<Id>): Work { k.(rows := k.rows + ids) }

  function Savepoint(k: Work, name: string): Work {
    k.(saves := k.saves + [Save(name, k.writes, k.rows, k.admission)])
  }

  /** The part of the stack up to and including the newest savepoint called `name`. */
  function Upto(saves: seq<Save>, name: string): (r: seq<Save>)
    ensures r <= saves
    ensures r != [] ==> r[|r| - 1].name == name
  {
    if saves == [] then []
    else if saves[|saves| - 1].name == name then saves
    else Upto(saves[..|saves| - 1], name)
  }

  predicate HasSavepoint(k: Work, name: string) { Upto(k.saves, name) != [] }

  /** ROLLBACK TO SAVEPOINT: later writes and locks vanish, the savepoint itself stays, and the
      transaction is usable again. */
  function RollbackTo(k: Work, name: string): Work
    requires HasSavepoint(k, name)
  {
    var saves := Upto(k.saves, name);
    var s := saves[|saves| - 1];
    Work(s.writes, s.rows, s.admission, saves, false)
  }

  /** RELEASE SAVEPOINT: keeps the writes, drops the savepoint and those above it. */
  function Release(k: Work, name: string): Work
    requires HasSavepoint(k, name)
  {
    var saves := Upto(k.saves, name);
    k.(saves := saves[..|saves| - 1])
  }

  /** INSERT INTO ledger_entries ... ON CONFLICT DO NOTHING, when no constraint rejects it. */
  function Post(db: DB, k: Work, ids: set<Id>): Work {
    k.(writes := k.writes.(ledger := k.writes.ledger + (ids - View(db, k).ledger)))
  }

  /** The answer of the ledger constraints to one INSERT; a refused one has marked some rows. */
  datatype Verdict = Passes | Refuses(code: string, marked: set<Id>)

  /** The same INSERT when a constraint rejects it: what it marked so far stays behind until a
      rollback, and the transaction is aborted. */
  function Spoil(db: DB, k: Work, ids: set<Id>, marked: set<Id>): Work {
    Post(db, k, ids * marked).(aborted := true)
  }

  /** Rolling back to a savepoint taken just before removes exactly what the failed INSERT marked. */
  lemma RollbackUndoes(db: DB, k: Work, name: string, ids: set<Id>, marked: set<Id>)
    requires !k.aborted
    ensures var spoiled := Spoil(db, Savepoint(k, name), ids, marked);
            && HasSavepoint(spoiled, name) && RollbackTo(spoiled, name) == Savepoint(k, name)
            && spoiled != Savepoint(k, name)
            && spoiled.writes.ledger - k.writes.ledger == ids * marked - View(db, k).ledger - k.writes.ledger
  {
    var spoiled := Spoil(db, Savepoint(k, name), ids, marked);
    assert spoiled.saves[|spoiled.saves| - 1].name == name;
  }

  function Removed(db: DB, k: Work, ids: set<Id>): set<Id> { ids * View(db, k).pending.Keys }

  /** DELETE FROM pending_events WHERE event_id IN ids. */
  function Remove(db: DB, k: Work, ids: set<Id>): Work {
    var gone := if Removed(db, k, ids) == {} then map[] else map id | id in Removed(db, k, ids) :: None;
    k.(writes := k.writes.(pending := k.writes.pending + gone), rows := k.rows + ids)
  }

  /** UPDATE of one queue row; None when the row is missing. */
  function Update(db: DB, k: Work, id: Id, change: PendingRow -> PendingRow): Work {
    var p := View(db, k).pending;
    if id !in p then k
    else k.(writes := k.writes.(pending := k.writes.pending[id := Some(change(p[id]))]), rows := k.rows + {id})
  }

  /** Recording a confirmed per-event failure. */
  function RecordFailure(db: DB, k: Work, id: Id, code: string): Work {
    Update(db, k, id, r => Bump(r, code))
  }

  /** Clearing a quarantined row and moving it to the tail under the next generation. */
  function Reactivated(r: PendingRow, now: nat): PendingRow { PendingRow(0, "", r.generation + 1, now) }

  function Reactivate(db: DB, k: Work, id: Id, now: nat): Work {
    Update(db, k, id, r => Reactivated(r, now))
  }

  /** New and reactivated rows carry the time of their statement, whatever was there before. */
  lemma RowsStampedNow(db: DB, k: Work, e: Priced, id: Id, now: nat)
    ensures e.input.eventId !in View(db, k).usage ==>
              InsertUsage(db, k, e, now).writes.usage[e.input.eventId] == Usage(e, now)
    ensures Enqueue(k, id, now).writes.pending[id] == Some(PendingRow(0, "", 0, now))
    ensures id in View(db, k).pending ==>
              Reactivate(db, k, id, now).writes.pending[id]
              == Some(PendingRow(0, "", View(db, k).pending[id].generation + 1, now))
  {
  }
}
