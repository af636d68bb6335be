/** Every statement keeps a session coherent and takes only locks that nobody else holds. */
module SessionProofs {
  import opened Options
  import opened Identifiers
  import opened Tables
  import opened Statements
  import opened Atomic
  import opened Sessions

  lemma NothingWritten(db: DB)
    ensures Apply(db, NO_WRITES) == db
  {
    assert ApplyPending(db.pending, map[]) == db.pending;
  }

  lemma PendingUnwritten(db: DB, w: Writes)
    requires w.pending == map[]
    ensures Apply(db, w).pending == db.pending
  {
  }

  // ----------------------------------------------------------------- Accept

  lemma InsertCoherent(db: DB, s: Session, now: nat)
    requires s.prog.AcceptInsert? && AcceptCoherent(db, s) && ExecAccept(db, s, now).Some?
    ensures AcceptCoherent(db, ExecAccept(db, s, now).value)
  {
    NothingWritten(db);
  }

  lemma CountCoherent(db: DB, s: Session, now: nat)
    requires (s.prog.AcceptLock? || s.prog.AcceptCount?) && AcceptCoherent(db, s) && ExecAccept(db, s, now).Some?
    ensures AcceptCoherent(db, ExecAccept(db, s, now).value)
  {
    if s.prog.AcceptCount? {
      PendingUnwritten(db, s.work.writes);
    }
  }

  lemma EnqueueCoherent(db: DB, s: Session, now: nat)
    requires s.prog.AcceptEnqueue? && AcceptCoherent(db, s) && ExecAccept(db, s, now).Some?
    ensures AcceptCoherent(db, ExecAccept(db, s, now).value)
  {
    var id := s.prog.e.input.eventId;
    var k := Enqueue(s.work, id, now);
    assert k.writes.pending == map[id := Some(Fresh(now))];
    assert OwnsInsert(db, s.prog.e, k);
  }

  /** A session that enqueued its event reads it back unprocessed and without failures. */
  lemma ReadsOwnEvent(db: DB, e: Priced, limit: nat, k: Work)
    requires Partition(db) && OwnsAdmission(db, e, limit, k)
    ensures var id := e.input.eventId; ReadEvent(View(db, k), id) == Some(Event(k.writes.usage[id], false, 0, "", 0))
  {
    var id, view := e.input.eventId, View(db, k);
    assert id in view.usage && view.usage[id] == k.writes.usage[id];
    assert id in view.pending && view.pending[id] == k.writes.pending[id].value;
    assert id !in view.ledger;
  }

  lemma ReadCoherent(db: DB, s: Session, now: nat)
    requires Partition(db)
    requires s.prog.AcceptRead? && AcceptCoherent(db, s) && ExecAccept(db, s, now).Some?
    ensures AcceptCoherent(db, ExecAccept(db, s, now).value)
  {
    if s.prog.created {
      ReadsOwnEvent(db, s.prog.e, s.prog.limit, s.work);
    } else {
      NothingWritten(db);
    }
  }

  lemma AcceptStep(db: DB, s: Session, now: nat)
    requires Partition(db)
    requires s.prog.InAccept() && !s.prog.Finished() && AcceptCoherent(db, s) && ExecAccept(db, s, now).Some?
    ensures Coherent(db, ExecAccept(db, s, now).value)
  {
    match s.prog
    case AcceptInsert(_, _) => InsertCoherent(db, s, now);
    case AcceptLock(_, _) => CountCoherent(db, s, now);
    case AcceptCount(_, _) => CountCoherent(db, s, now);
    case AcceptEnqueue(_, _) => EnqueueCoherent(db, s, now);
    case AcceptRead(_, _, _) => ReadCoherent(db, s, now);
  }

  // ------------------------------------------------------------------ Retry

  lemma ReactivateWrites(db: DB, id: Id, g: int, now: nat)
    requires CanRevive(db, id, g)
    ensures OwnsRevival(db, id, g, Reactivate(db, IDLE.(rows := {id}), id, now))
  {
    NothingWritten(db);
    var k := Reactivate(db, IDLE.(rows := {id}), id, now);
    assert k.writes.pending == map[id := Some(PendingRow(0, "", g + 1, now))];
  }

  lemma ReadsRevival(db: DB, id: Id, g: int, k: Work)
    requires Partition(db) && OwnsRevival(db, id, g, k)
    ensures id in db.usage
    ensures ReadEvent(View(db, k), id) == Some(Event(db.usage[id], false, 0, "", g + 1))
  {
    var view := View(db, k);
    assert view.usage == db.usage && view.ledger == db.ledger;
    assert id in view.pending && view.pending[id] == k.writes.pending[id].value;
  }

  lemma RetryLockStep(db: DB, s: Session, now: nat)
    requires s.prog.RetryLock? && RetryCoherent(db, s) && ExecRetry(db, s, now).Some?
    ensures var s' := ExecRetry(db, s, now).value; s'.prog.InRetry() && RetryCoherent(db, s')
  {
    NothingWritten(db);
  }

  lemma RetryUpdateStep(db: DB, s: Session, now: nat)
    requires s.prog.RetryUpdate? && RetryCoherent(db, s) && ExecRetry(db, s, now).Some?
    ensures var s' := ExecRetry(db, s, now).value; s'.prog.InRetry() && RetryCoherent(db, s')
  {
    ReactivateWrites(db, s.prog.id, s.prog.generation, now);
  }

  lemma RetryReadStep(db: DB, s: Session, now: nat)
    requires Partition(db)
    requires s.prog.RetryRead? && RetryCoherent(db, s) && ExecRetry(db, s, now).Some?
    ensures var s' := ExecRetry(db, s, now).value; s'.prog.InRetry() && RetryCoherent(db, s')
  {
    if s.prog.retried {
      ReadsRevival(db, s.prog.id, s.prog.generation, s.work);
    }
  }

  lemma RetryStep(db: DB, s: Session, now: nat)
    requires Partition(db)
    requires s.prog.InRetry() && !s.prog.Finished() && RetryCoherent(db, s) && ExecRetry(db, s, now).Some?
    ensures var s' := ExecRetry(db, s, now).value; s'.prog.InRetry() && RetryCoherent(db, s')
  {
    match s.prog
    case RetryLock(_, _) => RetryLockStep(db, s, now);
    case RetryUpdate(_, _) => RetryUpdateStep(db, s, now);
    case RetryRead(_, _, _) => RetryReadStep(db, s, now);
  }

  // ------------------------------------------------------------------ Batch

  /** A batch just after its claim, which passed over the locked rows `held`. */
  function ClaimedPast(db: DB, ids: seq<Id>, size: nat, held: set<Id>): Batch {
    Batch(size, ids, seq(|ids|, i requires 0 <= i < |ids| => Seen(db, ids[i])), 0, map[], 0, db, held)
  }

  function ClaimedBatch(db: DB, ids: seq<Id>, size: nat): Batch { ClaimedPast(db, ids, size, {}) }

  lemma NothingRecorded(db: DB, ids: seq<Id>, size: nat, held: set<Id>)
    ensures Recorded(db, ClaimedPast(db, ids, size, held), 0)
    ensures SettleWrites(db.pending, map[]) == NO_WRITES
  {
    assert ids[..0] == [];
    assert PostedIn(map[]) == {};
  }

  lemma ClaimUntried(db: DB, held: set<Id>, size: nat)
    ensures var ids := Claim(db.pending, Eligible(db.pending) - held, size);
            Untried(db, ClaimedPast(db, ids, size, held), LockRows(IDLE, Members(ids)))
    ensures Members(Claim(db.pending, Eligible(db.pending) - held, size)) !! held
  {
    var s := Eligible(db.pending) - held;
    ClaimIsQueuePrefix(db.pending, s, size);
    NothingRecorded(db, Claim(db.pending, s, size), size, held);
  }

  /** The claim statement of a new transaction. */
  lemma ClaimRuns(db: DB, s: Session, held: set<Id>)
    requires s.prog.BatchClaim? && s.work == IDLE
    ensures var ids := Claim(db.pending, Eligible(db.pending) - held, s.prog.size);
            var b := ClaimedPast(db, ids, s.prog.size, held);
            ExecClaim(db, s, held) == Some(Session(if ids == [] then BatchDone(b) else BatchSave(b), LockRows(IDLE, Members(ids))))
  {
    NothingWritten(db);
  }

  lemma UntriedCoherent(db: DB, b: Batch, k: Work)
    requires Untried(db, b, k) && b.outcomes == map[] && k.saves == [] && !k.aborted
    ensures BatchCoherentOrDone(db, Session(if b.ids == [] then BatchDone(b) else BatchSave(b), k))
  {
    assert SettleWrites(db.pending, map[]) == NO_WRITES by {
      assert PostedIn(map[]) == {};
    }
  }

  lemma ClaimStep(db: DB, s: Session, held: set<Id>)
    requires s.prog.BatchClaim? && s.work == IDLE
    ensures BatchCoherentOrDone(db, ExecClaim(db, s, held).value)
    ensures ExecClaim(db, s, held).value.work.rows !! held
  {
    ClaimRuns(db, s, held);
    ClaimUntried(db, held, s.prog.size);
    var ids := Claim(db.pending, Eligible(db.pending) - held, s.prog.size);
    UntriedCoherent(db, ClaimedPast(db, ids, s.prog.size, held), LockRows(IDLE, Members(ids)));
  }

  ghost predicate BatchCoherentOrDone(db: DB, s: Session) {
    (s.prog.BatchSave? || s.prog.BatchDone?) && BatchCoherent(db, s)
  }

  lemma BulkOutcomes(ids: seq<Id>, c: Constraint)
    requires forall id <- ids :: c(id).None?
    ensures Outcomes(ids, c) == AllPosted(ids)
  {
  }

  /** A reported item agrees with the row as claimed and with the tables after the commit. */
  ghost predicate Truthful(before: DB, after: DB, id: Id, item: Item) {
    && id in before.usage && id in before.pending
    && item.requestId == before.usage[id].priced.requestId
    && item.generation == before.pending[id].generation
    && if item.outcome == "processed" then
         && id in after.ledger && id !in after.pending && id !in before.ledger
         && item.failures == before.pending[id].failures && item.code == ""
       else
         && id !in after.ledger && id in after.pending
         && after.pending[id] == before.pending[id].(failures := item.failures, code := item.code)
         && item.failures == before.pending[id].failures + 1
         && item.outcome == if item.failures == 3 then "quarantined" else "retry_scheduled"
  }

  lemma ReportTruthful(db: DB, m: map<Id, Outcome>, id: Id)
    requires Partition(db) && id in m && id in db.pending
    ensures Truthful(db, SettleEffect(db, m), id, Report(db, id, m))
  {
  }

  lemma AllPostedRecorded(db: DB, b: Batch)
    requires Distinct(b.ids) && Recorded(db, b, 0)
    ensures Recorded(db, NoteAll(b, |b.ids|), |b.ids|)
  {
    var b' := NoteAll(b, |b.ids|);
    assert b.ids[..|b.ids|] == b.ids && b.ids[..0] == [];
    assert PostedIn(b'.outcomes) == Members(b.ids);
    DistinctCard(b.ids);
    forall i | 0 <= i < |b.ids| ensures b'.items[i] == Report(db, b.ids[i], b'.outcomes) {
      assert b.items[i] == Report(db, b.ids[i], b.outcomes);
    }
  }

  lemma BulkRemoveWrites(db: DB, ids: seq<Id>, k: Work)
    requires k.writes == NO_WRITES.(ledger := Members(ids)) && Members(ids) <= db.pending.Keys
    ensures Removed(db, k, Members(ids)) == Members(ids)
    ensures Remove(db, k, Members(ids)).writes == SettleWrites(db.pending, AllPosted(ids))
  {
    PendingUnwritten(db, k.writes);
    assert Removed(db, k, Members(ids)) == Members(ids);
    assert PostedIn(AllPosted(ids)) == Members(ids);
  }

  lemma BulkDeletes(db: DB, b: Batch, k: Work)
    requires BulkPosted(db, b, k)
    ensures |Removed(db, k, Members(b.ids))| == |b.ids|
    ensures AllSettled(db, NoteAll(b, |b.ids|), Remove(db, k, Members(b.ids)))
  {
    BulkRemoveWrites(db, b.ids, k);
    DistinctCard(b.ids);
    AllPostedRecorded(db, b);
  }

  lemma DeleteStep(db: DB, s: Session)
    requires s.prog.BatchDelete? && BatchCoherent(db, s)
    ensures BatchCoherent(db, ExecBulk(db, s, Passes).value)
  {
    BulkDeletes(db, s.prog.b, s.work);
  }

  lemma BulkPostWrites(db: DB, ids: set<Id>, k: Work)
    requires Partition(db) && k.writes == NO_WRITES && ids <= db.pending.Keys
    ensures Post(db, k, ids) == k.(writes := NO_WRITES.(ledger := ids))
  {
    NothingWritten(db);
  }

  lemma ProbeStep(db: DB, s: Session, verdict: Verdict)
    requires Partition(db) && s.prog.BatchProbe? && BatchCoherent(db, s) && ExecBulk(db, s, verdict).Some?
    ensures BatchCoherent(db, ExecBulk(db, s, verdict).value)
  {
    if verdict.Passes? {
      BulkPostWrites(db, Members(s.prog.b.ids), s.work);
    } else {
      BulkPostWrites(db, Members(s.prog.b.ids) * verdict.marked, s.work);
    }
  }

  /** The rollback that starts the fallback: it needs the aborted transaction, removes every mark
      the failed INSERT left, and keeps the claimed locks. */
  lemma RestoreStep(db: DB, s: Session)
    requires s.prog.BatchRestore? && BatchCoherent(db, s)
    ensures ExecBulk(db, s, Passes).Some?
    ensures var s' := ExecBulk(db, s, Passes).value;
            && BatchCoherent(db, s')
            && s.work.aborted && !s'.work.aborted
            && s.work.writes.ledger <= Members(s.prog.b.ids) && s'.work.writes == NO_WRITES
            && s'.work.rows == s.work.rows == Members(s.prog.b.ids)
  {
    var k, b := s.work, s.prog.b;
    assert Upto(k.saves, BATCH_SAVE) == k.saves;
    assert RollbackTo(k, BATCH_SAVE) == Work(NO_WRITES, Members(b.ids), false, k.saves, false);
    assert b.ids[..0] == [];
    assert SettleWrites(db.pending, b.outcomes) == NO_WRITES;
  }

  lemma SaveStep(db: DB, s: Session)
    requires s.prog.BatchSave? && BatchCoherent(db, s)
    ensures BatchCoherent(db, ExecBulk(db, s, Passes).value)
  {
  }

  lemma BulkStep(db: DB, s: Session, verdict: Verdict)
    requires Partition(db) && s.prog.InBulk() && BatchCoherent(db, s) && ExecBulk(db, s, verdict).Some?
    ensures BatchCoherent(db, ExecBulk(db, s, verdict).value)
  {
    match s.prog
    case BatchSave(_) => SaveStep(db, s);
    case BatchProbe(_) => ProbeStep(db, s, verdict);
    case BatchDelete(_) => DeleteStep(db, s);
    case BatchRestore(_) => RestoreStep(db, s);
  }

  // -------------------------------------------------------------- per event

  /** Settling one more id extends the settled writes by that id alone. */
  lemma SettleWritesExtend(p: map<Id, PendingRow>, m: map<Id, Outcome>, id: Id, o: Outcome)
    requires id in p && id !in m
    ensures SettleWrites(p, m[id := o]) ==
            Writes(map[],
                   SettleWrites(p, m).pending[id := if o.Posted? then None else Some(Bump(p[id], o.code))],
                   if o.Posted? then SettleWrites(p, m).ledger + {id} else SettleWrites(p, m).ledger)
  {
    assert PostedIn(m[id := o]) == if o.Posted? then PostedIn(m) + {id} else PostedIn(m);
  }

  lemma CurrentUnsettled(b: Batch)
    requires Distinct(b.ids) && b.next < |b.ids| && b.outcomes.Keys == Members(b.ids[..b.next])
    ensures b.ids[b.next] !in b.outcomes
    ensures Members(b.ids[..b.next + 1]) == b.outcomes.Keys + {b.ids[b.next]}
  {
    assert b.ids[..b.next + 1] == b.ids[..b.next] + [b.ids[b.next]];
  }

  lemma NoteReports(db: DB, b: Batch, o: Outcome, i: nat)
    requires Distinct(b.ids) && b.next < |b.ids| == |b.items| && b.ids[b.next] !in b.outcomes && i < |b.ids|
    requires b.items[i] == Report(db, b.ids[i], b.outcomes)
    ensures Note(b, o).items[i] == Report(db, b.ids[i], Note(b, o).outcomes)
  {
    if i != b.next {
      assert b.ids[i] != b.ids[b.next];
    }
  }

  lemma NoteCount(m: map<Id, Outcome>, id: Id, o: Outcome)
    requires id !in m
    ensures |PostedIn(m[id := o])| == |PostedIn(m)| + if o.Posted? then 1 else 0
  {
    assert PostedIn(m[id := o]) == if o.Posted? then PostedIn(m) + {id} else PostedIn(m);
  }

  lemma NoteKeys(b: Batch, o: Outcome)
    requires Distinct(b.ids) && b.next < |b.ids| == |b.items| && b.outcomes.Keys == Members(b.ids[..b.next])
    ensures b.ids[b.next] !in b.outcomes && Note(b, o).outcomes.Keys == Members(b.ids[..b.next + 1])
  {
    CurrentUnsettled(b);
  }

  lemma NoteConfirmed(b: Batch, o: Outcome)
    requires b.next < |b.ids| == |b.items| && (o.Rejected? ==> Confirmed(o.code))
    requires forall id <- b.outcomes :: b.outcomes[id].Rejected? ==> Confirmed(b.outcomes[id].code)
    ensures var m := Note(b, o).outcomes; forall id <- m :: m[id].Rejected? ==> Confirmed(m[id].code)
  {
  }

  lemma NoteRecorded(db: DB, b: Batch, o: Outcome)
    requires Distinct(b.ids) && b.next < |b.ids| && Recorded(db, b, b.next)
    requires o.Rejected? ==> Confirmed(o.code)
    ensures Recorded(db, Note(b, o), b.next + 1)
  {
    NoteKeys(b, o);
    NoteConfirmed(b, o);
    NoteCount(b.outcomes, b.ids[b.next], o);
    var b' := Note(b, o);
    forall i | 0 <= i < |b.ids| ensures b'.items[i] == Report(db, b.ids[i], b'.outcomes) {
      NoteReports(db, b, o, i);
    }
  }

  /** The queue row of an unsettled claimed id reads as committed. */
  lemma UnsettledView(db: DB, m: map<Id, Outcome>, k: Work, id: Id)
    requires k.writes.pending == SettleWrites(db.pending, m).pending && id in db.pending && id !in m
    ensures id in View(db, k).pending && View(db, k).pending[id] == db.pending[id]
  {
  }

  lemma EventSaveStep(db: DB, s: Session)
    requires s.prog.EventSave? && BatchCoherent(db, s) && ExecEvent(db, s, Passes).Some?
    ensures BatchCoherent(db, ExecEvent(db, s, Passes).value)
  {
  }

  lemma PostOne(db: DB, k: Work, id: Id)
    requires id !in db.ledger && id !in k.writes.ledger
    ensures Post(db, k, {id}) == k.(writes := PlusMark(k.writes, id))
  {
    assert {id} - View(db, k).ledger == {id};
  }

  lemma SpoilOne(db: DB, k: Work, id: Id, marked: set<Id>)
    ensures var k' := Spoil(db, k, {id}, marked);
            k' == k.(aborted := true) || k' == Post(db, k, {id}).(aborted := true)
  {
    if id in marked {
      assert {id} * marked == {id};
    } else {
      assert {id} * marked == {};
      assert k.writes.ledger + ({} - View(db, k).ledger) == k.writes.ledger;
    }
  }

  /** The current event of a batch: claimed, queued, neither settled nor posted. */
  lemma CurrentEvent(db: DB, b: Batch, k: Work)
    requires Claimed(db, b, k) && b.next < |b.ids| && Recorded(db, b, b.next)
    ensures var id := b.ids[b.next]; id in db.pending && id !in b.outcomes && id in k.rows
  {
    CurrentUnsettled(b);
    assert b.ids[b.next] in Members(b.ids);
  }

  lemma EventPostWrites(db: DB, b: Batch, k: Work)
    requires Partition(db) && Settling(db, b, k)
    ensures Post(db, k, {b.ids[b.next]}) == k.(writes := PlusMark(k.writes, b.ids[b.next]))
  {
    CurrentEvent(db, b, k);
    PostOne(db, k, b.ids[b.next]);
  }

  lemma EventPasses(db: DB, b: Batch, k: Work)
    requires Partition(db) && Settling(db, b, k)
    ensures EventPosted(db, b, Post(db, k, {b.ids[b.next]}))
    ensures var k' := Post(db, k, {b.ids[b.next]}); k'.saves == k.saves && k'.aborted == k.aborted
  {
    EventPostWrites(db, b, k);
  }

  lemma EventRefused(db: DB, b: Batch, k: Work, marked: set<Id>)
    requires Partition(db) && Settling(db, b, k)
    ensures var k' := Spoil(db, k, {b.ids[b.next]}, marked);
            EventSpoiled(db, b, k') && k'.saves == k.saves && k'.aborted
  {
    EventPostWrites(db, b, k);
    SpoilOne(db, k, b.ids[b.next], marked);
  }

  lemma EventPostPasses(db: DB, s: Session)
    requires Partition(db) && s.prog.EventPost? && BatchCoherent(db, s) && ExecEvent(db, s, Passes).Some?
    ensures BatchCoherent(db, ExecEvent(db, s, Passes).value)
  {
    EventPasses(db, s.prog.b, s.work);
  }

  lemma EventPostRefused(db: DB, s: Session, verdict: Verdict)
    requires Partition(db) && s.prog.EventPost? && BatchCoherent(db, s) && ExecEvent(db, s, verdict).Some? && verdict.Refuses?
    ensures BatchCoherent(db, ExecEvent(db, s, verdict).value)
  {
    EventRefused(db, s.prog.b, s.work, verdict.marked);
  }

  lemma EventPostStep(db: DB, s: Session, verdict: Verdict)
    requires Partition(db) && s.prog.EventPost? && BatchCoherent(db, s) && ExecEvent(db, s, verdict).Some?
    ensures BatchCoherent(db, ExecEvent(db, s, verdict).value)
  {
    if verdict.Passes? {
      EventPostPasses(db, s);
    } else {
      EventPostRefused(db, s, verdict);
    }
  }

  lemma RemoveOne(db: DB, m: map<Id, Outcome>, k: Work, id: Id)
    requires k.writes == PlusMark(SettleWrites(db.pending, m), id) && id in db.pending && id !in m && id in k.rows
    ensures Remove(db, k, {id}) == k.(writes := SettleWrites(db.pending, m[id := Posted]))
  {
    SettleWritesExtend(db.pending, m, id, Posted);
    UnsettledView(db, m, k, id);
    assert Removed(db, k, {id}) == {id};
    assert k.rows + {id} == k.rows;
    assert Remove(db, k, {id}).writes.pending == k.writes.pending[id := None];
  }

  lemma RecordOne(db: DB, m: map<Id, Outcome>, k: Work, id: Id, code: string)
    requires k.writes == SettleWrites(db.pending, m) && id in db.pending && id !in m && id in k.rows
    ensures RecordFailure(db, k, id, code) == k.(writes := SettleWrites(db.pending, m[id := Rejected(code)]))
  {
    SettleWritesExtend(db.pending, m, id, Rejected(code));
    UnsettledView(db, m, k, id);
    assert k.rows + {id} == k.rows;
  }

  lemma EventRemoveStep(db: DB, s: Session)
    requires s.prog.EventRemove? && BatchCoherent(db, s) && ExecEvent(db, s, Passes).Some?
    ensures BatchCoherent(db, ExecEvent(db, s, Passes).value)
  {
    var k, b := s.work, s.prog.b;
    CurrentEvent(db, b, k);
    RemoveOne(db, b.outcomes, k, b.ids[b.next]);
    NoteRecorded(db, b, Posted);
    assert EventSettled(db, Note(b, Posted), Remove(db, k, {b.ids[b.next]}));
  }

  lemma EventRecordStep(db: DB, s: Session)
    requires s.prog.EventRecord? && BatchCoherent(db, s) && ExecEvent(db, s, Passes).Some?
    ensures BatchCoherent(db, ExecEvent(db, s, Passes).value)
  {
    var k, b, code := s.work, s.prog.b, s.prog.code;
    CurrentEvent(db, b, k);
    RecordOne(db, b.outcomes, k, b.ids[b.next], code);
    NoteRecorded(db, b, Rejected(code));
    assert EventSettled(db, Note(b, Rejected(code)), RecordFailure(db, k, b.ids[b.next], code));
  }

  /** Isolating a failed event undoes neither earlier events nor the claimed locks. */
  lemma EventRollbackKeeps(p: map<Id, PendingRow>, b: Batch, k: Work)
    requires k.saves == [BaseSave(b), InnerSave(p, b)]
    ensures HasSavepoint(k, EVENT_SAVE)
    ensures RollbackTo(k, EVENT_SAVE) == Work(SettleWrites(p, b.outcomes), Members(b.ids), false, k.saves, false)
  {
  }

  /** The rollback of one isolated event: of everything written so far it removes at most this
      event's mark, and what is left settles exactly the events before it. */
  lemma EventRestoreStep(db: DB, s: Session)
    requires s.prog.EventRestore? && BatchCoherent(db, s)
    ensures ExecEvent(db, s, Passes).Some?
    ensures var s' := ExecEvent(db, s, Passes).value; var id := s.prog.b.ids[s.prog.b.next];
            && BatchCoherent(db, s')
            && s.work.aborted && !s'.work.aborted
            && (s.work.writes == s'.work.writes || s.work.writes == PlusMark(s'.work.writes, id))
            && s'.work.writes == SettleWrites(db.pending, s.prog.b.outcomes)
            && s'.work.rows == s.work.rows
  {
    EventRollbackKeeps(db.pending, s.prog.b, s.work);
  }

  /** Each iteration ends with the savepoint stack back at its base and one more event settled. */
  lemma EventReleaseStep(db: DB, s: Session)
    requires s.prog.EventRelease? && BatchCoherent(db, s)
    ensures ExecEvent(db, s, Passes).Some?
    ensures var s' := ExecEvent(db, s, Passes).value;
            && BatchCoherent(db, s') && s'.work.saves == [BaseSave(s.prog.b)]
            && s'.prog.b == s.prog.b.(next := s.prog.b.next + 1) && Recorded(db, s'.prog.b, s'.prog.b.next)
  {
    var k, b := s.work, s.prog.b;
    assert Upto(k.saves, EVENT_SAVE) == k.saves;
    assert Release(k, EVENT_SAVE).saves == [BaseSave(b)];
    assert b.next + 1 == |b.ids| ==> b.ids[..b.next + 1] == b.ids;
  }

  lemma EventStep(db: DB, s: Session, verdict: Verdict)
    requires Partition(db) && s.prog.InEvent() && BatchCoherent(db, s) && ExecEvent(db, s, verdict).Some?
    ensures BatchCoherent(db, ExecEvent(db, s, verdict).value)
  {
    match s.prog
    case EventSave(_) => EventSaveStep(db, s);
    case EventPost(_) => EventPostStep(db, s, verdict);
    case EventRemove(_) => EventRemoveStep(db, s);
    case EventRestore(_, _) => EventRestoreStep(db, s);
    case EventRecord(_, _) => EventRecordStep(db, s);
    case EventRelease(_) => EventReleaseStep(db, s);
  }

  // ------------------------------------------------------------- all of them

  lemma ExecAcceptCoherent(db: DB, s: Session, held: set<Id>, now: nat, verdict: Verdict)
    requires Partition(db) && Coherent(db, s) && s.prog.InAccept() && !s.prog.Finished() && Exec(db, s, held, now, verdict).Some?
    ensures Coherent(db, Exec(db, s, held, now, verdict).value)
  {
    AcceptStep(db, s, now);
  }

  lemma ExecClaimCoherent(db: DB, s: Session, held: set<Id>, now: nat, verdict: Verdict)
    requires Partition(db) && Coherent(db, s) && s.prog.BatchClaim? && Exec(db, s, held, now, verdict).Some?
    ensures Coherent(db, Exec(db, s, held, now, verdict).value)
  {
    ClaimStep(db, s, held);
  }

  lemma ExecRetryCoherent(db: DB, s: Session, held: set<Id>, now: nat, verdict: Verdict)
    requires Partition(db) && Coherent(db, s) && s.prog.InRetry() && !s.prog.Finished() && Exec(db, s, held, now, verdict).Some?
    ensures Coherent(db, Exec(db, s, held, now, verdict).value)
  {
    RetryStep(db, s, now);
  }

  lemma BulkStepStays(db: DB, s: Session, verdict: Verdict)
    requires s.prog.InBulk() && ExecBulk(db, s, verdict).Some?
    ensures var p := ExecBulk(db, s, verdict).value.prog; p.InBulk() || p.EventSave? || p.BatchDone?
  {
  }

  lemma BatchStaysCoherent(db: DB, s: Session)
    requires s.prog.InBatch() && BatchCoherent(db, s)
    ensures Coherent(db, s)
  {
  }

  lemma ExecBulkCoherent(db: DB, s: Session, next: Session, verdict: Verdict)
    requires Partition(db) && s.prog.InBulk() && BatchCoherent(db, s) && ExecBulk(db, s, verdict) == Some(next)
    ensures Coherent(db, next)
  {
    BulkStepStays(db, s, verdict);
    BulkStep(db, s, verdict);
    BatchStaysCoherent(db, next);
  }

  lemma EventStepStays(db: DB, s: Session, verdict: Verdict)
    requires s.prog.InEvent() && ExecEvent(db, s, verdict).Some?
    ensures var p := ExecEvent(db, s, verdict).value.prog; p.InEvent() || p.BatchDone?
  {
  }

  lemma ExecEventCoherent(db: DB, s: Session, next: Session, verdict: Verdict)
    requires Partition(db) && s.prog.InEvent() && BatchCoherent(db, s) && ExecEvent(db, s, verdict) == Some(next)
    ensures Coherent(db, next)
  {
    EventStepStays(db, s, verdict);
    EventStep(db, s, verdict);
    BatchStaysCoherent(db, next);
  }

  lemma ExecCoherent(db: DB, s: Session, held: set<Id>, now: nat, verdict: Verdict)
    requires Partition(db) && !s.prog.Finished() && Coherent(db, s) && Exec(db, s, held, now, verdict).Some?
    ensures Coherent(db, Exec(db, s, held, now, verdict).value)
  {
    if s.prog.InAccept() {
      ExecAcceptCoherent(db, s, held, now, verdict);
    } else if s.prog.BatchClaim? {
      ExecClaimCoherent(db, s, held, now, verdict);
    } else if s.prog.InRetry() {
      ExecRetryCoherent(db, s, held, now, verdict);
    } else if s.prog.InBulk() {
      ExecBulkCoherent(db, s, ExecBulk(db, s, verdict).value, verdict);
    } else {
      ExecEventCoherent(db, s, ExecEvent(db, s, verdict).value, verdict);
    }
  }
}
