/** Locks, and what one session's statements and commit mean for the others. */
module Interference {
  import opened Options
  import opened Identifiers
  import opened Tables
  import opened Statements
  import opened Atomic
  import opened Sessions
  import opened SessionProofs
  import Sums

  // ---------------------------------------------------------- lock footprint

  /** A statement obtains nothing beyond what it waits for. */
  ghost predicate Grows(db: DB, p: Program, k: Work, k': Work) {
    && k'.writes.usage.Keys <= k.writes.usage.Keys + WantsUsage(p)
    && k'.rows <= k.rows + WantsRows(db, p)
    && k'.writes.ledger <= k.writes.ledger + WantsLedger(p)
    && (k'.admission ==> k.admission || WantsAdmission(p))
  }

  lemma AcceptGrows(db: DB, s: Session, now: nat)
    requires s.prog.InAccept() && !s.prog.Finished() && ExecAccept(db, s, now).Some?
    ensures Grows(db, s.prog, s.work, ExecAccept(db, s, now).value.work)
  {
  }

  lemma RetryGrows(db: DB, s: Session, now: nat)
    requires s.prog.InRetry() && !s.prog.Finished() && RetryCoherent(db, s) && ExecRetry(db, s, now).Some?
    ensures Grows(db, s.prog, s.work, ExecRetry(db, s, now).value.work)
  {
    if s.prog.RetryLock? {
      NothingWritten(db);
    }
  }

  lemma ProbeGrows(db: DB, s: Session, verdict: Verdict)
    requires (s.prog.BatchSave? || s.prog.BatchProbe?) && ExecBulk(db, s, verdict).Some?
    ensures Grows(db, s.prog, s.work, ExecBulk(db, s, verdict).value.work)
  {
  }

  lemma DeleteGrows(db: DB, s: Session, verdict: Verdict)
    requires s.prog.BatchDelete? && ExecBulk(db, s, verdict).Some?
    ensures Grows(db, s.prog, s.work, ExecBulk(db, s, verdict).value.work)
  {
  }

  lemma RestoreGrows(db: DB, s: Session, verdict: Verdict)
    requires s.prog.BatchRestore? && BatchCoherent(db, s) && ExecBulk(db, s, verdict).Some?
    ensures Grows(db, s.prog, s.work, ExecBulk(db, s, verdict).value.work)
  {
    assert Upto(s.work.saves, BATCH_SAVE) == s.work.saves;
  }

  lemma BulkGrows(db: DB, s: Session, verdict: Verdict)
    requires s.prog.InBulk() && BatchCoherent(db, s) && ExecBulk(db, s, verdict).Some?
    ensures Grows(db, s.prog, s.work, ExecBulk(db, s, verdict).value.work)
  {
    match s.prog
    case BatchSave(_) => ProbeGrows(db, s, verdict);
    case BatchProbe(_) => ProbeGrows(db, s, verdict);
    case BatchDelete(_) => DeleteGrows(db, s, verdict);
    case BatchRestore(_) => RestoreGrows(db, s, verdict);
  }

  lemma EventPostGrows(db: DB, s: Session, verdict: Verdict)
    requires (s.prog.EventSave? || s.prog.EventPost?) && ExecEvent(db, s, verdict).Some?
    ensures Grows(db, s.prog, s.work, ExecEvent(db, s, verdict).value.work)
  {
  }

  lemma EventWriteGrows(db: DB, s: Session, verdict: Verdict)
    requires (s.prog.EventRemove? || s.prog.EventRecord?) && ExecEvent(db, s, verdict).Some?
    ensures Grows(db, s.prog, s.work, ExecEvent(db, s, verdict).value.work)
  {
  }

  lemma EventUndoGrows(db: DB, s: Session, verdict: Verdict)
    requires (s.prog.EventRestore? || s.prog.EventRelease?) && BatchCoherent(db, s) && ExecEvent(db, s, verdict).Some?
    ensures Grows(db, s.prog, s.work, ExecEvent(db, s, verdict).value.work)
  {
    if s.prog.EventRestore? {
      EventRollbackKeeps(db.pending, s.prog.b, s.work);
    }
  }

  lemma EventGrows(db: DB, s: Session, verdict: Verdict)
    requires s.prog.InEvent() && BatchCoherent(db, s) && ExecEvent(db, s, verdict).Some?
    ensures Grows(db, s.prog, s.work, ExecEvent(db, s, verdict).value.work)
  {
    if s.prog.EventSave? || s.prog.EventPost? {
      EventPostGrows(db, s, verdict);
    } else if s.prog.EventRemove? || s.prog.EventRecord? {
      EventWriteGrows(db, s, verdict);
    } else {
      EventUndoGrows(db, s, verdict);
    }
  }

  lemma ExecGrows(db: DB, s: Session, held: set<Id>, now: nat, verdict: Verdict)
    requires !s.prog.Finished() && !s.prog.BatchClaim? && Coherent(db, s) && Exec(db, s, held, now, verdict).Some?
    ensures Grows(db, s.prog, s.work, Exec(db, s, held, now, verdict).value.work)
  {
    if s.prog.InAccept() {
      AcceptGrows(db, s, now);
    } else if s.prog.InRetry() {
      RetryGrows(db, s, now);
    } else if s.prog.InBulk() {
      BulkGrows(db, s, verdict);
    } else {
      EventGrows(db, s, verdict);
    }
  }

  lemma GrowsDisjoint(db: DB, p: Program, k: Work, k': Work, other: Work)
    requires Grows(db, p, k, k') && Disjoint(k, other) && !Waits(db, p, other)
    ensures Disjoint(k', other)
  {
  }

  lemma ClaimDisjoint(db: DB, s: Session, held: set<Id>, other: Work)
    requires s.prog.BatchClaim? && s.work == IDLE && other.rows <= held
    ensures Disjoint(ExecClaim(db, s, held).value.work, other)
  {
    ClaimStep(db, s, held);
    var k := ExecClaim(db, s, held).value.work;
    assert k.writes.usage.Keys == {} && k.writes.ledger == {} && !k.admission;
  }

  /** A statement that does not have to wait keeps the lock sets of all sessions disjoint. */
  lemma ExecDisjoint(db: DB, s: Session, held: set<Id>, now: nat, verdict: Verdict, other: Work)
    requires !s.prog.Finished() && Coherent(db, s) && Exec(db, s, held, now, verdict).Some?
    requires Disjoint(s.work, other) && !Waits(db, s.prog, other) && other.rows <= held
    ensures Disjoint(Exec(db, s, held, now, verdict).value.work, other)
  {
    if s.prog.BatchClaim? {
      ClaimDisjoint(db, s, held, other);
    } else {
      ExecGrows(db, s, held, now, verdict);
      GrowsDisjoint(db, s.prog, s.work, Exec(db, s, held, now, verdict).value.work, other);
    }
  }

  // --------------------------------------------------------------- stability

  /** What a session may rely on between its statements because of the locks it holds. */
  ghost predicate Stable(db: DB, db': DB, k: Work) {
    && (forall id <- k.rows :: id in db.pending <==> id in db'.pending)
    && (forall id <- k.rows :: id in db.pending ==> db'.pending[id] == db.pending[id])
    && (forall id <- k.writes.usage :: id in db'.usage ==> id in db.usage)
    && (forall id <- db.usage :: id in db'.usage && db'.usage[id] == db.usage[id])
    && (k.admission ==> |db'.pending| <= |db.pending|)
  }

  lemma AcceptStable(db: DB, db': DB, s: Session)
    requires s.prog.InAccept() && AcceptCoherent(db, s) && Stable(db, db', s.work)
    ensures AcceptCoherent(db', s)
  {
  }

  lemma RetryStable(db: DB, db': DB, s: Session)
    requires s.prog.InRetry() && RetryCoherent(db, s) && Stable(db, db', s.work)
    ensures RetryCoherent(db', s)
  {
  }

  lemma ClaimedStable(db: DB, db': DB, b: Batch, k: Work)
    requires Claimed(db, b, k) && Stable(db, db', k)
    ensures Claimed(db', b, k)
  {
  }

  lemma SettleWritesStable(p: map<Id, PendingRow>, p': map<Id, PendingRow>, m: map<Id, Outcome>)
    requires forall id <- m :: id in p && id in p' && p[id] == p'[id]
    ensures SettleWrites(p, m) == SettleWrites(p', m)
  {
  }

  lemma OutcomesClaimed(db: DB, b: Batch, k: Work, n: nat)
    requires Claimed(db, b, k) && Recorded(db, b, n)
    ensures b.outcomes.Keys <= k.rows && k.rows <= db.pending.Keys
  {
  }

  lemma RecordedStable(db: DB, db': DB, b: Batch, k: Work, n: nat)
    requires Partition(db) && Claimed(db, b, k) && Recorded(db, b, n) && Stable(db, db', k)
    ensures Recorded(db', b, n)
    ensures SettleWrites(db.pending, b.outcomes) == SettleWrites(db'.pending, b.outcomes)
  {
    OutcomesClaimed(db, b, k, n);
    SettleWritesStable(db.pending, db'.pending, b.outcomes);
    forall i | 0 <= i < |b.ids| ensures b.items[i] == Report(db', b.ids[i], b.outcomes) {
      assert b.ids[i] in k.rows;
      assert b.items[i] == Report(db, b.ids[i], b.outcomes);
      assert Seen(db, b.ids[i]) == Seen(db', b.ids[i]);
    }
  }

  function RecordedUpto(p: Program): nat
    requires p.InBatch()
  {
    if p.InBulk() then 0 else if p.EventRelease? then p.b.next + 1
    else if p.BatchDone? then |p.b.ids| else p.b.next
  }

  lemma BatchStable(db: DB, db': DB, s: Session)
    requires Partition(db)
    requires s.prog.InBatch() && BatchCoherent(db, s)
    requires Stable(db, db', s.work)
    ensures BatchCoherent(db', s)
  {
    ClaimedStable(db, db', s.prog.b, s.work);
    RecordedStable(db, db', s.prog.b, s.work, RecordedUpto(s.prog));
  }

  lemma StableCoherent(db: DB, db': DB, s: Session)
    requires Partition(db) && Coherent(db, s) && Stable(db, db', s.work)
    ensures Coherent(db', s)
  {
    if s.prog.InAccept() {
      AcceptStable(db, db', s);
    } else if s.prog.InRetry() {
      RetryStable(db, db', s);
    } else if !s.prog.BatchClaim? {
      BatchStable(db, db', s);
    }
  }

  // ------------------------------------------------------------------ commit

  /** The atomic transaction that a finished session amounts to; None when it wrote nothing. */
  function OpOf(s: Session): Option<Op>
    requires s.prog.Finished()
  {
    match s.prog
    case AcceptDone(e, limit, created, _) =>
      var id, w := e.input.eventId, s.work.writes;
      if created && id in w.usage && id in w.pending && w.pending[id].Some? then
        Some(Admit(e, w.usage[id].createdAt, w.pending[id].value.enqueuedAt, limit))
      else None
    case BatchDone(b) => Some(Settle(b.outcomes, b.limit))
    case RetryDone(id, g, retried, _) =>
      var w := s.work.writes;
      if retried && id in w.pending && w.pending[id].Some? then Some(Revive(id, g, w.pending[id].value.enqueuedAt))
      else None
  }

  /** Committing `s` is, on the tables as they are now, exactly its atomic transaction. */
  ghost predicate CommitsAs(db: DB, s: Session)
    requires s.prog.Finished()
  {
    match OpOf(s)
    case None => Apply(db, s.work.writes) == db
    case Some(op) => Legal(db, op) && Apply(db, s.work.writes) == Effect(db, op)
  }

  lemma AdmitPending(p: map<Id, PendingRow>, id: Id, row: PendingRow)
    ensures ApplyPending(p, map[id := Some(row)]) == p[id := row]
  {
  }

  lemma AdmitApplies(db: DB, e: Priced, w: Writes, createdAt: nat, enqueuedAt: nat)
    requires w.usage == map[e.input.eventId := Usage(e, createdAt)] && w.ledger == {}
    requires w.pending == map[e.input.eventId := Some(Fresh(enqueuedAt))]
    ensures Apply(db, w) == AdmitEffect(db, e, createdAt, enqueuedAt)
  {
    AdmitPending(db.pending, e.input.eventId, Fresh(enqueuedAt));
    assert db.usage + w.usage == db.usage[e.input.eventId := Usage(e, createdAt)];
  }

  lemma AdmitCommits(db: DB, e: Priced, limit: nat, k: Work)
    requires OwnsAdmission(db, e, limit, k)
    ensures var id := e.input.eventId;
            && CanAdmit(db, e, limit)
            && Apply(db, k.writes) == AdmitEffect(db, e, k.writes.usage[id].createdAt, k.writes.pending[id].value.enqueuedAt)
  {
    AdmitApplies(db, e, k.writes, k.writes.usage[e.input.eventId].createdAt, k.writes.pending[e.input.eventId].value.enqueuedAt);
  }

  lemma ReviveCommits(db: DB, id: Id, g: int, k: Work)
    requires OwnsRevival(db, id, g, k)
    ensures CanRevive(db, id, g)
    ensures Apply(db, k.writes) == ReviveEffect(db, id, k.writes.pending[id].value.enqueuedAt)
  {
    var t := k.writes.pending[id].value.enqueuedAt;
    assert ApplyPending(db.pending, k.writes.pending) == db.pending[id := PendingRow(0, "", g + 1, t)];
    assert db.usage + k.writes.usage == db.usage;
  }

  lemma SettleApplies(db: DB, m: map<Id, Outcome>)
    requires m.Keys <= db.pending.Keys
    ensures Apply(db, SettleWrites(db.pending, m)) == SettleEffect(db, m)
  {
    assert ApplyPending(db.pending, SettleWrites(db.pending, m).pending) == SettlePending(db.pending, m);
  }

  lemma OutcomesCount(b: Batch)
    requires Distinct(b.ids) && b.outcomes.Keys == Members(b.ids[..|b.ids|])
    ensures |b.outcomes| == |b.ids|
  {
    assert b.ids[..|b.ids|] == b.ids;
    DistinctCard(b.ids);
    assert |b.outcomes| == |b.outcomes.Keys|;
  }

  lemma SettleAllowed(db: DB, b: Batch, k: Work)
    requires Claimed(db, b, k) && Recorded(db, b, |b.ids|)
    ensures CanSettle(db, b.outcomes, b.limit)
  {
    OutcomesCount(b);
  }

  lemma SettleCommits(db: DB, s: Session)
    requires s.prog.BatchDone? && BatchCoherent(db, s)
    ensures CommitsAs(db, s)
  {
    var b := s.prog.b;
    SettleAllowed(db, b, s.work);
    OutcomesClaimed(db, b, s.work, |b.ids|);
    SettleApplies(db, b.outcomes);
  }

  lemma AcceptCommits(db: DB, s: Session)
    requires s.prog.AcceptDone? && AcceptCoherent(db, s)
    ensures CommitsAs(db, s)
  {
    if s.prog.created {
      AdmitCommits(db, s.prog.e, s.prog.limit, s.work);
    } else {
      NothingWritten(db);
    }
  }

  lemma RetryCommits(db: DB, s: Session)
    requires s.prog.RetryDone? && RetryCoherent(db, s)
    ensures CommitsAs(db, s)
  {
    if s.prog.retried {
      ReviveCommits(db, s.prog.id, s.prog.generation, s.work);
    } else {
      NothingWritten(db);
    }
  }

  lemma FinishedCommits(db: DB, s: Session)
    requires s.prog.Finished() && Coherent(db, s)
    ensures CommitsAs(db, s)
  {
    match s.prog
    case AcceptDone(_, _, _, _) => AcceptCommits(db, s);
    case BatchDone(_) => SettleCommits(db, s);
    case RetryDone(_, _, _, _) => RetryCommits(db, s);
  }

  /** What a finished session may write: rows it locked, new keys, growth only under admission. */
  ghost predicate Contained(db: DB, k: Work) {
    && k.writes.pending.Keys <= k.rows
    && k.writes.usage.Keys !! db.usage.Keys
    && (!k.admission ==> forall id <- k.writes.pending :: id in db.pending)
  }

  lemma FinishedContained(db: DB, s: Session)
    requires s.prog.Finished() && Coherent(db, s)
    ensures Contained(db, s.work)
  {
    if s.prog.BatchDone? {
      OutcomesClaimed(db, s.prog.b, s.work, |s.prog.b.ids|);
    }
  }

  lemma ContainedShrinks(db: DB, k: Work)
    requires Contained(db, k) && !k.admission
    ensures |Apply(db, k.writes).pending| <= |db.pending|
  {
    Sums.SubsetCard(Apply(db, k.writes).pending.Keys, db.pending.Keys);
  }

  /** Another session's commit cannot disturb what this one holds locks on. */
  lemma CommitStable(db: DB, t: Work, k: Work)
    requires Contained(db, t) && Disjoint(t, k)
    ensures Stable(db, Apply(db, t.writes), k)
  {
    if k.admission {
      ContainedShrinks(db, t);
    }
  }
}
