/** What a batch remembers of its claim: which rows it could have taken, and that those it took are
    still as it saw them. */
module Claims {
  import opened Options
  import opened Identifiers
  import opened Tables
  import opened Statements
  import opened Sessions
  import opened SessionProofs
  import opened Interference
  import opened Machine
  import Sums

  /** The ids are what the claim query returned on the tables it saw. */
  ghost predicate Genuine(b: Batch) {
    b.ids == Claim(b.seen.pending, Eligible(b.seen.pending) - b.skipped, b.limit)
  }

  ghost predicate RowAsSeen(db: DB, b: Batch, id: Id) {
    && id in b.seen.pending && id in db.pending && db.pending[id] == b.seen.pending[id]
    && id in b.seen.usage && id in db.usage && db.usage[id] == b.seen.usage[id]
  }

  /** The claimed rows and their usage are as the claim saw them. */
  ghost predicate AsSeen(db: DB, b: Batch) {
    forall id <- b.ids :: RowAsSeen(db, b, id)
  }

  ghost predicate Remembers(db: DB, s: Session) {
    s.prog.InBatch() ==> Genuine(s.prog.b) && AsSeen(db, s.prog.b)
  }

  /** Everything about a batch that its claim fixed. */
  ghost predicate SameClaim(b: Batch, b': Batch) {
    b'.limit == b.limit && b'.ids == b.ids && b'.seen == b.seen && b'.skipped == b.skipped
  }

  /** A transaction keeps its kind, and a batch its claim. */
  ghost predicate KeepsClaim(p: Program, p': Program) {
    && (p.InAccept() ==> p'.InAccept())
    && (p.InRetry() ==> p'.InRetry())
    && (p.InBatch() ==> p'.InBatch() && SameClaim(p.b, p'.b))
  }

  lemma AcceptKeeps(db: DB, s: Session, now: nat, next: Session)
    requires s.prog.InAccept() && !s.prog.Finished() && ExecAccept(db, s, now) == Some(next)
    ensures next.prog.InAccept()
  {
  }

  lemma RetryKeeps(db: DB, s: Session, now: nat, next: Session)
    requires s.prog.InRetry() && !s.prog.Finished() && ExecRetry(db, s, now) == Some(next)
    ensures next.prog.InRetry()
  {
  }

  /** One pass of the bulk attempt leads to another part of the same batch. */
  ghost predicate SameBatch(b: Batch, p: Program) { p.InBatch() && SameClaim(b, p.b) }

  lemma ProbeKeeps(db: DB, s: Session, verdict: Verdict, next: Session)
    requires (s.prog.BatchSave? || s.prog.BatchProbe?) && ExecBulk(db, s, verdict) == Some(next)
    ensures SameBatch(s.prog.b, next.prog)
  {
  }

  lemma DeleteKeeps(db: DB, s: Session, verdict: Verdict, next: Session)
    requires (s.prog.BatchDelete? || s.prog.BatchRestore?) && ExecBulk(db, s, verdict) == Some(next)
    ensures SameBatch(s.prog.b, next.prog)
  {
  }

  lemma EventKeeps(db: DB, s: Session, verdict: Verdict, next: Session)
    requires s.prog.InEvent() && ExecEvent(db, s, verdict) == Some(next)
    ensures SameBatch(s.prog.b, next.prog)
  {
  }

  lemma BatchKept(p: Program, p': Program)
    requires p.InBatch() && SameBatch(p.b, p')
    ensures KeepsClaim(p, p')
  {
  }

  lemma OtherKept(p: Program, p': Program)
    requires (p.InAccept() && p'.InAccept()) || (p.InRetry() && p'.InRetry())
    ensures KeepsClaim(p, p')
  {
  }

  /** Which of the programs runs. */
  lemma ExecIs(db: DB, s: Session, held: set<Id>, now: nat, verdict: Verdict, next: Session)
    requires !s.prog.Finished() && Exec(db, s, held, now, verdict) == Some(next)
    ensures s.prog.InAccept() ==> ExecAccept(db, s, now) == Some(next)
    ensures s.prog.BatchClaim? ==> ExecClaim(db, s, held) == Some(next)
    ensures s.prog.InBulk() ==> ExecBulk(db, s, verdict) == Some(next)
    ensures s.prog.InRetry() ==> ExecRetry(db, s, now) == Some(next)
    ensures s.prog.InEvent() ==> ExecEvent(db, s, verdict) == Some(next)
  {
  }

  lemma ExecKeepsClaim(db: DB, s: Session, held: set<Id>, now: nat, verdict: Verdict, next: Session)
    requires !s.prog.Finished() && !s.prog.BatchClaim? && Exec(db, s, held, now, verdict) == Some(next)
    ensures KeepsClaim(s.prog, next.prog)
  {
    ExecIs(db, s, held, now, verdict, next);
    if s.prog.InAccept() {
      AcceptKeeps(db, s, now, next);
      OtherKept(s.prog, next.prog);
    } else if s.prog.InRetry() {
      RetryKeeps(db, s, now, next);
      OtherKept(s.prog, next.prog);
    } else {
      if s.prog.InEvent() {
        EventKeeps(db, s, verdict, next);
      } else if s.prog.BatchSave? || s.prog.BatchProbe? {
        ProbeKeeps(db, s, verdict, next);
      } else {
        DeleteKeeps(db, s, verdict, next);
      }
      BatchKept(s.prog, next.prog);
    }
  }

  lemma ClaimRemembers(db: DB, s: Session, held: set<Id>)
    requires Partition(db) && s.prog.BatchClaim? && s.work == IDLE
    ensures Remembers(db, ExecClaim(db, s, held).value)
  {
    ClaimRuns(db, s, held);
    ClaimIsQueuePrefix(db.pending, Eligible(db.pending) - held, s.prog.size);
  }

  lemma SameClaimRemembers(db: DB, s: Session, next: Session)
    requires Remembers(db, s) && !s.prog.BatchClaim? && !s.prog.Finished() && KeepsClaim(s.prog, next.prog)
    ensures Remembers(db, next)
  {
  }

  lemma ExecRemembers(db: DB, s: Session, held: set<Id>, now: nat, verdict: Verdict, next: Session)
    requires Partition(db) && !s.prog.Finished() && Exec(db, s, held, now, verdict) == Some(next)
    requires Remembers(db, s) && (s.prog.BatchClaim? ==> s.work == IDLE)
    ensures Remembers(db, next)
  {
    if s.prog.BatchClaim? {
      ExecIs(db, s, held, now, verdict, next);
      ClaimRemembers(db, s, held);
    } else {
      ExecKeepsClaim(db, s, held, now, verdict, next);
      SameClaimRemembers(db, s, next);
    }
  }

  lemma StableRemembers(db: DB, db': DB, s: Session)
    requires Coherent(db, s) && Remembers(db, s) && Stable(db, db', s.work)
    ensures Remembers(db', s)
  {
    if s.prog.InBatch() {
      BatchRows(db, s);
      forall id <- s.prog.b.ids ensures RowAsSeen(db', s.prog.b, id) {
        assert RowAsSeen(db, s.prog.b, id) && id in s.work.rows;
      }
    }
  }

  lemma BatchRows(db: DB, s: Session)
    requires s.prog.InBatch() && Coherent(db, s)
    ensures s.work.rows == Members(s.prog.b.ids)
  {
  }

  ghost predicate AllRemember(st: State) {
    forall sid <- st.sessions :: Remembers(st.db, st.sessions[sid])
  }

  lemma RunRemembers(st: State, sid: Sid, verdict: Verdict)
    requires Partition(st.db) && AllRemember(st) && sid in st.sessions && !st.sessions[sid].prog.Finished()
    requires st.sessions[sid].prog.BatchClaim? ==> st.sessions[sid].work == IDLE
    ensures AllRemember(Run(st, sid, verdict))
  {
    var s := st.sessions[sid];
    var next := Exec(st.db, s, Held(st.sessions, sid), st.clock, verdict);
    if next.Some? {
      ExecRemembers(st.db, s, Held(st.sessions, sid), st.clock, verdict, next.value);
    }
  }

  lemma StatementRemembers(st: State, start: DB, sid: Sid, verdict: Verdict)
    requires Sound(st, start) && AllRemember(st) && sid in st.sessions && !st.sessions[sid].prog.Finished()
    ensures AllRemember(Run(st, sid, verdict))
  {
    assert Coherent(st.db, st.sessions[sid]);
    RunRemembers(st, sid, verdict);
  }

  lemma CommitKeepsStable(st: State, start: DB, sid: Sid, t: Sid)
    requires Sound(st, start) && sid in st.sessions && t in st.sessions && t != sid && st.sessions[sid].prog.Finished()
    ensures Coherent(st.db, st.sessions[t])
    ensures Stable(st.db, Apply(st.db, st.sessions[sid].work.writes), st.sessions[t].work)
  {
    FinishedContained(st.db, st.sessions[sid]);
    CommitStable(st.db, st.sessions[sid].work, st.sessions[t].work);
  }

  lemma PublishRemembers(st: State, start: DB, sid: Sid, confirmed: bool)
    requires Sound(st, start) && AllRemember(st) && sid in st.sessions && st.sessions[sid].prog.Finished()
    ensures AllRemember(Publish(st, sid, confirmed))
  {
    var db' := Apply(st.db, st.sessions[sid].work.writes);
    forall t | t in st.sessions && t != sid ensures Remembers(db', st.sessions[t]) {
      CommitKeepsStable(st, start, sid, t);
      StableRemembers(st.db, db', st.sessions[t]);
    }
  }

  lemma TakeRemembers(st: State, start: DB, m: Move)
    requires Sound(st, start) && AllRemember(st)
    ensures AllRemember(Take(st, m))
  {
    if Enabled(st, m) {
      match m
      case Begin(_, _) =>
      case Statement(sid, verdict) => StatementRemembers(st, start, sid, verdict);
      case Abort(_) =>
      case Finish(sid, confirmed) => PublishRemembers(st, start, sid, confirmed);
    }
  }

  lemma {:induction false} ExecuteRemembers(st: State, start: DB, schedule: seq<Move>)
    requires Sound(st, start) && AllRemember(st)
    ensures AllRemember(Execute(st, schedule))
    decreases |schedule|
  {
    if schedule != [] {
      ExecuteRemembers(st, start, schedule[..|schedule| - 1]);
      ExecuteSound(st, start, schedule[..|schedule| - 1]);
      TakeRemembers(Execute(st, schedule[..|schedule| - 1]), start, schedule[|schedule| - 1]);
    }
  }

  // ------------------------------------------------------ what a claim achieves

  /** Eligible rows ahead of `x` in the claim order. */
  function Ahead(p: map<Id, PendingRow>, x: Id): set<Id>
    requires x in p
  {
    set id | id in Eligible(p) && Precedes(p, id, x)
  }

  /** The claim takes `x`, or is full of rows ahead of it. */
  ghost predicate Advances(p: map<Id, PendingRow>, ids: seq<Id>, x: Id, k: nat)
    requires x in p
  {
    x in ids || (|ids| == k && Members(ids) <= Ahead(p, x))
  }

  /** Exactly when a claim is of use to an eligible row: the row is not locked, or enough unlocked
      rows are ahead of it. */
  lemma ClaimAdvances(p: map<Id, PendingRow>, held: set<Id>, x: Id, k: nat)
    requires x in Eligible(p) && k > 0
    ensures Advances(p, Claim(p, Eligible(p) - held, k), x, k) <==> x !in held || |Ahead(p, x) - held| >= k
  {
    var s := Eligible(p) - held;
    var ids := Claim(p, s, k);
    ClaimIsQueuePrefix(p, s, k);
    DistinctCard(ids);
    if x !in held {
      if x !in ids {
        UnlockedPassedOver(p, s, ids, x, k);
      }
    } else if |Ahead(p, x) - held| >= k {
      LockedPassedOver(p, s, ids, x, k, Ahead(p, x) - held);
    } else if Advances(p, ids, x, k) {
      Sums.SubsetCard(Members(ids), Ahead(p, x) - held);
    }
  }

  lemma UnlockedPassedOver(p: map<Id, PendingRow>, s: set<Id>, ids: seq<Id>, x: Id, k: nat)
    requires s <= Eligible(p) && x in s && x !in ids && ids == Claim(p, s, k)
    ensures |ids| == k && Members(ids) <= Ahead(p, x)
  {
    ClaimIsQueuePrefix(p, s, k);
    DistinctCard(ids);
    Sums.SubsetCard(Members(ids) + {x}, s);
    assert |Members(ids) + {x}| == |Members(ids)| + 1;
    forall y <- ids ensures y in Ahead(p, x) {
      assert x in s && x !in ids && y in ids;
    }
  }

  lemma LockedPassedOver(p: map<Id, PendingRow>, s: set<Id>, ids: seq<Id>, x: Id, k: nat, ahead: set<Id>)
    requires s <= Eligible(p) && x in p && x !in s && ids == Claim(p, s, k)
    requires ahead == Ahead(p, x) * s && |ahead| >= k
    ensures |ids| == k && Members(ids) <= Ahead(p, x)
  {
    ClaimIsQueuePrefix(p, s, k);
    DistinctCard(ids);
    Sums.SubsetCard(ahead, s);
    if !(Members(ids) <= ahead) {
      var y :| y in ids && y !in ahead;
      LessTotal(x, y);
      forall z <- ahead ensures z in ids {
        if z !in ids {
          assert Precedes(p, y, z);
          PrecedesTransitive(p, y, z, x);
        }
      }
      Sums.SubsetCard(ahead + {y}, Members(ids));
      assert false;
    }
  }
}
