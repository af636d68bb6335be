/** What the replies of Accept and Retry mean, for every schedule of the interleaved machine. */
module Replies {
  import opened Identifiers
  import opened Tables
  import opened Statements
  import opened Atomic
  import opened Sessions
  import opened Interference
  import opened Machine

  function IdOf(e: Event): Id { e.usage.priced.input.eventId }

  /** Holds from the moment of the reply on: an accept reply shows the stored row, a reported
      reactivation stays consumed, and an error carries nothing but request ids. */
  ghost predicate Holds(db: DB, r: Reply) {
    match r
    case Accepted(e, _) => IdOf(e) in db.usage && db.usage[IdOf(e)] == e.usage
    case Retried(e, retried) => retried ==> Beyond(db, IdOf(e), e.generation - 1)
    case Failed(items) => forall item <- items :: item == Item(item.requestId, "", "", 0, 0)
    case Processed(_, _) => true
  }

  /** An event is reported created once, and reactivated once per generation, in rising order. */
  ghost predicate Follows(r: Reply, later: Reply) {
    && (r.Accepted? && later.Accepted? && r.created && later.created ==> IdOf(r.event) != IdOf(later.event))
    && (r.Retried? && later.Retried? && r.retried && later.retried && IdOf(r.event) == IdOf(later.event) ==>
          r.event.generation < later.event.generation)
  }

  ghost predicate Trusted(st: State) {
    && (forall i :: 0 <= i < |st.answers| ==> Holds(st.db, st.answers[i].reply))
    && (forall i, j :: 0 <= i < j < |st.answers| ==> Follows(st.answers[i].reply, st.answers[j].reply))
  }

  lemma HoldsLater(db: DB, op: Op, r: Reply)
    requires Partition(db) && Legal(db, op) && Holds(db, r)
    ensures Holds(Effect(db, op), r)
  {
    match r
    case Accepted(_, _) => StepExtends(db, op);
    case Retried(e, retried) =>
      if retried {
        StepBeyond(db, op, IdOf(e), e.generation - 1);
      }
    case Failed(_) =>
    case Processed(_, _) =>
  }

  lemma HoldsAfterCommit(db: DB, s: Session, r: Reply)
    requires Partition(db) && s.prog.Finished() && Coherent(db, s) && Holds(db, r)
    ensures Holds(Apply(db, s.work.writes), r)
  {
    FinishedCommits(db, s);
    if OpOf(s).Some? {
      HoldsLater(db, OpOf(s).value, r);
    }
  }

  lemma AcceptReplyHolds(db: DB, s: Session)
    requires UsageValid(db) && s.prog.AcceptDone? && AcceptCoherent(db, s)
    ensures Holds(Apply(db, s.work.writes), ReplyOf(s.prog))
  {
  }

  lemma RetryReplyHolds(db: DB, s: Session)
    requires UsageValid(db) && s.prog.RetryDone? && RetryCoherent(db, s)
    ensures Holds(Apply(db, s.work.writes), ReplyOf(s.prog))
  {
    if s.prog.retried {
      var after := Apply(db, s.work.writes);
      assert s.prog.id in after.pending;
    }
  }

  lemma AcceptReplyFollows(db: DB, s: Session, r: Reply)
    requires s.prog.AcceptDone? && AcceptCoherent(db, s) && Holds(db, r)
    ensures Follows(r, ReplyOf(s.prog))
  {
  }

  lemma RetryReplyFollows(db: DB, s: Session, r: Reply)
    requires Partition(db) && UsageValid(db) && s.prog.RetryDone? && RetryCoherent(db, s) && Holds(db, r)
    ensures Follows(r, ReplyOf(s.prog))
  {
  }

  lemma ReplyTrusted(db: DB, s: Session, r: Reply)
    requires Consistent(db) && s.prog.Finished() && Coherent(db, s)
    ensures Holds(Apply(db, s.work.writes), ReplyOf(s.prog))
    ensures Holds(db, r) ==> Follows(r, ReplyOf(s.prog))
  {
    if s.prog.AcceptDone? {
      AcceptReplyHolds(db, s);
      if Holds(db, r) {
        AcceptReplyFollows(db, s, r);
      }
    } else if s.prog.RetryDone? {
      RetryReplyHolds(db, s);
      if Holds(db, r) {
        RetryReplyFollows(db, s, r);
      }
    }
  }

  lemma AppendTrusted(st: State, db: DB, a: Answer)
    requires forall i :: 0 <= i < |st.answers| ==> Holds(db, st.answers[i].reply)
    requires forall i, j :: 0 <= i < j < |st.answers| ==> Follows(st.answers[i].reply, st.answers[j].reply)
    requires Holds(db, a.reply)
    requires forall i :: 0 <= i < |st.answers| ==> Follows(st.answers[i].reply, a.reply)
    ensures Trusted(st.(db := db, answers := st.answers + [a]))
  {
  }

  lemma FailTrusted(st: State, sid: Sid)
    requires Trusted(st) && sid in st.sessions
    ensures Trusted(Fail(st, sid))
  {
    AppendTrusted(st, st.db, Fail(st, sid).answers[|st.answers|]);
  }

  /** The reply that a commit gives. */
  function PublishedReply(st: State, sid: Sid, confirmed: bool): Reply
    requires sid in st.sessions && st.sessions[sid].prog.Finished()
  {
    Publish(st, sid, confirmed).answers[|st.answers|].reply
  }

  lemma PublishedHolds(st: State, sid: Sid, confirmed: bool)
    requires Consistent(st.db) && sid in st.sessions && st.sessions[sid].prog.Finished() && Coherent(st.db, st.sessions[sid])
    ensures Holds(Apply(st.db, st.sessions[sid].work.writes), PublishedReply(st, sid, confirmed))
  {
    ReplyTrusted(st.db, st.sessions[sid], Failed([]));
  }

  lemma PublishedFollows(st: State, sid: Sid, confirmed: bool, r: Reply)
    requires Consistent(st.db) && sid in st.sessions && st.sessions[sid].prog.Finished() && Coherent(st.db, st.sessions[sid])
    requires Holds(st.db, r)
    ensures Holds(Apply(st.db, st.sessions[sid].work.writes), r) && Follows(r, PublishedReply(st, sid, confirmed))
  {
    HoldsAfterCommit(st.db, st.sessions[sid], r);
    ReplyTrusted(st.db, st.sessions[sid], r);
  }

  lemma PublishTrusted(st: State, sid: Sid, confirmed: bool)
    requires Consistent(st.db) && Trusted(st) && sid in st.sessions && st.sessions[sid].prog.Finished()
    requires Coherent(st.db, st.sessions[sid])
    ensures Trusted(Publish(st, sid, confirmed))
  {
    var s := st.sessions[sid];
    var db', a := Apply(st.db, s.work.writes), Publish(st, sid, confirmed).answers[|st.answers|];
    PublishedHolds(st, sid, confirmed);
    forall i | 0 <= i < |st.answers| ensures Holds(db', st.answers[i].reply) && Follows(st.answers[i].reply, a.reply) {
      PublishedFollows(st, sid, confirmed, st.answers[i].reply);
    }
    AppendTrusted(st, db', a);
  }

  lemma TakeTrusted(st: State, start: DB, m: Move)
    requires Sound(st, start) && Trusted(st)
    ensures Trusted(Take(st, m))
  {
    if Enabled(st, m) {
      match m
      case Begin(_, _) =>
      case Statement(sid, verdict) =>
        if Exec(st.db, st.sessions[sid], Held(st.sessions, sid), st.clock, verdict).None? {
          FailTrusted(st, sid);
        }
      case Abort(sid) => FailTrusted(st, sid);
      case Finish(sid, confirmed) => PublishTrusted(st, sid, confirmed);
    }
  }

  lemma {:induction false} ExecuteTrusted(st: State, start: DB, schedule: seq<Move>)
    requires Sound(st, start) && Trusted(st)
    ensures Trusted(Execute(st, schedule))
    decreases |schedule|
  {
    if schedule != [] {
      var before := Execute(st, schedule[..|schedule| - 1]);
      ExecuteTrusted(st, start, schedule[..|schedule| - 1]);
      ExecuteSound(st, start, schedule[..|schedule| - 1]);
      TakeTrusted(before, start, schedule[|schedule| - 1]);
    }
  }

  /** Whatever the interleaving and the failures: every accept reply ever given shows the row as
      it is still stored; `created` is reported at most once per id; `retried` is reported at most
      once per event and generation; error replies claim no outcome. */
  lemma RepliesTrusted(db: DB, clock: nat, schedule: seq<Move>, i: nat, j: nat)
    requires Consistent(db)
    requires i < j < |Execute(Init(db, clock), schedule).answers|
    ensures var st := Execute(Init(db, clock), schedule);
            && Holds(st.db, st.answers[i].reply) && Holds(st.db, st.answers[j].reply)
            && Follows(st.answers[i].reply, st.answers[j].reply)
  {
    InitSound(db, clock);
    ExecuteTrusted(Init(db, clock), db, schedule);
  }
}
