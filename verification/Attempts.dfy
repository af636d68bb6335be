/** The attempts that queued rows have left: the potential behind draining and fairness. */
module Attempts {
  import opened Identifiers
  import opened Tables
  import opened Atomic
  import Sums

  /** Attempts a queued row has left before quarantine. */
  function Credit(p: map<Id, PendingRow>, id: Id): int {
    if id in p then QUARANTINE - p[id].failures else 0
  }

  ghost function Credits(p: map<Id, PendingRow>, s: set<Id>): int {
    Sums.Sum(s, id => Credit(p, id))
  }

  /** Settling costs each claimed row at least one attempt and gives none to any other. */
  lemma SettleCredit(p: map<Id, PendingRow>, m: map<Id, Outcome>, id: Id)
    requires m.Keys <= Eligible(p)
    ensures id in m ==> Credit(SettlePending(p, m), id) + 1 <= Credit(p, id)
    ensures id !in m ==> Credit(SettlePending(p, m), id) == Credit(p, id)
  {
  }

  lemma SettleCredits(p: map<Id, PendingRow>, m: map<Id, Outcome>, s: set<Id>)
    requires m.Keys <= s && m.Keys <= Eligible(p)
    ensures Credits(SettlePending(p, m), s) + |m| <= Credits(p, s)
  {
    var p' := SettlePending(p, m);
    var before, after := id => Credit(p, id), id => Credit(p', id);
    forall id ensures id in m ==> after(id) + 1 <= before(id)
              ensures id !in m ==> after(id) == before(id) {
      SettleCredit(p, m, id);
    }
    var rest := s - m.Keys;
    assert s == m.Keys + rest;
    Sums.SumUnion(m.Keys, rest, before);
    Sums.SumUnion(m.Keys, rest, after);
    Sums.SumDrop(m.Keys, after, before);
    Sums.SumEqual(rest, after, before);
    assert |m| == |m.Keys|;
  }

  lemma CreditsBounds(p: map<Id, PendingRow>, s: set<Id>)
    requires AllValid(p)
    ensures 0 <= Credits(p, s) <= 3 * |s|
    ensures s <= Eligible(p) ==> |s| <= Credits(p, s)
  {
    var f := id => Credit(p, id);
    var zero: Id -> int, three: Id -> int := id => 0, id => 3;
    Sums.SumConstant(s, zero, 0);
    Sums.SumConstant(s, three, 3);
    Sums.SumMonotone(s, zero, f);
    Sums.SumMonotone(s, f, three);
    if s <= Eligible(p) {
      Sums.SumDrop(s, zero, f);
    }
  }

  lemma CreditsShrink(p: map<Id, PendingRow>, p': map<Id, PendingRow>, s: set<Id>)
    requires p'.Keys <= s
    ensures Credits(p', s) == Credits(p', p'.Keys)
  {
    var f := id => Credit(p', id);
    var rest := s - p'.Keys;
    assert s == p'.Keys + rest;
    Sums.SumUnion(p'.Keys, rest, f);
    Sums.SumConstant(rest, f, 0);
  }

  lemma CreditsPositive(p: map<Id, PendingRow>, x: Id)
    requires AllValid(p)
    requires x in Eligible(p)
    ensures Credits(p, p.Keys) > 0
  {
    Sums.SumRemove(p.Keys, id => Credit(p, id), x);
    CreditsBounds(p, p.Keys - {x});
  }

  /** Every committed batch, of whatever worker, costs the queue at least as many attempts as it claims. */
  lemma BatchSpends(db: DB, op: Op)
    requires Legal(db, op) && op.Settle?
    ensures var p' := Effect(db, op).pending;
            Credits(p', p'.Keys) + |op.outcomes| <= Credits(db.pending, db.pending.Keys)
  {
    SettleCredits(db.pending, op.outcomes, db.pending.Keys);
    CreditsShrink(db.pending, Effect(db, op).pending, db.pending.Keys);
  }
}
