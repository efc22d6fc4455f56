/** Sums of payments. */
module Totals {
  import opened Tables

  ghost function PaymentsOf(ps: map<Id, Payment>, d: Id): set<Id> {
    set i | i in ps && OfDisbursement(ps[i], d)
  }

  ghost function Total(ps: map<Id, Payment>, ids: set<Id>): int
    requires ids <= ps.Keys
  {
    if ids == {} then 0 else
    var i :| i in ids;
    ps[i].terms.amount + Total(ps, ids - {i})
  }

  // The total does not depend on the order in which it is taken.
  lemma {:induction false} TotalWithout(ps: map<Id, Payment>, ids: set<Id>, i: Id)
    requires ids <= ps.Keys && i in ids
    ensures Total(ps, ids) == ps[i].terms.amount + Total(ps, ids - {i})
    decreases |ids|
  {
    var j :| j in ids && Total(ps, ids) == ps[j].terms.amount + Total(ps, ids - {j});
    if i != j {
      TotalWithout(ps, ids - {j}, i);
      TotalWithout(ps, ids - {i}, j);
      assert ids - {i} - {j} == ids - {j} - {i};
    }
  }

  lemma {:induction false} TotalUnion(ps: map<Id, Payment>, a: set<Id>, b: set<Id>)
    requires a <= ps.Keys && b <= ps.Keys && a !! b
    ensures Total(ps, a + b) == Total(ps, a) + Total(ps, b)
    decreases |a|
  {
    if a == {} {
      assert a + b == b;
    } else {
      var i :| i in a;
      TotalWithout(ps, a, i);
      TotalWithout(ps, a + b, i);
      assert a + b - {i} == a - {i} + b;
      TotalUnion(ps, a - {i}, b);
    }
  }

  // Only the amounts matter.
  lemma {:induction false} TotalSame(ps: map<Id, Payment>, ps': map<Id, Payment>, ids: set<Id>)
    requires ids <= ps.Keys && ids <= ps'.Keys && forall i :: i in ids ==> ps'[i].terms == ps[i].terms
    ensures Total(ps', ids) == Total(ps, ids)
    decreases |ids|
  {
    if ids != {} {
      var i :| i in ids;
      TotalWithout(ps, ids, i);
      TotalWithout(ps', ids, i);
      TotalSame(ps, ps', ids - {i});
    }
  }

  lemma {:induction false} TotalNotNegative(ps: map<Id, Payment>, ids: set<Id>)
    requires ids <= ps.Keys && forall i :: i in ids ==> ps[i].terms.amount >= 0
    ensures Total(ps, ids) >= 0
    decreases |ids|
  {
    if ids != {} {
      var i :| i in ids;
      TotalWithout(ps, ids, i);
      TotalNotNegative(ps, ids - {i});
    }
  }
}
