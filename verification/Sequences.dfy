/** Sequences without repetitions. */
module Sequences {

  predicate Distinct<T(==)>(s: seq<T>) {
    forall i, j :: 0 <= i < j < |s| ==> s[i] != s[j]
  }

  function Elements<T(==)>(s: seq<T>): set<T> {
    set x | x in s
  }

  lemma DistinctTail<T>(s: seq<T>)
    requires s != [] && Distinct(s)
    ensures Distinct(s[1..]) && s[0] !in s[1..]
    ensures forall x :: x in s <==> x == s[0] || x in s[1..]
  {
    assert forall j :: 1 <= j < |s| ==> s[j] != s[0];
  }

  lemma DistinctSnoc<T>(s: seq<T>, x: T)
    ensures Distinct(s + [x]) <==> Distinct(s) && x !in s
  {
    var s' := s + [x];
    assert forall k :: 0 <= k < |s| ==> s'[k] == s[k];
    if Distinct(s') {
      assert forall k :: 0 <= k < |s| ==> s'[k] != s'[|s|];
    }
  }

  /** As many different elements as positions: none occurs twice. */
  lemma {:induction false} ElementsOfDistinct<T>(s: seq<T>)
    ensures |Elements(s)| <= |s|
    ensures |Elements(s)| == |s| <==> Distinct(s)
  {
    hide Distinct;
    if s == [] {
      DistinctEmpty<T>();
    } else {
      var front, last := s[..|s| - 1], s[|s| - 1];
      ElementsOfDistinct(front);
      assert s == front + [last];
      DistinctSnoc(front, last);
      assert Elements(s) == Elements(front) + {last};
      assert last in front ==> Elements(front) + {last} == Elements(front);
    }
  }

  lemma DistinctEmpty<T>()
    ensures Distinct<T>([])
  {
  }
}
