/** Sizes of finite sets. */
module Sets {

  lemma Member<T>(s: set<T>) returns (x: T)
    requires s != {}
    ensures x in s
  {
    x :| x in s;
  }

  lemma {:induction false} SubsetSize<T>(a: set<T>, b: set<T>)
    requires a <= b
    ensures |a| <= |b|
    ensures |a| == |b| ==> a == b
  {
    if a != {} {
      var x :| x in a;
      SubsetSize(a - {x}, b - {x});
    }
  }

  lemma {:induction false} IntervalSize(days: set<int>, lo: int, hi: int)
    requires lo <= hi && forall d :: d in days ==> lo <= d < hi
    ensures |days| <= hi - lo
    decreases hi - lo
  {
    if lo < hi {
      assert forall d :: d in days - {lo} ==> lo + 1 <= d < hi;
      IntervalSize(days - {lo}, lo + 1, hi);
      SubsetSize(days, (days - {lo}) + {lo});
    } else if days != {} {
      var d := Member(days);
    }
  }
}
