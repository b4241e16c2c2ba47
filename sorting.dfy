/** In-place sorting as Go's `sort.Slice` with comparator
    `key(a[i]) > key(a[j])`. `sort.Slice` is not stable; its only promise is
    that the slice ends up non-increasing by key and is a permutation of what
    it was, which is all the contract here states. */
module Sorting {

  /** `s` is non-increasing by `key`. */
  ghost predicate NonIncreasing<T>(s: seq<T>, key: T -> real) {
    forall p, q :: 0 <= p < q < |s| ==> key(s[p]) >= key(s[q])
  }

  method Swap<T>(a: array<T>, i: int, j: int)
    requires 0 <= i < a.Length && 0 <= j < a.Length
    modifies a
    ensures a[i] == old(a[j]) && a[j] == old(a[i])
    ensures forall k :: 0 <= k < a.Length && k != i && k != j ==> a[k] == old(a[k])
    ensures multiset(a[..]) == old(multiset(a[..]))
  {
    var t := a[i];
    a[i] := a[j];
    a[j] := t;
  }

  /** Sort `a` so that keys do not increase from left to right. */
  method SortDescending<T>(a: array<T>, key: T -> real)
    modifies a
    ensures NonIncreasing(a[..], key)
    ensures multiset(a[..]) == old(multiset(a[..]))
  {
    var i := 0;
    while i < a.Length
      invariant 0 <= i <= a.Length
      invariant forall p, q :: 0 <= p < q < i ==> key(a[p]) >= key(a[q])
      invariant forall p, q :: 0 <= p < i <= q < a.Length ==> key(a[p]) >= key(a[q])
      invariant multiset(a[..]) == old(multiset(a[..]))
    {
      var m := i;
      var j := i + 1;
      while j < a.Length
        invariant i <= m < a.Length && i < j <= a.Length
        invariant forall q :: i <= q < j ==> key(a[m]) >= key(a[q])
      {
        if key(a[j]) > key(a[m]) {
          m := j;
        }
        j := j + 1;
      }
      Swap(a, i, m);
      i := i + 1;
    }
  }

  /** Dropping the last element keeps the order. */
  lemma NonIncreasingInit<T>(s: seq<T>, key: T -> real)
    requires |s| > 0 && NonIncreasing(s, key)
    ensures NonIncreasing(s[..|s| - 1], key)
  {
    var init := s[..|s| - 1];
    forall p, q | 0 <= p < q < |init|
      ensures key(init[p]) >= key(init[q])
    {
      assert init[p] == s[p] && init[q] == s[q];
    }
  }

  /** Appending an element no greater than any present keeps the order. */
  lemma AppendSmallest<T>(s: seq<T>, x: T, key: T -> real)
    requires NonIncreasing(s, key)
    requires forall y :: y in s ==> key(y) >= key(x)
    ensures NonIncreasing(s + [x], key)
  {
    var t := s + [x];
    forall p, q | 0 <= p < q < |t|
      ensures key(t[p]) >= key(t[q])
    {
      assert t[p] == s[p];
      if q == |s| {
        assert t[p] in s;
      } else {
        assert t[q] == s[q];
      }
    }
  }
}
