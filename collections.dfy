/** Facts about sequences without repeated elements, shared by the selection
    and de-duplication models. */
module Collections {

  predicate NoDuplicates<T(==)>(s: seq<T>) {
    forall p, q :: 0 <= p < q < |s| ==> s[p] != s[q]
  }

  /** The set of elements of a sequence. */
  function Elements<T>(s: seq<T>): set<T> {
    set x | x in s
  }

  /** A sequence without repeated elements has as many distinct elements as
      it is long. */
  lemma {:induction false} NoDuplicatesCardinality<T>(s: seq<T>)
    requires NoDuplicates(s)
    ensures |Elements(s)| == |s|
    decreases |s|
  {
    if |s| > 0 {
      var init := s[..|s| - 1];
      var last := s[|s| - 1];
      assert NoDuplicates(init);
      NoDuplicatesCardinality(init);
      assert s == init + [last];
      assert Elements(s) == Elements(init) + {last};
      forall p | 0 <= p < |init|
        ensures init[p] != last
      {
        assert init[p] == s[p];
      }
    }
  }

  /** Appending a new element keeps a sequence free of repeats. */
  lemma AppendFresh<T>(s: seq<T>, x: T)
    requires NoDuplicates(s) && x !in s
    ensures NoDuplicates(s + [x])
  {
    var t := s + [x];
    forall p, q | 0 <= p < q < |t|
      ensures t[p] != t[q]
    {
      if q == |s| {
        assert t[p] == s[p];
      }
    }
  }

  /** Putting a new element in front keeps a sequence free of repeats. */
  lemma PrependFresh<T>(x: T, s: seq<T>)
    requires NoDuplicates(s) && x !in s
    ensures NoDuplicates([x] + s)
  {
    var t := [x] + s;
    forall p, q | 0 <= p < q < |t|
      ensures t[p] != t[q]
    {
      assert t[q] == s[q - 1];
      if p > 0 {
        assert t[p] == s[p - 1];
      }
    }
  }

  /** `f` applied to every element, in order. */
  function Map<T, U>(f: T -> U, s: seq<T>): (r: seq<U>)
    ensures |r| == |s|
    ensures forall k :: 0 <= k < |s| ==> r[k] == f(s[k])
  {
    if |s| == 0 then [] else Map(f, s[..|s| - 1]) + [f(s[|s| - 1])]
  }

  lemma MapAppend<T, U>(f: T -> U, a: seq<T>, b: seq<T>)
    ensures Map(f, a + b) == Map(f, a) + Map(f, b)
  {
  }

  /** Dropping the element at `j` removes one occurrence of it. */
  lemma RemoveAt<T>(s: seq<T>, j: nat)
    requires j < |s|
    ensures multiset(s[..j] + s[j + 1..]) == multiset(s) - multiset{s[j]}
  {
    assert s == s[..j] + [s[j]] + s[j + 1..];
  }

  /** Mapping a permutation gives a permutation. */
  lemma {:induction false} MapPermutation<T, U>(f: T -> U, s: seq<T>, t: seq<T>)
    requires multiset(s) == multiset(t)
    ensures multiset(Map(f, s)) == multiset(Map(f, t))
    decreases |s|
  {
    if |s| == 0 {
      assert |t| == |multiset(t)| == 0;
    } else {
      var j := MatchLast(s, t);
      var rest := t[..j] + t[j + 1..];
      MapPermutation(f, s[..|s| - 1], rest);
      MapAt(f, s, |s| - 1);
      MapAt(f, t, j);
    }
  }

  /** A position in `t` holding the last element of `s`; without that element
      the two are still permutations of each other. */
  lemma MatchLast<T>(s: seq<T>, t: seq<T>) returns (j: nat)
    requires |s| > 0 && multiset(s) == multiset(t)
    ensures j < |t| && t[j] == s[|s| - 1]
    ensures multiset(s[..|s| - 1]) == multiset(t[..j] + t[j + 1..])
  {
    var x := s[|s| - 1];
    assert s == s[..|s| - 1] + [x];
    assert x in multiset(t);
    j :| 0 <= j < |t| && t[j] == x;
    RemoveAt(s, |s| - 1);
    RemoveAt(t, j);
    assert s[..|s| - 1] + s[|s|..] == s[..|s| - 1];
  }

  /** The multiset of a mapped sequence, split at position `j`. */
  lemma MapAt<T, U>(f: T -> U, s: seq<T>, j: nat)
    requires j < |s|
    ensures multiset(Map(f, s)) == multiset(Map(f, s[..j] + s[j + 1..])) + multiset{f(s[j])}
  {
    var before, after := s[..j], s[j + 1..];
    MapSplit(f, s, j);
    MapAppend(f, before, after);
    MultisetMiddle(Map(f, before), f(s[j]), Map(f, after));
  }

  lemma {:induction false} MapSplit<T, U>(f: T -> U, s: seq<T>, j: nat)
    requires j < |s|
    ensures Map(f, s) == Map(f, s[..j]) + [f(s[j])] + Map(f, s[j + 1..])
    decreases |s|
  {
    var init := s[..|s| - 1];
    if j == |s| - 1 {
      assert init == s[..j];
      assert s[j + 1..] == [];
    } else {
      MapSplit(f, init, j);
      var tail := s[j + 1..];
      assert init[..j] == s[..j] && init[j] == s[j];
      assert tail[..|tail| - 1] == init[j + 1..];
      assert tail[|tail| - 1] == s[|s| - 1];
    }
  }

  lemma MultisetMiddle<U>(a: seq<U>, y: U, b: seq<U>)
    ensures multiset(a + [y] + b) == multiset(a + b) + multiset{y}
  {
  }

  /** Two equal entries make their value occur at least twice. */
  lemma PairCount<T>(s: seq<T>, p: nat, q: nat)
    requires p < q < |s|
    ensures s[p] == s[q] ==> multiset(s)[s[p]] >= 2
  {
    if s[p] == s[q] {
      assert s == s[..p] + [s[p]] + s[p + 1..q] + [s[q]] + s[q + 1..];
    }
  }

  /** In a sequence without repeats every value occurs at most once. */
  lemma {:induction false} CountAtMostOne<T>(s: seq<T>, x: T)
    requires NoDuplicates(s)
    ensures multiset(s)[x] <= 1
    decreases |s|
  {
    if |s| > 0 {
      var init := s[..|s| - 1];
      assert s == init + [s[|s| - 1]];
      assert NoDuplicates(init);
      CountAtMostOne(init, x);
      forall p | 0 <= p < |init|
        ensures init[p] != s[|s| - 1]
      {
        assert init[p] == s[p];
      }
      assert s[|s| - 1] == x ==> x !in init;
    }
  }

  /** A permutation of a sequence without repeats has none either. */
  lemma PermutationNoDuplicates<T>(s: seq<T>, t: seq<T>)
    requires multiset(s) == multiset(t) && NoDuplicates(s)
    ensures NoDuplicates(t)
  {
    forall p, q | 0 <= p < q < |t|
      ensures t[p] != t[q]
    {
      PairCount(t, p, q);
      CountAtMostOne(s, t[p]);
    }
  }
}
