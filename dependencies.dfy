/** The report of dependencies still missing after the install attempts
    (cmd/root.go:4798-4808): the missing packages without repeats, in the
    order they were first listed, joined into the error message. */
module Dependencies {
  import opened GoText
  import opened GoNumbers
  import opened Collections

  /** The packages of `items`, each at its first occurrence. */
  function FirstOccurrences(items: seq<string>): (r: seq<string>)
    decreases |items|
  {
    if |items| == 0 then []
    else
      var init := FirstOccurrences(items[..|items| - 1]);
      var last := items[|items| - 1];
      if last in init then init else init + [last]
  }

  /** No package twice, and exactly the listed packages. */
  lemma {:induction false} FirstOccurrencesFacts(items: seq<string>)
    ensures NoDuplicates(FirstOccurrences(items))
    ensures forall x :: x in FirstOccurrences(items) <==> x in items
    decreases |items|
  {
    if |items| > 0 {
      var prefix := items[..|items| - 1];
      var last := items[|items| - 1];
      FirstOccurrencesFacts(prefix);
      var init := FirstOccurrences(prefix);
      if last !in init {
        AppendFresh(init, last);
      }
      assert items == prefix + [last];
    }
  }

  /** A list without repeats is reported as it is. */
  lemma {:induction false} FirstOccurrencesOfUnique(items: seq<string>)
    requires NoDuplicates(items)
    ensures FirstOccurrences(items) == items
    decreases |items|
  {
    if |items| > 0 {
      var prefix := items[..|items| - 1];
      var last := items[|items| - 1];
      assert NoDuplicates(prefix);
      FirstOccurrencesOfUnique(prefix);
      forall p | 0 <= p < |prefix|
        ensures prefix[p] != last
      {
        assert prefix[p] == items[p];
      }
      assert items == prefix + [last];
    }
  }

  /** Removing repeats twice is removing them once. */
  lemma FirstOccurrencesIdempotent(items: seq<string>)
    ensures FirstOccurrences(FirstOccurrences(items)) == FirstOccurrences(items)
  {
    FirstOccurrencesFacts(items);
    FirstOccurrencesOfUnique(FirstOccurrences(items));
  }

  /** The order of first occurrences: what the first `i` items report is the
      start of what the whole list reports, so no later package is reported
      ahead of an earlier one. */
  lemma {:induction false} FirstOccurrencesPrefix(items: seq<string>, i: nat)
    requires i <= |items|
    ensures HasPrefixSeq(FirstOccurrences(items), FirstOccurrences(items[..i]))
    decreases |items|
  {
    if i < |items| {
      var prefix := items[..|items| - 1];
      assert prefix[..i] == items[..i];
      FirstOccurrencesPrefix(prefix, i);
    } else {
      assert items[..i] == items;
    }
  }

  /** `q` is the start of `s`. */
  predicate HasPrefixSeq(s: seq<string>, q: seq<string>) {
    |q| <= |s| && s[..|q|] == q
  }

  /** The loop with a set of the packages seen so far. */
  method RemoveDuplicates(items: seq<string>) returns (unique: seq<string>)
    ensures unique == FirstOccurrences(items)
  {
    var seen: set<string> := {};
    unique := [];
    for i := 0 to |items|
      invariant unique == FirstOccurrences(items[..i])
      invariant forall x :: x in seen <==> x in unique
    {
      assert items[..i + 1][..i] == items[..i];
      var item := items[i];
      if item !in seen {
        seen := seen + {item};
        unique := unique + [item];
      }
    }
    assert items[..|items|] == items;
  }

  /** The error for the packages still missing, or `None` when there are
      none. */
  function MissingError(missing: seq<string>): (r: Option<string>)
    ensures r.None? <==> |missing| == 0
  {
    if |missing| == 0 then None
    else Some("still missing required commands/extensions: " + Join(FirstOccurrences(missing), ", ")
              + ". Please install them manually or ensure auto-install succeeded")
  }
}
