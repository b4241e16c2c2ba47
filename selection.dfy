/** The two-tier server pool and the diversity-first choice of at most five
    servers in runNetblastTests (cmd/root.go:3614-3740). */
module Selection {
  import opened Catalog
  import opened Scoring
  import opened Collections
  import opened Sorting

  const MaxServers: nat := 5
  const FallbackPoolSize: nat := 10

  /** Go's `min` on ints (cmd/root.go:4024-4029). */
  function Min(a: int, b: int): (r: int)
    ensures r <= a && r <= b
    ensures r == a || r == b
  {
    if a < b then a else b
  }

  /** Selected servers are told apart by host and port. */
  datatype Key = Key(host: string, port: int)

  function KeyOf(s: Scored): Key {
    Key(s.c.host, s.c.port)
  }

  /** The key of every element, in order. */
  function Keys(s: seq<Scored>): (ks: seq<Key>)
    ensures |ks| == |s|
    ensures forall k :: 0 <= k < |s| ==> ks[k] == KeyOf(s[k])
  {
    if |s| == 0 then [] else Keys(s[..|s| - 1]) + [KeyOf(s[|s| - 1])]
  }

  /** The location string `city,country` compared by the diversity pass. */
  function Location(s: Scored): string {
    s.c.city + "," + s.c.country
  }

  function Providers(sel: seq<Scored>): set<string> {
    set x | x in sel :: x.c.provider
  }

  function Locations(sel: seq<Scored>): set<string> {
    set x | x in sel :: Location(x)
  }

  function ScoreKey(s: Scored): real {
    s.score
  }

  /** The minimum capacity asked of a server: 1.5 times the estimate. */
  function Threshold(estimate: real): real {
    estimate * 1.5
  }

  /** The scored candidates whose capacity in Mbps reaches `threshold`, in
      their original order. */
  function StrictTier(scored: seq<Scored>, threshold: real): (r: seq<Scored>)
    ensures forall x :: x in r ==> x in scored && x.mbps >= threshold
    ensures forall x :: x in scored && x.mbps >= threshold ==> x in r
    ensures |r| <= |scored|
  {
    if |scored| == 0 then []
    else
      var init := StrictTier(scored[..|scored| - 1], threshold);
      var last := scored[|scored| - 1];
      assert scored == scored[..|scored| - 1] + [last];
      if last.mbps >= threshold then init + [last] else init
  }

  /** The pool the selection draws from: the strict tier when it holds at
      least five servers, otherwise the ten best-scored candidates. */
  function Pool(scored: seq<Scored>, estimate: real): seq<Scored> {
    var strict := StrictTier(scored, Threshold(estimate));
    if |strict| < MaxServers then scored[..Min(FallbackPoolSize, |scored|)] else strict
  }

  /** The first pass of cmd/root.go:3633-3640 and the fallback of 3643-3652. */
  method BuildPool(scored: seq<Scored>, estimate: real) returns (pool: seq<Scored>)
    ensures pool == Pool(scored, estimate)
  {
    var minRequired := estimate * 1.5;
    pool := [];
    var n := 0;
    while n < |scored|
      invariant 0 <= n <= |scored|
      invariant pool == StrictTier(scored[..n], minRequired)
    {
      assert scored[..n + 1][..n] == scored[..n];
      if scored[n].mbps >= minRequired {
        pool := pool + [scored[n]];
      }
      n := n + 1;
    }
    assert scored[..n] == scored;
    if |pool| < 5 {
      var count := Min(10, |scored|);
      pool := scored[..count];
    }
  }

  /** Every pooled server is a scored candidate. */
  lemma PoolFromScored(scored: seq<Scored>, estimate: real)
    ensures forall x :: x in Pool(scored, estimate) ==> x in scored
  {
  }

  /** The pool is empty only when there is nothing to choose from, and holds
      at least five servers whenever five were scored. */
  lemma PoolSize(scored: seq<Scored>, estimate: real)
    ensures |Pool(scored, estimate)| >= Min(MaxServers, |scored|)
    ensures |Pool(scored, estimate)| == 0 <==> |scored| == 0
  {
  }

  /** A pool taken from the strict tier meets the capacity threshold; a
      fallback pool is a prefix of the scored list of at most ten. */
  lemma PoolTiers(scored: seq<Scored>, estimate: real)
    ensures var pool := Pool(scored, estimate);
      (|StrictTier(scored, Threshold(estimate))| >= MaxServers ==>
        forall x :: x in pool ==> x.mbps >= Threshold(estimate))
      && (|StrictTier(scored, Threshold(estimate))| < MaxServers ==>
        pool <= scored && |pool| <= FallbackPoolSize)
  {
  }

  /** Filtering keeps the score order. */
  lemma {:induction false} StrictTierSorted(scored: seq<Scored>, threshold: real)
    requires NonIncreasing(scored, ScoreKey)
    ensures NonIncreasing(StrictTier(scored, threshold), ScoreKey)
    decreases |scored|
  {
    if |scored| > 0 {
      var init := scored[..|scored| - 1];
      var last := scored[|scored| - 1];
      assert NonIncreasing(init, ScoreKey);
      StrictTierSorted(init, threshold);
      var r := StrictTier(init, threshold);
      if last.mbps >= threshold {
        forall x | x in r
          ensures ScoreKey(x) >= ScoreKey(last)
        {
          var p :| 0 <= p < |init| && init[p] == x;
          assert scored[p] == x;
        }
        var t := r + [last];
        forall p, q | 0 <= p < q < |t|
          ensures ScoreKey(t[p]) >= ScoreKey(t[q])
        {
          if q == |r| {
            assert t[p] in r;
          } else {
            assert t[p] == r[p] && t[q] == r[q];
          }
        }
      }
    }
  }

  /** Candidates stay in score order in the pool. */
  lemma PoolSorted(scored: seq<Scored>, estimate: real)
    requires NonIncreasing(scored, ScoreKey)
    ensures NonIncreasing(Pool(scored, estimate), ScoreKey)
  {
    StrictTierSorted(scored, Threshold(estimate));
  }

  /** The diversity pass from pool index `i` with `sel` chosen so far: a
      server already chosen is skipped, and so is one whose provider and
      location have both been seen; any other is added, and the pass stops
      once five are chosen. */
  function Diversify(pool: seq<Scored>, i: nat, sel: seq<Scored>): seq<Scored>
    requires i <= |pool|
    decreases |pool| - i
  {
    if i == |pool| then sel
    else
      var s := pool[i];
      if KeyOf(s) in Keys(sel) then Diversify(pool, i + 1, sel)
      else if s.c.provider in Providers(sel) && Location(s) in Locations(sel) then Diversify(pool, i + 1, sel)
      else if |sel + [s]| >= MaxServers then sel + [s]
      else Diversify(pool, i + 1, sel + [s])
  }

  /** The fill pass from pool index `i`: every server not yet chosen is
      added until five are chosen. */
  function Fill(pool: seq<Scored>, i: nat, sel: seq<Scored>): seq<Scored>
    requires i <= |pool|
    decreases |pool| - i
  {
    if i == |pool| then sel
    else
      var s := pool[i];
      if KeyOf(s) in Keys(sel) then Fill(pool, i + 1, sel)
      else if |sel + [s]| >= MaxServers then sel + [s]
      else Fill(pool, i + 1, sel + [s])
  }

  function Head(pool: seq<Scored>): seq<Scored> {
    if |pool| > 0 then [pool[0]] else []
  }

  /** The diversity pass after the head has been taken. */
  function Diverse(pool: seq<Scored>): seq<Scored> {
    Diversify(pool, 0, Head(pool))
  }

  /** The servers chosen from `pool`: the head, the diversity pass, the fill
      pass when fewer than five were chosen, and the cap at five. */
  function Select(pool: seq<Scored>): seq<Scored> {
    var d := Diverse(pool);
    var f := if |d| < MaxServers then Fill(pool, 0, d) else d;
    if |f| > MaxServers then f[..MaxServers] else f
  }

  /** The loops of cmd/root.go:3676-3740: the head, the diversity pass, the
      fill pass and the cap. */
  method SelectServers(pool: seq<Scored>) returns (selected: seq<Scored>)
    ensures selected == Select(pool)
  {
    selected := DiversityPass(pool);
    if |selected| < 5 {
      selected := FillPass(pool, selected);
    }
    if |selected| > 5 {
      selected := selected[..5];
    }
  }

  /** The head and the diversity loop of cmd/root.go:3676-3711, with the two
      `map[string]bool` trackers as sets. */
  method DiversityPass(pool: seq<Scored>) returns (selected: seq<Scored>)
    ensures selected == Diverse(pool)
  {
    var selectedProviders: set<string> := {};
    var selectedLocations: set<string> := {};
    selected := [];
    if |pool| > 0 {
      selected := [pool[0]];
      selectedProviders := {pool[0].c.provider};
      selectedLocations := {Location(pool[0])};
    }
    assert selected == Head(pool);
    var i := 0;
    while i < |pool|
      invariant 0 <= i <= |pool|
      invariant |selected| < MaxServers
      invariant selectedProviders == Providers(selected)
      invariant selectedLocations == Locations(selected)
      invariant Diversify(pool, i, selected) == Diverse(pool)
    {
      var server := pool[i];
      var alreadySelected := IsSelected(selected, server);
      if alreadySelected {
        i := i + 1;
        continue;
      }
      var location := server.c.city + "," + server.c.country;
      if server.c.provider in selectedProviders && location in selectedLocations {
        i := i + 1;
        continue;
      }
      ProvidersAppend(selected, server);
      selected := selected + [server];
      selectedProviders := selectedProviders + {server.c.provider};
      selectedLocations := selectedLocations + {location};
      if |selected| >= 5 {
        return;
      }
      i := i + 1;
    }
  }

  /** The fill loop of cmd/root.go:3714-3735. */
  method FillPass(pool: seq<Scored>, start: seq<Scored>) returns (selected: seq<Scored>)
    requires |start| < MaxServers
    ensures selected == Fill(pool, 0, start)
  {
    selected := start;
    var i := 0;
    while i < |pool|
      invariant 0 <= i <= |pool|
      invariant |selected| < MaxServers
      invariant Fill(pool, i, selected) == Fill(pool, 0, start)
    {
      var server := pool[i];
      var alreadyAdded := IsSelected(selected, server);
      if !alreadyAdded {
        selected := selected + [server];
        if |selected| >= 5 {
          return;
        }
      }
      i := i + 1;
    }
  }

  /** Whether a server with the same host and port is already selected. */
  method IsSelected(selected: seq<Scored>, server: Scored) returns (found: bool)
    ensures found <==> KeyOf(server) in Keys(selected)
  {
    found := false;
    var j := 0;
    while j < |selected|
      invariant 0 <= j <= |selected|
      invariant forall k :: 0 <= k < j ==> Keys(selected)[k] != KeyOf(server)
    {
      if selected[j].c.host == server.c.host && selected[j].c.port == server.c.port {
        found := true;
        break;
      }
      j := j + 1;
    }
  }

  lemma ProvidersAppend(sel: seq<Scored>, s: Scored)
    ensures Providers(sel + [s]) == Providers(sel) + {s.c.provider}
    ensures Locations(sel + [s]) == Locations(sel) + {Location(s)}
  {
    var t := sel + [s];
    assert forall x :: x in t <==> x in sel || x == s;
  }

  lemma KeysAppend(sel: seq<Scored>, s: Scored)
    ensures Keys(sel + [s]) == Keys(sel) + [KeyOf(s)]
  {
    assert (sel + [s])[..|sel|] == sel;
  }

  /** Keys of a prefix are keys of the whole. */
  lemma KeysPrefix(sel: seq<Scored>, r: seq<Scored>)
    requires sel <= r
    ensures forall k :: k in Keys(sel) ==> k in Keys(r)
    ensures Providers(sel) <= Providers(r) && Locations(sel) <= Locations(r)
  {
    forall k | k in Keys(sel)
      ensures k in Keys(r)
    {
      var j :| 0 <= j < |Keys(sel)| && Keys(sel)[j] == k;
      assert Keys(r)[j] == k;
    }
  }

  /** Adding a server whose key is not yet chosen keeps the keys distinct. */
  lemma AppendFreshKey(sel: seq<Scored>, s: Scored)
    requires NoDuplicates(Keys(sel)) && KeyOf(s) !in Keys(sel)
    ensures NoDuplicates(Keys(sel + [s]))
  {
    KeysAppend(sel, s);
    AppendFresh(Keys(sel), KeyOf(s));
  }

  /** The element at `j` brought a provider or a location not seen before it. */
  predicate NewAt(r: seq<Scored>, j: nat)
    requires j < |r|
  {
    r[j].c.provider !in Providers(r[..j]) || Location(r[j]) !in Locations(r[..j])
  }

  /** The diversity pass only extends what was chosen, and stops at five. */
  lemma {:induction false} DiversifyExtends(pool: seq<Scored>, i: nat, sel: seq<Scored>)
    requires i <= |pool| && |sel| < MaxServers
    ensures sel <= Diversify(pool, i, sel) && |Diversify(pool, i, sel)| <= MaxServers
    decreases |pool| - i
  {
    if i < |pool| {
      var s := pool[i];
      if KeyOf(s) in Keys(sel) || (s.c.provider in Providers(sel) && Location(s) in Locations(sel)) {
        DiversifyExtends(pool, i + 1, sel);
      } else if |sel + [s]| < MaxServers {
        DiversifyExtends(pool, i + 1, sel + [s]);
      }
    }
  }

  /** The diversity pass keeps hosts and ports distinct. */
  lemma {:induction false} DiversifyDistinct(pool: seq<Scored>, i: nat, sel: seq<Scored>)
    requires i <= |pool| && NoDuplicates(Keys(sel))
    ensures NoDuplicates(Keys(Diversify(pool, i, sel)))
    decreases |pool| - i
  {
    if i < |pool| {
      var s := pool[i];
      if KeyOf(s) in Keys(sel) || (s.c.provider in Providers(sel) && Location(s) in Locations(sel)) {
        DiversifyDistinct(pool, i + 1, sel);
      } else {
        AppendFreshKey(sel, s);
        if |sel + [s]| < MaxServers {
          DiversifyDistinct(pool, i + 1, sel + [s]);
        }
      }
    }
  }

  /** The diversity pass adds only servers of the pool. */
  lemma {:induction false} DiversifyFromPool(pool: seq<Scored>, i: nat, sel: seq<Scored>)
    requires i <= |pool|
    requires forall x :: x in sel ==> x in pool
    ensures forall x :: x in Diversify(pool, i, sel) ==> x in pool
    decreases |pool| - i
  {
    if i < |pool| {
      var s := pool[i];
      if KeyOf(s) in Keys(sel) || (s.c.provider in Providers(sel) && Location(s) in Locations(sel)) {
        DiversifyFromPool(pool, i + 1, sel);
      } else if |sel + [s]| < MaxServers {
        DiversifyFromPool(pool, i + 1, sel + [s]);
      }
    }
  }

  /** Each server the diversity pass adds brings a provider or a location
      not seen before it. */
  lemma {:induction false} DiversifyNew(pool: seq<Scored>, i: nat, sel: seq<Scored>)
    requires i <= |pool| && |sel| < MaxServers
    ensures var r := Diversify(pool, i, sel);
      forall j :: |sel| <= j < |r| ==> NewAt(r, j)
    decreases |pool| - i
  {
    if i < |pool| {
      var s := pool[i];
      if KeyOf(s) in Keys(sel) || (s.c.provider in Providers(sel) && Location(s) in Locations(sel)) {
        assert Diversify(pool, i, sel) == Diversify(pool, i + 1, sel);
        DiversifyNew(pool, i + 1, sel);
      } else {
        var next := sel + [s];
        var r := Diversify(pool, i, sel);
        assert NewAt(next, |sel|) by {
          assert next[..|sel|] == sel;
        }
        if |next| < MaxServers {
          DiversifyNew(pool, i + 1, next);
          DiversifyExtends(pool, i + 1, next);
          assert r[..|next|] == next;
          assert r[..|sel|] == sel;
          assert NewAt(r, |sel|);
        }
      }
    }
  }

  /** The diversity pass stops short of five only when every later server is
      already chosen or has both its provider and its location seen. */
  lemma DiversifyMaximal(pool: seq<Scored>, i: nat, sel: seq<Scored>)
    requires i <= |pool| && |sel| < MaxServers
    ensures var r := Diversify(pool, i, sel);
      |r| < MaxServers ==> forall j :: i <= j < |pool| ==> Covered(r, pool[j])
  {
    forall j | i <= j < |pool| && |Diversify(pool, i, sel)| < MaxServers
      ensures Covered(Diversify(pool, i, sel), pool[j])
    {
      DiversifyMaximalAt(pool, i, sel, j);
    }
  }

  lemma {:induction false} DiversifyMaximalAt(pool: seq<Scored>, i: nat, sel: seq<Scored>, j: nat)
    requires i <= j < |pool| && |sel| < MaxServers
    requires |Diversify(pool, i, sel)| < MaxServers
    ensures Covered(Diversify(pool, i, sel), pool[j])
    decreases |pool| - i
  {
    var r := Diversify(pool, i, sel);
    var s := pool[i];
    var next := if Covered(sel, s) then sel else sel + [s];
    if !Covered(sel, s) {
      KeysAppend(sel, s);
    }
    assert |next| < MaxServers && r == Diversify(pool, i + 1, next);
    if j == i {
      DiversifyExtends(pool, i + 1, next);
      CoveredPrefix(next, r, s);
    } else {
      DiversifyMaximalAt(pool, i + 1, next, j);
    }
  }

  /** `s` is chosen already, or its provider and location are both seen. */
  predicate Covered(sel: seq<Scored>, s: Scored) {
    KeyOf(s) in Keys(sel) || (s.c.provider in Providers(sel) && Location(s) in Locations(sel))
  }

  lemma CoveredPrefix(sel: seq<Scored>, r: seq<Scored>, s: Scored)
    requires sel <= r && Covered(sel, s)
    ensures Covered(r, s)
  {
    KeysPrefix(sel, r);
  }

  /** The fill pass only extends what was chosen, and stops at five. */
  lemma {:induction false} FillExtends(pool: seq<Scored>, i: nat, sel: seq<Scored>)
    requires i <= |pool| && |sel| < MaxServers
    ensures sel <= Fill(pool, i, sel) && |Fill(pool, i, sel)| <= MaxServers
    decreases |pool| - i
  {
    if i < |pool| {
      var s := pool[i];
      if KeyOf(s) in Keys(sel) {
        FillExtends(pool, i + 1, sel);
      } else if |sel + [s]| < MaxServers {
        FillExtends(pool, i + 1, sel + [s]);
      }
    }
  }

  /** The fill pass keeps hosts and ports distinct. */
  lemma {:induction false} FillDistinct(pool: seq<Scored>, i: nat, sel: seq<Scored>)
    requires i <= |pool| && NoDuplicates(Keys(sel))
    ensures NoDuplicates(Keys(Fill(pool, i, sel)))
    decreases |pool| - i
  {
    if i < |pool| {
      var s := pool[i];
      if KeyOf(s) in Keys(sel) {
        FillDistinct(pool, i + 1, sel);
      } else {
        AppendFreshKey(sel, s);
        if |sel + [s]| < MaxServers {
          FillDistinct(pool, i + 1, sel + [s]);
        }
      }
    }
  }

  /** The fill pass adds only servers of the pool. */
  lemma {:induction false} FillFromPool(pool: seq<Scored>, i: nat, sel: seq<Scored>)
    requires i <= |pool|
    requires forall x :: x in sel ==> x in pool
    ensures forall x :: x in Fill(pool, i, sel) ==> x in pool
    decreases |pool| - i
  {
    if i < |pool| {
      var s := pool[i];
      if KeyOf(s) in Keys(sel) {
        FillFromPool(pool, i + 1, sel);
      } else if |sel + [s]| < MaxServers {
        FillFromPool(pool, i + 1, sel + [s]);
      }
    }
  }

  /** The fill pass stops short of five only when every later server is
      already chosen. */
  lemma FillMaximal(pool: seq<Scored>, i: nat, sel: seq<Scored>)
    requires i <= |pool| && |sel| < MaxServers
    ensures var r := Fill(pool, i, sel);
      |r| < MaxServers ==> forall j :: i <= j < |pool| ==> KeyOf(pool[j]) in Keys(r)
  {
    forall j | i <= j < |pool| && |Fill(pool, i, sel)| < MaxServers
      ensures KeyOf(pool[j]) in Keys(Fill(pool, i, sel))
    {
      FillMaximalAt(pool, i, sel, j);
    }
  }

  lemma {:induction false} FillMaximalAt(pool: seq<Scored>, i: nat, sel: seq<Scored>, j: nat)
    requires i <= j < |pool| && |sel| < MaxServers
    requires |Fill(pool, i, sel)| < MaxServers
    ensures KeyOf(pool[j]) in Keys(Fill(pool, i, sel))
    decreases |pool| - i
  {
    var r := Fill(pool, i, sel);
    var s := pool[i];
    var next := if KeyOf(s) in Keys(sel) then sel else sel + [s];
    if KeyOf(s) !in Keys(sel) {
      KeysAppend(sel, s);
    }
    assert |next| < MaxServers && r == Fill(pool, i + 1, next);
    if j == i {
      FillExtends(pool, i + 1, next);
      KeysPrefix(next, r);
    } else {
      FillMaximalAt(pool, i + 1, next, j);
    }
  }

  lemma HeadFacts(pool: seq<Scored>)
    ensures |Head(pool)| < MaxServers && NoDuplicates(Keys(Head(pool)))
    ensures forall x :: x in Head(pool) ==> x in pool
  {
  }

  /** The diversity pass and the fill pass together, before the cap. */
  lemma SelectFacts(pool: seq<Scored>)
    ensures var d := Diverse(pool);
      var r := Select(pool);
      d <= r && |r| <= MaxServers && NoDuplicates(Keys(r))
      && (forall x :: x in r ==> x in pool)
      && (|r| < MaxServers ==> forall j :: 0 <= j < |pool| ==> KeyOf(pool[j]) in Keys(r))
  {
    HeadFacts(pool);
    var h := Head(pool);
    DiversifyExtends(pool, 0, h);
    DiversifyDistinct(pool, 0, h);
    DiversifyFromPool(pool, 0, h);
    var d := Diverse(pool);
    if |d| < MaxServers {
      FillExtends(pool, 0, d);
      FillDistinct(pool, 0, d);
      FillFromPool(pool, 0, d);
      FillMaximal(pool, 0, d);
    }
  }

  /** Every chosen server comes from the pool, and no two share a host and
      port. */
  lemma SelectFromPool(pool: seq<Scored>)
    ensures forall x :: x in Select(pool) ==> x in pool
    ensures NoDuplicates(Keys(Select(pool)))
  {
    SelectFacts(pool);
  }

  /** The best-scored server of a non-empty pool is always chosen first. */
  lemma SelectHead(pool: seq<Scored>)
    requires |pool| > 0
    ensures |Select(pool)| > 0 && Select(pool)[0] == pool[0]
  {
    DiversifyExtends(pool, 0, Head(pool));
    SelectFacts(pool);
  }

  /** Five servers are chosen when the pool has five distinct hosts and
      ports, otherwise one per distinct host and port; the cap at five never
      cuts anything off. */
  lemma SelectLength(pool: seq<Scored>)
    ensures |Select(pool)| == Min(MaxServers, |Elements(Keys(pool))|)
  {
    SelectFacts(pool);
    LengthFromFacts(Select(pool), pool);
  }

  /** A choice of distinct keys from the pool, at most five, which holds
      every key of the pool when it is short of five, has min(5, keys) elements. */
  lemma LengthFromFacts(r: seq<Scored>, pool: seq<Scored>)
    requires |r| <= MaxServers && NoDuplicates(Keys(r))
    requires forall x :: x in r ==> x in pool
    requires |r| < MaxServers ==> forall j :: 0 <= j < |pool| ==> KeyOf(pool[j]) in Keys(r)
    ensures |r| == Min(MaxServers, |Elements(Keys(pool))|)
  {
    NoDuplicatesCardinality(Keys(r));
    KeysWithin(r, pool);
    SubsetCardinality(Elements(Keys(r)), Elements(Keys(pool)));
    if |r| < MaxServers {
      KeysCover(r, pool);
      assert Elements(Keys(pool)) == Elements(Keys(r));
    }
  }

  /** A selection drawn from the pool has only keys of the pool. */
  lemma KeysWithin(r: seq<Scored>, pool: seq<Scored>)
    requires forall x :: x in r ==> x in pool
    ensures Elements(Keys(r)) <= Elements(Keys(pool))
  {
    forall k | k in Elements(Keys(r))
      ensures k in Elements(Keys(pool))
    {
      var j :| 0 <= j < |r| && Keys(r)[j] == k;
      assert r[j] in r;
      var p :| 0 <= p < |pool| && pool[p] == r[j];
      assert Keys(pool)[p] == k;
    }
  }

  /** A selection that holds every key of the pool has all its keys. */
  lemma KeysCover(r: seq<Scored>, pool: seq<Scored>)
    requires forall j :: 0 <= j < |pool| ==> KeyOf(pool[j]) in Keys(r)
    ensures Elements(Keys(pool)) <= Elements(Keys(r))
  {
    forall k | k in Elements(Keys(pool))
      ensures k in Elements(Keys(r))
    {
      var p :| 0 <= p < |Keys(pool)| && Keys(pool)[p] == k;
      assert KeyOf(pool[p]) in Keys(r);
    }
  }

  lemma SubsetCardinality<T>(a: set<T>, b: set<T>)
    requires a <= b
    ensures |a| <= |b|
  {
    assert b == a + (b - a);
  }

  /** The diversity pass is what the selection starts with: after the head,
      each server it adds brings a provider or a location not seen before;
      and it stops short of five only when every server left out is already
      chosen or repeats both a seen provider and a seen location. */
  lemma SelectDiverseFirst(pool: seq<Scored>)
    ensures var d := Diverse(pool);
      d <= Select(pool)
      && (forall j :: 1 <= j < |d| ==> NewAt(d, j))
      && (|d| < MaxServers ==> forall x :: x in pool ==> Covered(d, x))
  {
    DiversifyNew(pool, 0, Head(pool));
    DiversifyMaximal(pool, 0, Head(pool));
    SelectFacts(pool);
    var d := Diverse(pool);
    forall x | x in pool
      ensures |d| < MaxServers ==> Covered(d, x)
    {
      var j :| 0 <= j < |pool| && pool[j] == x;
    }
  }
}
