/** The older single-server path of runIperf3Tests (cmd/root.go:2617-3009):
    a wider coordinate table, a distance sort, a 2x capacity filter with a
    fall-back to every candidate, grouping by continent, and the choice of
    up to two nearby servers plus one per other continent. */
module LegacySelection {
  import opened GoText
  import opened GoNumbers
  import opened Catalog
  import opened Scoring
  import opened Sorting
  import opened Collections
  import opened Selection

  /** A feed entry that resolved to a location, with its declared continent. */
  datatype Site = Site(
    host: string, port: int, city: string, country: string, continent: string,
    distance: nat, command: string, options: string, bandwidth: string, provider: string)

  /** A site with its parsed capacity in Gbps. */
  datatype Rated = Rated(s: Site, gbps: real)

  /** The coordinate table of cmd/root.go:2657-2728: the netblast table plus
      Canada, Brazil, India, Russia and South Africa. */
  function LegacyCoordinates(country: string, site: string): Option<Coord> {
    if country == "US" then
      Some(if site == "New York" then Coord(40.7128, -74.0060)
           else if site == "Los Angeles" then Coord(34.0522, -118.2437)
           else if site == "Miami" then Coord(25.7617, -80.1918)
           else if site == "Chicago" then Coord(41.8781, -87.6298)
           else if site == "Dallas" then Coord(32.7767, -96.7970)
           else if site == "San Francisco" then Coord(37.7749, -122.4194)
           else if site == "Seattle" then Coord(47.6062, -122.3321)
           else if site == "Houston" then Coord(29.7604, -95.3698)
           else Coord(37.0902, -95.7129))
    else if country == "UK" || country == "GB" then
      Some(if site == "London" then Coord(51.5074, -0.1278) else Coord(55.3781, -3.4360))
    else if country == "FR" then
      Some(if site == "Paris" then Coord(48.8566, 2.3522) else Coord(46.2276, 2.2137))
    else if country == "DE" then
      Some(if site == "Frankfurt" then Coord(50.1109, 8.6821)
           else if site == "Berlin" then Coord(52.5200, 13.4050)
           else Coord(51.1657, 10.4515))
    else if country == "NL" then Some(Coord(52.3676, 4.9041))
    else if country == "SG" then Some(Coord(1.3521, 103.8198))
    else if country == "JP" then Some(Coord(35.6762, 139.6503))
    else if country == "AU" then
      Some(if site == "Sydney" then Coord(-33.8688, 151.2093) else Coord(-25.2744, 133.7751))
    else if country == "CA" then Some(Coord(56.1304, -106.3468))
    else if country == "BR" then Some(Coord(-14.2350, -51.9253))
    else if country == "IN" then Some(Coord(20.5937, 78.9629))
    else if country == "RU" then Some(Coord(61.5240, 105.3188))
    else if country == "ZA" then Some(Coord(-30.5595, 22.9375))
    else None
  }

  /** The countries only the older table lists. */
  predicate LegacyOnly(country: string) {
    country in {"CA", "BR", "IN", "RU", "ZA"}
  }

  /** The older table agrees with the netblast table wherever that one
      resolves, and resolves exactly five more countries. */
  lemma LegacyTableExtends(country: string, site: string)
    ensures NetblastCoordinates(country, site).Some? ==>
              LegacyCoordinates(country, site) == NetblastCoordinates(country, site)
    ensures LegacyCoordinates(country, site).Some? <==> Listed(country) || LegacyOnly(country)
  {
  }

  /** One feed entry as the older path keeps it, or `None` when its country
      is not in the table. */
  function LegacyEntry(e: FeedEntry, self: Coord, distanceKm: (Coord, Coord) -> nat): Option<Site> {
    match LegacyCoordinates(e.country, e.site)
    case None => None
    case Some(at) =>
      var parts := CommandTokens(e.ipHost);
      Some(Site(parts[0], PortFrom(parts, 1), e.site, e.country, e.continent, distanceKm(self, at),
                e.ipHost, e.options, e.gbs, e.provider))
  }

  function LegacySites(feed: seq<FeedEntry>, self: Coord, distanceKm: (Coord, Coord) -> nat): (r: seq<Site>)
    ensures |r| <= |feed|
    decreases |feed|
  {
    if |feed| == 0 then []
    else
      var rest := LegacySites(feed[..|feed| - 1], self, distanceKm);
      match LegacyEntry(feed[|feed| - 1], self, distanceKm)
      case None => rest
      case Some(x) => rest + [x]
  }

  /** The record loop of cmd/root.go:2617-2759. */
  method NormaliseLegacy(feed: seq<FeedEntry>, self: Coord, distanceKm: (Coord, Coord) -> nat)
    returns (sites: seq<Site>)
    ensures sites == LegacySites(feed, self, distanceKm)
  {
    sites := [];
    var n := 0;
    while n < |feed|
      invariant n <= |feed|
      invariant sites == LegacySites(feed[..n], self, distanceKm)
    {
      var server := feed[n];
      assert feed[..n + 1][..n] == feed[..n];
      var parts := Split(TrimPrefix(server.ipHost, ClientPrefix), ' ');
      var host := parts[0];
      var port := ScanPort(parts);
      var at := LegacyCoordinates(server.country, server.site);
      n := n + 1;
      if at.None? {
        continue;
      }
      var distance := distanceKm(self, at.value);
      sites := sites + [Site(host, port, server.site, server.country, server.continent, distance,
                             server.ipHost, server.options, server.gbs, server.provider)];
    }
    assert feed[..|feed|] == feed;
  }

  /** The older path keeps every entry the netblast path keeps, and more. */
  lemma {:induction false} LegacyKeepsMore(feed: seq<FeedEntry>, self: Coord, distanceKm: (Coord, Coord) -> nat)
    ensures |Normalised(feed, self, distanceKm)| <= |LegacySites(feed, self, distanceKm)|
    decreases |feed|
  {
    if |feed| > 0 {
      var e := feed[|feed| - 1];
      LegacyKeepsMore(feed[..|feed| - 1], self, distanceKm);
      LegacyTableExtends(e.country, e.site);
      NetblastCoordinatesKnown(e.country, e.site);
    }
  }

  /** The speed estimate of this path: the speed-test reading when positive,
      else 1000 Mbps; no upper clamp. */
  function LegacyEstimate(downloadMbps: real): (r: real)
    ensures downloadMbps > 0.0 ==> r == downloadMbps
    ensures downloadMbps <= 0.0 ==> r == 1000.0
  {
    if downloadMbps > 0.0 then downloadMbps else 1000.0
  }

  /** Both paths estimate alike up to 10 Gbps; above it only netblast
      assumes 25 Gbps. */
  lemma EstimatesAgree(downloadMbps: real)
    ensures downloadMbps <= 10000.0 ==> LegacyEstimate(downloadMbps) == EstimateBandwidth(downloadMbps)
    ensures downloadMbps > 10000.0 ==>
              LegacyEstimate(downloadMbps) == downloadMbps && EstimateBandwidth(downloadMbps) == 25000.0
  {
  }

  function Rate(s: Site): Rated {
    Rated(s, CapacityGbps(s.bandwidth))
  }

  /** The sites whose capacity in Mbps is at least twice `estimate`, in order. */
  function CapacityTier(sites: seq<Site>, estimate: real): (r: seq<Rated>)
    ensures |r| <= |sites|
    decreases |sites|
  {
    if |sites| == 0 then []
    else
      var init := CapacityTier(sites[..|sites| - 1], estimate);
      var last := sites[|sites| - 1];
      if CapacityGbps(last.bandwidth) * 1000.0 >= estimate * 2.0 then init + [Rate(last)] else init
  }

  /** The tier holds exactly the rated sites of at least twice the estimate. */
  lemma {:induction false} CapacityTierFacts(sites: seq<Site>, estimate: real)
    ensures var r := CapacityTier(sites, estimate);
      (forall x :: x in r ==> x.s in sites && x == Rate(x.s) && x.gbps * 1000.0 >= estimate * 2.0)
      && (forall x :: x in sites && CapacityGbps(x.bandwidth) * 1000.0 >= estimate * 2.0 ==> Rate(x) in r)
    decreases |sites|
  {
    if |sites| > 0 {
      var init := sites[..|sites| - 1];
      CapacityTierFacts(init, estimate);
      assert sites == init + [sites[|sites| - 1]];
    }
  }

  /** The candidates grouped next: the capacity tier when it holds at least
      three, otherwise every site. */
  function LegacyPool(sites: seq<Site>, estimate: real): seq<Rated> {
    var tier := CapacityTier(sites, estimate);
    if |tier| < 3 then Map(Rate, sites) else tier
  }

  /** The filter of cmd/root.go:2794-2851 and the fall-back of 2854-2906. */
  method FilterByCapacity(sites: seq<Site>, estimate: real) returns (pool: seq<Rated>)
    ensures pool == LegacyPool(sites, estimate)
  {
    pool := CapacityFilter(sites, estimate);
    if |pool| < 3 {
      pool := RateAll(sites);
    }
  }

  /** The loop keeping the sites of at least twice the estimate. */
  method CapacityFilter(sites: seq<Site>, estimate: real) returns (pool: seq<Rated>)
    ensures pool == CapacityTier(sites, estimate)
  {
    pool := [];
    var n := 0;
    while n < |sites|
      invariant 0 <= n <= |sites|
      invariant pool == CapacityTier(sites[..n], estimate)
    {
      CapacityTierStep(sites, n, estimate);
      pool := KeepIfFast(pool, sites[n], estimate);
      n := n + 1;
    }
    assert sites[..n] == sites;
  }

  /** One pass of the filter loop's body. */
  method KeepIfFast(pool: seq<Rated>, site: Site, estimate: real) returns (r: seq<Rated>)
    ensures r == pool + (if CapacityGbps(site.bandwidth) * 1000.0 >= estimate * 2.0 then [Rate(site)] else [])
  {
    var gbps := CapacityGbps(site.bandwidth);
    r := pool;
    if gbps * 1000.0 >= estimate * 2.0 {
      r := pool + [Rated(site, gbps)];
    }
  }

  /** The tier of one more site. */
  lemma CapacityTierStep(sites: seq<Site>, n: nat, estimate: real)
    requires n < |sites|
    ensures CapacityTier(sites[..n + 1], estimate)
            == CapacityTier(sites[..n], estimate)
               + (if CapacityGbps(sites[n].bandwidth) * 1000.0 >= estimate * 2.0 then [Rate(sites[n])] else [])
  {
    assert sites[..n + 1][..n] == sites[..n];
  }

  /** The fall-back loop taking every site. */
  method RateAll(sites: seq<Site>) returns (pool: seq<Rated>)
    ensures pool == Map(Rate, sites)
  {
    pool := [];
    for k := 0 to |sites|
      invariant pool == Map(Rate, sites[..k])
    {
      assert sites[..k + 1][..k] == sites[..k];
      pool := pool + [Rated(sites[k], CapacityGbps(sites[k].bandwidth))];
    }
    assert sites[..|sites|] == sites;
  }

  /** The pool keeps at least three sites whenever three resolved, keeps them
      in distance order, and never invents one. */
  lemma LegacyPoolFacts(sites: seq<Site>, estimate: real)
    ensures var pool := LegacyPool(sites, estimate);
      (|pool| >= 3 || pool == Map(Rate, sites))
      && (forall x :: x in pool ==> x.s in sites && x == Rate(x.s))
  {
    CapacityTierFacts(sites, estimate);
  }

  /** The continent names the inference produces. */
  const Continents: set<string> :=
    {"North America", "South America", "Europe", "Asia", "Oceania", "Africa", "Unknown"}

  /** A country code's continent (cmd/root.go:2924-2943 for sites, 2948-2962
      for the operator; the two tables are the same). */
  function ContinentOf(country: string): (r: string)
    ensures r in Continents
  {
    if country in {"US", "CA", "MX"} then "North America"
    else if country in {"BR", "AR", "CL", "CO", "PE", "VE"} then "South America"
    else if country in {"GB", "UK", "FR", "DE", "IT", "ES", "NL", "BE", "CH", "AT", "SE",
                        "NO", "DK", "FI", "PL", "CZ", "HU", "RO", "BG", "GR", "PT", "IE"} then "Europe"
    else if country in {"CN", "JP", "KR", "IN", "SG", "MY", "TH", "VN", "ID", "PH"} then "Asia"
    else if country in {"AU", "NZ"} then "Oceania"
    else if country in {"ZA", "EG", "NG", "KE", "MA", "DZ", "TN"} then "Africa"
    else "Unknown"
  }

  /** Every country of the coordinate table gets a real continent but
      Russia, which the inference does not list. */
  lemma TableContinents(country: string)
    requires Listed(country) || LegacyOnly(country)
    ensures ContinentOf(country) == "Unknown" <==> country == "RU"
  {
  }

  /** The declared continent, or the inferred one when the feed leaves it empty. */
  function ContinentOfSite(x: Rated): string {
    if x.s.continent == "" then ContinentOf(x.s.country) else x.s.continent
  }

  /** The pool's sites on continent `c`, in pool order. */
  function Bucket(pool: seq<Rated>, c: string): (r: seq<Rated>)
    ensures |r| <= |pool|
    ensures forall x :: x in r ==> x in pool && ContinentOfSite(x) == c
    decreases |pool|
  {
    if |pool| == 0 then []
    else
      var init := Bucket(pool[..|pool| - 1], c);
      var last := pool[|pool| - 1];
      assert pool == pool[..|pool| - 1] + [last];
      if ContinentOfSite(last) == c then init + [last] else init
  }

  /** Every pooled server on continent `c` is in its group. */
  lemma {:induction false} BucketComplete(pool: seq<Rated>, c: string, x: Rated)
    requires x in pool && ContinentOfSite(x) == c
    ensures x in Bucket(pool, c)
    decreases |pool|
  {
    var init := pool[..|pool| - 1];
    assert pool == init + [pool[|pool| - 1]];
    if x != pool[|pool| - 1] {
      BucketComplete(init, c, x);
    }
  }

  /** `groups` is the grouping of `pool` by continent. */
  ghost predicate Grouped(groups: map<string, seq<Rated>>, pool: seq<Rated>) {
    forall c :: (c in groups ==> groups[c] == Bucket(pool, c) && |groups[c]| > 0)
      && (c !in groups ==> Bucket(pool, c) == [])
  }

  /** The grouping loop of cmd/root.go:2923-2945. */
  method GroupByContinent(pool: seq<Rated>) returns (groups: map<string, seq<Rated>>)
    ensures Grouped(groups, pool)
  {
    groups := map[];
    for n := 0 to |pool|
      invariant Grouped(groups, pool[..n])
    {
      var server := pool[n];
      assert pool[..n + 1][..n] == pool[..n];
      assert pool[..n + 1] == pool[..n] + [server];
      var continent := server.s.continent;
      if continent == "" {
        continent := ContinentOf(server.s.country);
      }
      var bucket := if continent in groups then groups[continent] else [];
      groups := groups[continent := bucket + [server]];
    }
    assert pool[..|pool|] == pool;
  }

  /** The other continents, in the order they are tried. */
  const ContinentOrder: seq<string> := ["Europe", "North America", "Asia", "South America", "Oceania", "Africa"]

  /** The farthest a server on another continent may be, in km. */
  const FarLimit: nat := 15000

  /** Up to two nearest servers on the operator's continent. */
  function Home(pool: seq<Rated>, user: string): (r: seq<Rated>)
    ensures |r| <= 2
  {
    var b := Bucket(pool, user);
    b[..Min(2, |b|)]
  }

  /** The pick for continent `c`: its first server, when `c` is not the
      operator's continent and that server is nearer than the limit. */
  function Pick(pool: seq<Rated>, user: string, c: string): (r: seq<Rated>)
    ensures |r| <= 1
    ensures r != [] <==> c != user && Bucket(pool, c) != [] && Bucket(pool, c)[0].s.distance < FarLimit
    ensures r != [] ==> r[0] == Bucket(pool, c)[0] && ContinentOfSite(r[0]) == c && r[0] in pool
  {
    var b := Bucket(pool, c);
    if c != user && |b| > 0 && b[0].s.distance < FarLimit then
      assert b[0] in b;
      [b[0]]
    else []
  }

  /** The picks for the continents of `order`, in that order. */
  function Away(pool: seq<Rated>, user: string, order: seq<string>): (r: seq<Rated>)
    ensures |r| <= |order|
    decreases |order|
  {
    if |order| == 0 then [] else Pick(pool, user, order[0]) + Away(pool, user, order[1..])
  }

  /** The servers chosen: the home picks, then the other continents' picks,
      cut at five. */
  function LegacyChoice(pool: seq<Rated>, user: string): seq<Rated> {
    var all := Home(pool, user) + Away(pool, user, ContinentOrder);
    if |all| > MaxServers then all[..MaxServers] else all
  }

  /** The selection of cmd/root.go:2967-3009 over the continent groups. */
  method SelectLegacy(groups: map<string, seq<Rated>>, pool: seq<Rated>, user: string)
    returns (selected: seq<Rated>)
    requires Grouped(groups, pool)
    ensures selected == LegacyChoice(pool, user)
  {
    selected := [];
    if user in groups && |groups[user]| > 0 {
      var servers := groups[user];
      var count := Min(2, |servers|);
      for i := 0 to count
        invariant selected == servers[..i]
      {
        selected := selected + [servers[i]];
      }
    }
    assert selected == Home(pool, user);
    selected := AwayPass(groups, pool, user, ContinentOrder, selected);
    if |selected| > 5 {
      selected := selected[..5];
    }
  }

  /** The loop over the other continents (cmd/root.go:2992-3004). */
  method AwayPass(groups: map<string, seq<Rated>>, pool: seq<Rated>, user: string,
                  order: seq<string>, start: seq<Rated>)
    returns (selected: seq<Rated>)
    requires Grouped(groups, pool)
    ensures selected == start + Away(pool, user, order)
  {
    selected := start;
    for k := 0 to |order|
      invariant selected + Away(pool, user, order[k..]) == start + Away(pool, user, order)
    {
      var continent := order[k];
      AwayUnfold(pool, user, order, k);
      if continent == user {
        continue;
      }
      if continent in groups && |groups[continent]| > 0 {
        if groups[continent][0].s.distance < 15000 {
          selected := selected + [groups[continent][0]];
        }
      }
    }
    assert order[|order|..] == [];
  }

  lemma AwayUnfold(pool: seq<Rated>, user: string, order: seq<string>, k: nat)
    requires k < |order|
    ensures Away(pool, user, order[k..]) == Pick(pool, user, order[k]) + Away(pool, user, order[k + 1..])
  {
    assert order[k..][1..] == order[k + 1..];
  }

  /** Each pick from `order` is the first server of a continent of `order`
      other than the operator's, and nearer than the limit. */
  lemma {:induction false} AwayFacts(pool: seq<Rated>, user: string, order: seq<string>)
    ensures forall x :: x in Away(pool, user, order) ==> AwayPick(pool, user, order, x)
    decreases |order|
  {
    if |order| > 0 {
      AwayFacts(pool, user, order[1..]);
      forall x | x in Away(pool, user, order)
        ensures AwayPick(pool, user, order, x)
      {
        var p := Pick(pool, user, order[0]);
        if x !in p {
          assert x in Away(pool, user, order[1..]);
          assert AwayPick(pool, user, order[1..], x);
        }
      }
    }
  }

  /** `x` is the first server of a continent of `order` other than `user`,
      nearer than the limit. */
  predicate AwayPick(pool: seq<Rated>, user: string, order: seq<string>, x: Rated) {
    var c := ContinentOfSite(x);
    c in order && c != user && x in pool && Bucket(pool, c) != [] && x == Bucket(pool, c)[0]
      && x.s.distance < FarLimit
  }

  /** Over an order without repeats, no two picks share a continent. */
  lemma {:induction false} AwayDistinct(pool: seq<Rated>, user: string, order: seq<string>)
    requires NoDuplicates(order)
    ensures NoDuplicates(Map(ContinentOfSite, Away(pool, user, order)))
    decreases |order|
  {
    if |order| > 0 {
      var rest := order[1..];
      assert NoDuplicates(rest) by {
        forall p, q | 0 <= p < q < |rest|
          ensures rest[p] != rest[q]
        {
          assert rest[p] == order[p + 1] && rest[q] == order[q + 1];
        }
      }
      assert order[0] !in rest by {
        forall p | 0 <= p < |rest|
          ensures rest[p] != order[0]
        {
          assert rest[p] == order[p + 1];
        }
      }
      AwayDistinct(pool, user, rest);
      AwayFacts(pool, user, rest);
      var p := Pick(pool, user, order[0]);
      var later := Away(pool, user, rest);
      var m := Map(ContinentOfSite, later);
      MapAppend(ContinentOfSite, p, later);
      assert order[0] !in m by {
        forall y | y in m
          ensures y != order[0]
        {
          var j :| 0 <= j < |m| && m[j] == y;
          assert later[j] in later;
        }
      }
      if p != [] {
        assert Map(ContinentOfSite, p) == [order[0]];
        PrependFresh(order[0], m);
      } else {
        assert Map(ContinentOfSite, p) == [];
        assert [] + m == m;
      }
    }
  }

  /** Every home pick is on the operator's continent and comes from the pool. */
  lemma HomeFacts(pool: seq<Rated>, user: string)
    ensures var h := Home(pool, user);
      h == Bucket(pool, user)[..|h|]
      && (forall i :: 0 <= i < |h| ==> ContinentOfSite(h[i]) == user && h[i] in pool)
      && (|h| == 2 || h == Bucket(pool, user))
  {
    var b := Bucket(pool, user);
    var h := Home(pool, user);
    forall i | 0 <= i < |h|
      ensures ContinentOfSite(h[i]) == user && h[i] in pool
    {
      assert h[i] == b[i] && b[i] in b;
    }
  }

  /** At most five servers, first up to two nearest on the operator's
      continent, the rest at most one per other continent, each the first of
      its group and nearer than 15000 km. */
  lemma LegacyChoiceFacts(pool: seq<Rated>, user: string)
    ensures var r := LegacyChoice(pool, user);
      var h := Home(pool, user);
      |r| <= MaxServers
      && r[..|h|] == h
      && (forall i :: 0 <= i < |h| ==> ContinentOfSite(r[i]) == user && r[i] in pool)
      && (forall i :: |h| <= i < |r| ==> AwayPick(pool, user, ContinentOrder, r[i]))
      && (forall i, j :: |h| <= i < j < |r| ==> ContinentOfSite(r[i]) != ContinentOfSite(r[j]))
  {
    ChoiceHome(pool, user);
    ChoiceAway(pool, user);
    ChoiceDistinct(pool, user);
  }

  lemma ChoiceHome(pool: seq<Rated>, user: string)
    ensures var r := LegacyChoice(pool, user);
      var h := Home(pool, user);
      |r| <= MaxServers
      && r[..|h|] == h
      && (forall i :: 0 <= i < |h| ==> ContinentOfSite(r[i]) == user && r[i] in pool)
  {
    var h := Home(pool, user);
    var r := LegacyChoice(pool, user);
    HomeFacts(pool, user);
    ChoiceParts(h, Away(pool, user, ContinentOrder), r);
    forall i | 0 <= i < |h|
      ensures r[i] == h[i]
    {
      assert r[..|h|][i] == r[i];
    }
  }

  lemma ChoiceAway(pool: seq<Rated>, user: string)
    ensures var r := LegacyChoice(pool, user);
      forall i :: |Home(pool, user)| <= i < |r| ==> AwayPick(pool, user, ContinentOrder, r[i])
  {
    var h := Home(pool, user);
    var a := Away(pool, user, ContinentOrder);
    var r := LegacyChoice(pool, user);
    ChoiceParts(h, a, r);
    AwayFacts(pool, user, ContinentOrder);
    forall i | |h| <= i < |r|
      ensures AwayPick(pool, user, ContinentOrder, r[i])
    {
      assert a[i - |h|] in a;
    }
  }

  lemma ChoiceDistinct(pool: seq<Rated>, user: string)
    ensures var r := LegacyChoice(pool, user);
      forall i, j :: |Home(pool, user)| <= i < j < |r| ==> ContinentOfSite(r[i]) != ContinentOfSite(r[j])
  {
    var h := Home(pool, user);
    var a := Away(pool, user, ContinentOrder);
    var r := LegacyChoice(pool, user);
    ChoiceParts(h, a, r);
    OrderDistinct();
    AwayDistinct(pool, user, ContinentOrder);
    var m := Map(ContinentOfSite, a);
    forall i, j | |h| <= i < j < |r|
      ensures ContinentOfSite(r[i]) != ContinentOfSite(r[j])
    {
      assert m[i - |h|] == ContinentOfSite(r[i]) && m[j - |h|] == ContinentOfSite(r[j]);
    }
  }

  lemma OrderDistinct()
    ensures NoDuplicates(ContinentOrder)
  {
  }

  /** A prefix of `h + a` longer than `h` is `h` followed by a prefix of `a`. */
  lemma ChoiceParts(h: seq<Rated>, a: seq<Rated>, r: seq<Rated>)
    requires |h| <= 2
    requires r == if |h + a| > MaxServers then (h + a)[..MaxServers] else h + a
    ensures |r| <= MaxServers && r[..|h|] == h
    ensures forall i :: |h| <= i < |r| ==> r[i] == a[i - |h|]
  {
  }

  /** Nothing is chosen exactly when the operator's continent has no server
      and every other continent's first server is missing or too far. */
  lemma LegacyChoiceEmpty(pool: seq<Rated>, user: string)
    ensures LegacyChoice(pool, user) == [] <==>
      Bucket(pool, user) == []
      && forall k :: 0 <= k < |ContinentOrder| ==>
           var b := Bucket(pool, ContinentOrder[k]);
           ContinentOrder[k] == user || b == [] || b[0].s.distance >= FarLimit
  {
    EmptyAway(pool, user, ContinentOrder);
  }

  lemma {:induction false} EmptyAway(pool: seq<Rated>, user: string, order: seq<string>)
    ensures Away(pool, user, order) == [] <==>
      forall k :: 0 <= k < |order| ==>
        var b := Bucket(pool, order[k]);
        order[k] == user || b == [] || b[0].s.distance >= FarLimit
    decreases |order|
  {
    if |order| > 0 {
      EmptyAway(pool, user, order[1..]);
      forall k | 1 <= k < |order|
        ensures order[k] == order[1..][k - 1]
      {
      }
    }
  }

  /** A pool in distance order gives each continent's group in distance
      order, so the home picks and each other continent's pick are the
      nearest servers of their continent. */
  lemma {:induction false} BucketSorted(pool: seq<Rated>, c: string)
    requires NonIncreasing(pool, RatedNearness)
    ensures NonIncreasing(Bucket(pool, c), RatedNearness)
    decreases |pool|
  {
    if |pool| > 0 {
      var init := pool[..|pool| - 1];
      var last := pool[|pool| - 1];
      assert NonIncreasing(init, RatedNearness) by {
        forall p, q | 0 <= p < q < |init|
          ensures RatedNearness(init[p]) >= RatedNearness(init[q])
        {
          assert init[p] == pool[p] && init[q] == pool[q];
        }
      }
      BucketSorted(init, c);
      var b := Bucket(init, c);
      forall x | x in b
        ensures RatedNearness(x) >= RatedNearness(last)
      {
        var p :| 0 <= p < |init| && init[p] == x;
        assert pool[p] == x;
      }
    }
  }

  function SiteNearness(s: Site): real {
    -(s.distance as real)
  }

  function RatedNearness(x: Rated): real {
    SiteNearness(x.s)
  }

  /** The capacity filter keeps the distance order. */
  lemma {:induction false} TierSorted(sites: seq<Site>, estimate: real)
    requires NonIncreasing(sites, SiteNearness)
    ensures NonIncreasing(CapacityTier(sites, estimate), RatedNearness)
    decreases |sites|
  {
    if |sites| > 0 {
      var init := sites[..|sites| - 1];
      var last := sites[|sites| - 1];
      NonIncreasingInit(sites, SiteNearness);
      TierSorted(init, estimate);
      var tier := CapacityTier(init, estimate);
      if CapacityGbps(last.bandwidth) * 1000.0 >= estimate * 2.0 {
        CapacityTierFacts(init, estimate);
        forall x | x in tier
          ensures RatedNearness(x) >= RatedNearness(Rate(last))
        {
          var p :| 0 <= p < |init| && init[p] == x.s;
          assert sites[p] == x.s;
        }
        AppendSmallest(tier, Rate(last), RatedNearness);
      }
    }
  }

  /** The pool is in distance order when the sites are. */
  lemma LegacyPoolSorted(sites: seq<Site>, estimate: real)
    requires NonIncreasing(sites, SiteNearness)
    ensures NonIncreasing(LegacyPool(sites, estimate), RatedNearness)
  {
    TierSorted(sites, estimate);
  }
}
