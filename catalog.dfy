/** Normalisation of the iperf3 server feed into candidate records: host and
    port from the launch command, coordinates from a static country/site
    table, distance from the operator's position (cmd/root.go, runNetblastTests). */
module Catalog {
  import opened GoText
  import opened GoNumbers

  /** One decoded feed entry (the fields IP_HOST, OPTIONS, GB_S, COUNTRY,
      SITE, CONTINENT and PROVIDER). */
  datatype FeedEntry = FeedEntry(
    ipHost: string, options: string, gbs: string, country: string,
    site: string, continent: string, provider: string)

  datatype Coord = Coord(lat: real, lon: real)

  /** A feed entry that survived coordinate resolution. */
  datatype Candidate = Candidate(
    host: string, port: int, city: string, country: string, distance: nat,
    lat: real, lon: real, command: string, options: string, bandwidth: string,
    provider: string)

  const ClientPrefix: string := "iperf3 -c "
  const DefaultPort: int := 5201

  /** The launch command with the client prefix dropped, split at every space. */
  function CommandTokens(ipHost: string): (parts: seq<string>) {
    Split(TrimPrefix(ipHost, ClientPrefix), ' ')
  }

  /** The host is the first token after the client prefix. */
  function HostOf(ipHost: string): string {
    CommandTokens(ipHost)[0]
  }

  /** The port named by the value after `-p`: the part before the first '-'
      when the value holds one (a range), otherwise the whole value; the
      default when `Atoi` refuses it. No range check is made. */
  function PortValue(v: string): int {
    var portStr := if Contains(v, "-") then Split(v, '-')[0] else v;
    match Atoi(portStr)
    case Some(p) => p
    case None => DefaultPort
  }

  /** The port chosen by scanning `parts` from index `i`: the first `-p` that
      has a token after it decides; without one the default stays. */
  function PortFrom(parts: seq<string>, i: nat): int
    decreases |parts| - i
  {
    if i >= |parts| then DefaultPort
    else if parts[i] == "-p" && i + 1 < |parts| then PortValue(parts[i + 1])
    else PortFrom(parts, i + 1)
  }

  /** The loop of cmd/root.go:3370-3390: scan the tokens after the host for
      the first `-p` with a value, parse it and stop. */
  method ScanPort(parts: seq<string>) returns (port: int)
    ensures port == PortFrom(parts, 1)
  {
    port := DefaultPort;
    var i := 1;
    while i < |parts|
      invariant 1 <= i
      invariant PortFrom(parts, i) == PortFrom(parts, 1)
    {
      if parts[i] == "-p" && i + 1 < |parts| {
        var portRange := parts[i + 1];
        if Contains(portRange, "-") {
          var portParts := Split(portRange, '-');
          var parsed := Atoi(portParts[0]);
          if parsed.Some? {
            port := parsed.value;
          }
        } else {
          var parsed := Atoi(portRange);
          if parsed.Some? {
            port := parsed.value;
          }
        }
        return;
      }
      i := i + 1;
    }
  }

  /** A value after `-p` never yields a negative port: a '-' sends the text
      before it to `Atoi`, and that text holds no '-'. */
  lemma PortValueNonNegative(v: string)
    ensures PortValue(v) >= 0
  {
    var portStr := if Contains(v, "-") then Split(v, '-')[0] else v;
    ContainsChar(v, '-');
    if Contains(v, "-") {
      SplitFirstToken(v, '-');
    }
    assert '-' !in portStr;
    if Atoi(portStr).Some? {
      var (negative, body) := SplitSign(portStr);
      assert !negative;
    }
  }

  lemma {:induction false} PortFromNonNegative(parts: seq<string>, i: nat)
    ensures PortFrom(parts, i) >= 0
    decreases |parts| - i
  {
    if i < |parts| {
      if parts[i] == "-p" && i + 1 < |parts| {
        PortValueNonNegative(parts[i + 1]);
      } else {
        PortFromNonNegative(parts, i + 1);
      }
    }
  }

  /** The port is the value after the first `-p` that has a successor. */
  lemma {:induction false} PortFromFirstFlag(parts: seq<string>, i: nat, j: nat)
    requires i <= j < |parts| - 1 && parts[j] == "-p"
    requires forall k :: i <= k < j ==> parts[k] != "-p"
    ensures PortFrom(parts, i) == PortValue(parts[j + 1])
    decreases j - i
  {
    if i < j {
      assert parts[i] != "-p";
      PortFromFirstFlag(parts, i + 1, j);
    }
  }

  /** Without a `-p` that has a successor the port is the default. */
  lemma {:induction false} PortFromNoFlag(parts: seq<string>, i: nat)
    requires forall j :: i <= j < |parts| - 1 ==> parts[j] != "-p"
    ensures PortFrom(parts, i) == DefaultPort
    decreases |parts| - i
  {
    if i < |parts| {
      PortFromNoFlag(parts, i + 1);
    }
  }

  /** A single port value is read as a whole. */
  lemma PortValueSingle(p: int)
    requires 0 <= p <= MaxInt64
    ensures PortValue(IntToDecimal(p)) == p
  {
    var v := IntToDecimal(p);
    assert v == NatToDecimal(p);
    assert '-' !in v;
    ContainsChar(v, '-');
    AtoiIntToDecimal(p);
  }

  /** A range value `a-b` yields its lower end `a`, whatever `b` is. */
  /** A value that is empty or starts with neither a digit nor '+' (a
      word, a negative number, a range with no lower end) leaves the
      default port. */
  lemma PortValueUnparsable(v: string)
    requires |v| == 0 || (!IsDigit(v[0]) && v[0] != '+')
    ensures PortValue(v) == DefaultPort
  {
    if Contains(v, "-") {
      SplitFirstToken(v, '-');
    }
  }

  lemma PortValueRange(a: int, b: string)
    requires 0 <= a <= MaxInt64
    ensures PortValue(IntToDecimal(a) + "-" + b) == a
  {
    var lo := IntToDecimal(a);
    var v := lo + "-" + b;
    assert v[|lo|] == '-';
    ContainsChar(v, '-');
    assert lo == NatToDecimal(a);
    assert '-' !in lo;
    SplitAfterToken(lo, '-', b);
    assert v == lo + ['-'] + b;
    AtoiIntToDecimal(a);
  }

  /** The catalog's launch command `iperf3 -c H -p P` decodes back to host H
      and port P, for a host without spaces and any 64-bit non-negative P. */
  lemma CommandRoundTrip(h: string, p: int)
    requires ' ' !in h
    requires 0 <= p <= MaxInt64
    ensures HostOf(ClientPrefix + h + " -p " + IntToDecimal(p)) == h
    ensures PortFrom(CommandTokens(ClientPrefix + h + " -p " + IntToDecimal(p)), 1) == p
  {
    var digits := IntToDecimal(p);
    var cmd := ClientPrefix + h + " -p " + digits;
    assert HasPrefix(cmd, ClientPrefix);
    var rest := TrimPrefix(cmd, ClientPrefix);
    assert rest == h + [' '] + ("-p" + [' '] + digits);
    assert digits == NatToDecimal(p);
    assert ' ' !in digits;
    SplitAfterToken(h, ' ', "-p" + [' '] + digits);
    SplitAfterToken("-p", ' ', digits);
    SplitNoSeparator(digits, ' ');
    var parts := CommandTokens(cmd);
    assert parts == [h, "-p", digits];
    PortValueSingle(p);
  }

  /** The host has no space, and the text after the client prefix starts with
      it, followed by a space or nothing. */
  lemma HostIsFirstToken(ipHost: string)
    ensures ' ' !in HostOf(ipHost)
    ensures HasPrefix(TrimPrefix(ipHost, ClientPrefix), HostOf(ipHost))
    ensures var rest := TrimPrefix(ipHost, ClientPrefix);
            |HostOf(ipHost)| == |rest| || rest[|HostOf(ipHost)|] == ' '
  {
    SplitFirstToken(TrimPrefix(ipHost, ClientPrefix), ' ');
  }

  /** The static country/site table of runNetblastTests (cmd/root.go:3397-3458);
      `None` for a country it does not list. */
  function NetblastCoordinates(country: string, site: string): Option<Coord> {
    if country == "US" then
      Some(if site == "New York" then Coord(40.7128, -74.0060)
           else if site == "Los Angeles" then Coord(34.0522, -118.2437)
           else if site == "Miami" then Coord(25.7617, -80.1918)
           else if site == "Chicago" then Coord(41.8781, -87.6298)
           else if site == "Dallas" then Coord(32.7767, -96.7970)
           else if site == "San Francisco" then Coord(37.7749, -122.4194)
           else if site == "Seattle" then Coord(47.6062, -122.3321)
           else if site == "Houston" then Coord(29.7604, -95.3698)
           else Coord(37.0902, -95.7129))
    else if country == "UK" || country == "GB" then
      Some(if site == "London" then Coord(51.5074, -0.1278) else Coord(55.3781, -3.4360))
    else if country == "FR" then
      Some(if site == "Paris" then Coord(48.8566, 2.3522) else Coord(46.2276, 2.2137))
    else if country == "DE" then
      Some(if site == "Frankfurt" then Coord(50.1109, 8.6821)
           else if site == "Berlin" then Coord(52.5200, 13.4050)
           else Coord(51.1657, 10.4515))
    else if country == "NL" then Some(Coord(52.3676, 4.9041))
    else if country == "SG" then Some(Coord(1.3521, 103.8198))
    else if country == "JP" then Some(Coord(35.6762, 139.6503))
    else if country == "AU" then
      Some(if site == "Sydney" then Coord(-33.8688, 151.2093) else Coord(-25.2744, 133.7751))
    else None
  }

  /** The country codes the table lists. */
  predicate Listed(country: string) {
    country in {"US", "UK", "GB", "FR", "DE", "NL", "SG", "JP", "AU"}
  }

  /** Exactly the nine listed country codes resolve; the site only refines
      the point. */
  lemma NetblastCoordinatesKnown(country: string, site: string)
    ensures NetblastCoordinates(country, site).Some? <==> Listed(country)
  {
  }

  /** The operator's position from the `loc` field "lat,lon": each half read
      with `ParseFloat`, an unreadable half being 0; anything other than
      exactly two comma-separated parts gives (0, 0). */
  function SelfCoordinates(loc: string): (c: Coord)
    ensures |Split(loc, ',')| != 2 ==> c == Coord(0.0, 0.0)
  {
    var parts := Split(loc, ',');
    if loc != "" && |parts| == 2 then
      Coord(match ParseFloat(parts[0]) case Some(v) => v case None => 0.0,
            match ParseFloat(parts[1]) case Some(v) => v case None => 0.0)
    else Coord(0.0, 0.0)
  }

  /** A `loc` without a comma puts the operator at (0, 0), whatever it says. */
  lemma SelfCoordinatesNoComma(loc: string)
    requires ',' !in loc
    ensures SelfCoordinates(loc) == Coord(0.0, 0.0)
  {
    SplitNoSeparator(loc, ',');
  }

  /** "lat,lon" with two readable halves gives exactly those numbers. */
  lemma SelfCoordinatesParsed(a: string, b: string)
    requires ',' !in a && ',' !in b
    requires ParseFloat(a).Some? && ParseFloat(b).Some?
    ensures SelfCoordinates(a + "," + b) == Coord(ParseFloat(a).value, ParseFloat(b).value)
  {
    SplitAfterToken(a, ',', b);
    SplitNoSeparator(b, ',');
    assert a + "," + b == a + [','] + b;
  }

  /** Host, port, coordinates and distance of one feed entry, or `None` when
      its country is not in the table (the record is skipped). */
  function NormaliseEntry(e: FeedEntry, self: Coord, distanceKm: (Coord, Coord) -> nat): Option<Candidate> {
    match NetblastCoordinates(e.country, e.site)
    case None => None
    case Some(at) =>
      var parts := CommandTokens(e.ipHost);
      Some(Candidate(parts[0], PortFrom(parts, 1), e.site, e.country, distanceKm(self, at),
                     at.lat, at.lon, e.ipHost, e.options, e.gbs, e.provider))
  }

  /** The entries that resolve, normalised, in feed order. */
  function Normalised(feed: seq<FeedEntry>, self: Coord, distanceKm: (Coord, Coord) -> nat): (r: seq<Candidate>)
    ensures |r| <= |feed|
    decreases |feed|
  {
    if |feed| == 0 then []
    else
      var rest := Normalised(feed[..|feed| - 1], self, distanceKm);
      match NormaliseEntry(feed[|feed| - 1], self, distanceKm)
      case None => rest
      case Some(c) => rest + [c]
  }

  /** The record-processing loop of cmd/root.go:3356-3489. */
  method NormaliseCatalog(feed: seq<FeedEntry>, self: Coord, distanceKm: (Coord, Coord) -> nat)
    returns (candidates: seq<Candidate>)
    ensures candidates == Normalised(feed, self, distanceKm)
  {
    candidates := [];
    var n := 0;
    while n < |feed|
      invariant n <= |feed|
      invariant candidates == Normalised(feed[..n], self, distanceKm)
    {
      var server := feed[n];
      assert feed[..n + 1][..n] == feed[..n];
      var parts := Split(TrimPrefix(server.ipHost, ClientPrefix), ' ');
      var host := parts[0];
      var port := ScanPort(parts);
      var at := NetblastCoordinates(server.country, server.site);
      n := n + 1;
      if at.None? {
        continue;
      }
      var distance := distanceKm(self, at.value);
      candidates := candidates + [Candidate(host, port, server.site, server.country, distance,
                                            at.value.lat, at.value.lon, server.ipHost,
                                            server.options, server.gbs, server.provider)];
    }
    assert feed[..|feed|] == feed;
  }

  /** A normalised entry keeps the entry's launch command, takes its host and
      port from it, and has a non-negative port. */
  lemma NormaliseEntryFacts(e: FeedEntry, self: Coord, distanceKm: (Coord, Coord) -> nat)
    ensures NormaliseEntry(e, self, distanceKm).Some? <==> NetblastCoordinates(e.country, e.site).Some?
    ensures NormaliseEntry(e, self, distanceKm).Some? ==>
              var c := NormaliseEntry(e, self, distanceKm).value;
              c.host == HostOf(e.ipHost) && c.port == PortFrom(CommandTokens(e.ipHost), 1) && c.port >= 0
              && c.command == e.ipHost && c.city == e.site && c.country == e.country
              && c.provider == e.provider && c.bandwidth == e.gbs && c.options == e.options
  {
    PortFromNonNegative(CommandTokens(e.ipHost), 1);
  }

  /** An entry is kept exactly when its country is listed. */
  lemma NormaliseEntryListed(e: FeedEntry, self: Coord, distanceKm: (Coord, Coord) -> nat)
    ensures NormaliseEntry(e, self, distanceKm).Some? <==> Listed(e.country)
  {
    NetblastCoordinatesKnown(e.country, e.site);
  }

  /** Every candidate is the normalisation of some feed entry. */
  lemma {:induction false} NormalisedFromFeed(feed: seq<FeedEntry>, self: Coord, distanceKm: (Coord, Coord) -> nat)
    ensures forall c :: c in Normalised(feed, self, distanceKm) ==>
              exists e :: e in feed && NormaliseEntry(e, self, distanceKm) == Some(c)
    decreases |feed|
  {
    if |feed| > 0 {
      NormalisedFromFeed(feed[..|feed| - 1], self, distanceKm);
      forall c | c in Normalised(feed, self, distanceKm)
        ensures exists e :: e in feed && NormaliseEntry(e, self, distanceKm) == Some(c)
      {
        if c in Normalised(feed[..|feed| - 1], self, distanceKm) {
          var e :| e in feed[..|feed| - 1] && NormaliseEntry(e, self, distanceKm) == Some(c);
          assert e in feed;
        } else {
          assert NormaliseEntry(feed[|feed| - 1], self, distanceKm) == Some(c);
        }
      }
    }
  }

  /** Entries whose country is in the table, by position. */
  function Resolvable(feed: seq<FeedEntry>): set<nat> {
    set k | 0 <= k < |feed| && Listed(feed[k].country)
  }

  /** Exactly the entries from listed countries survive: one candidate each. */
  lemma {:induction false} NormalisedCount(feed: seq<FeedEntry>, self: Coord, distanceKm: (Coord, Coord) -> nat)
    ensures |Normalised(feed, self, distanceKm)| == |Resolvable(feed)|
    decreases |feed|
  {
    if |feed| > 0 {
      var init := feed[..|feed| - 1];
      var last := feed[|feed| - 1];
      NormalisedCount(init, self, distanceKm);
      NormaliseEntryListed(last, self, distanceKm);
      assert feed == init + [last];
      if Listed(last.country) {
        assert Resolvable(feed) == Resolvable(init) + {|feed| - 1};
        assert |Normalised(feed, self, distanceKm)| == |Normalised(init, self, distanceKm)| + 1;
      } else {
        assert Resolvable(feed) == Resolvable(init);
        assert Normalised(feed, self, distanceKm) == Normalised(init, self, distanceKm);
      }
    }
  }
}
