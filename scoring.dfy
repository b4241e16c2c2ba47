/** Capacity parsing, the bandwidth estimate and the 80/20 capacity/distance
    score of runNetblastTests (cmd/root.go:3498-3612). */
module Scoring {
  import opened GoText
  import opened GoNumbers
  import opened Catalog

  /** A candidate with its parsed capacity and score. */
  datatype Scored = Scored(c: Candidate, gbps: real, mbps: real, score: real)

  /** The free-form capacity string in Gbps: "AxB" with two readable parts
      is A*B, a readable number is itself, anything else is 1. */
  function CapacityGbps(s: string): real {
    if Contains(s, "x") then
      var parts := Split(s, 'x');
      if |parts| == 2 then PairCapacity(ParseFloat(parts[0]), ParseFloat(parts[1])) else 1.0
    else
      match ParseFloat(s)
      case Some(v) => v
      case None => 1.0
  }

  /** The product of two readable parts, 1 when either is unreadable. */
  function PairCapacity(count: Option<real>, speed: Option<real>): real {
    if count.Some? && speed.Some? then count.value * speed.value else 1.0
  }

  /** "AxB" with readable A and B (neither holding an 'x') is their product. */
  lemma CapacityProduct(a: string, b: string, count: real, speed: real)
    requires 'x' !in a && 'x' !in b
    requires ParseFloat(a) == Some(count) && ParseFloat(b) == Some(speed)
    ensures CapacityGbps(a + "x" + b) == count * speed
  {
    var s := a + "x" + b;
    assert s == a + ['x'] + b;
    assert s[|a|] == 'x';
    ContainsChar(s, 'x');
    SplitAfterToken(a, 'x', b);
    SplitNoSeparator(b, 'x');
    assert Split(s, 'x') == [a, b];
    assert CapacityGbps(s) == PairCapacity(Some(count), Some(speed));
    PairProduct(count, speed);
  }

  lemma PairProduct(count: real, speed: real)
    ensures PairCapacity(Some(count), Some(speed)) == count * speed
  {
  }

  /** A readable number without an 'x' is taken as it is. */
  lemma CapacitySingle(s: string)
    requires 'x' !in s && ParseFloat(s).Some?
    ensures CapacityGbps(s) == ParseFloat(s).value
  {
    ContainsChar(s, 'x');
  }

  /** Any string that is neither form gives the 1 Gbps default: an 'x' with
      other than exactly two readable parts, or an unreadable number. */
  lemma CapacityDefault(s: string)
    requires 'x' in s ==> |Split(s, 'x')| != 2 || ParseFloat(Split(s, 'x')[0]).None? || ParseFloat(Split(s, 'x')[1]).None?
    requires 'x' !in s ==> ParseFloat(s).None?
    ensures CapacityGbps(s) == 1.0
  {
    ContainsChar(s, 'x');
  }

  /** "2x10" is two 10 Gbps ports, 20 Gbps. */
  lemma CapacityTwoByTen()
    ensures CapacityGbps("2x10") == 20.0
  {
    assert ParseFloat("2") == Some(2.0) by { ParseFloatDigits("2"); }
    assert ParseFloat("10") == Some(10.0) by {
      ParseFloatDigits("10");
      assert DigitsValue("10") == 10 by { assert "10"[..1] == "1"; }
    }
    assert "2" + "x" + "10" == "2x10";
    CapacityProduct("2", "10", 2.0, 10.0);
  }

  /** "40" is 40 Gbps. */
  lemma CapacityForty()
    ensures CapacityGbps("40") == 40.0
  {
    ParseFloatDigits("40");
    assert DigitsValue("40") == 40 by { assert "40"[..1] == "4"; }
    CapacitySingle("40");
  }

  /** "10G" is not a number Go reads, so it falls back to 1 Gbps. */
  lemma CapacityWithUnit()
    ensures CapacityGbps("10G") == 1.0
  {
    ContainsChar("10G", 'x');
    assert ParseFloat("10G").None? by {
      assert SplitSign("10G") == (false, "10G");
      assert LeadingDigits("10G") == 2 by {
        assert "10G"[1..] == "0G";
        assert "10G"[1..][1..] == "G";
        assert LeadingDigits("G") == 0;
      }
      assert "10G"[2..] == "G";
    }
  }

  /** "2x10x3" has three parts, so it falls back to 1 Gbps. */
  lemma CapacityThreeParts()
    ensures CapacityGbps("2x10x3") == 1.0
  {
    var t := "2x10x3";
    assert t == "2" + ['x'] + ("10" + ['x'] + "3");
    SplitAfterToken("2", 'x', "10" + ['x'] + "3");
    SplitAfterToken("10", 'x', "3");
    ContainsChar(t, 'x');
  }

  /** The operator's estimated bandwidth in Mbps: 1000 without a positive
      speed-test reading, 25000 for a reading above 10000, else the reading. */
  function EstimateBandwidth(downloadMbps: real): (r: real)
    ensures downloadMbps <= 0.0 ==> r == 1000.0
    ensures downloadMbps > 10000.0 ==> r == 25000.0
    ensures 0.0 < downloadMbps <= 10000.0 ==> r == downloadMbps
    ensures 0.0 < r <= 25000.0
  {
    var estimate := if downloadMbps > 0.0 then downloadMbps else 1000.0;
    if estimate > 10000.0 then 25000.0 else estimate
  }

  function BandwidthScore(gbps: real): real {
    var s := (gbps / 100.0) * 100.0;
    if s > 100.0 then 100.0 else s
  }

  function DistanceScore(distance: nat): real {
    var s := distance as real / 200.0;
    if s > 100.0 then 100.0 else s
  }

  /** 80% capacity (capped at 100 Gbps) minus 20% distance (capped at 20000 km). */
  function Score(gbps: real, distance: nat): real {
    BandwidthScore(gbps) * 0.8 - DistanceScore(distance) * 0.2
  }

  /** For a non-negative capacity the score lies in [-20, 80]. */
  lemma ScoreBounds(gbps: real, distance: nat)
    requires gbps >= 0.0
    ensures -20.0 <= Score(gbps, distance) <= 80.0
  {
  }

  /** More capacity never lowers the score; more distance never raises it. */
  lemma ScoreMonotone(g1: real, g2: real, d1: nat, d2: nat)
    requires g1 <= g2 && d2 <= d1
    ensures Score(g1, d1) <= Score(g2, d2)
  {
  }

  /** Capacity beyond 100 Gbps and distance beyond 20000 km no longer count. */
  lemma ScoreSaturates(g: real, d: nat)
    ensures Score(if g > 100.0 then g else 100.0, d) == Score(100.0, d)
    ensures Score(g, if d > 20000 then d else 20000) == Score(g, 20000)
  {
  }

  /** A near 10 Gbps server (100 km) scores below a far 100 Gbps one
      (10000 km): 7.9 against 70. */
  lemma CapacityOutweighsProximity()
    ensures Score(10.0, 100) == 7.9 && Score(100.0, 10000) == 70.0
    ensures Score(10.0, 100) < Score(100.0, 10000)
  {
  }

  function ScoreCandidate(c: Candidate): (s: Scored)
    ensures s.c == c && s.gbps == CapacityGbps(c.bandwidth) && s.mbps == s.gbps * 1000.0
    ensures s.score == Score(s.gbps, c.distance)
  {
    var gbps := CapacityGbps(c.bandwidth);
    Scored(c, gbps, gbps * 1000.0, Score(gbps, c.distance))
  }

  /** The scoring loop of cmd/root.go:3530-3607: one scored record per
      candidate, in the same order. */
  method ScoreAll(candidates: seq<Candidate>) returns (scored: seq<Scored>)
    ensures |scored| == |candidates|
    ensures forall k :: 0 <= k < |scored| ==> scored[k] == ScoreCandidate(candidates[k])
  {
    scored := [];
    for n := 0 to |candidates|
      invariant |scored| == n
      invariant forall k :: 0 <= k < n ==> scored[k] == ScoreCandidate(candidates[k])
    {
      var record := ScoreOne(candidates[n]);
      scored := scored + [record];
    }
  }

  /** One pass of the scoring loop's body. */
  method ScoreOne(server: Candidate) returns (record: Scored)
    ensures record == ScoreCandidate(server)
  {
    var bandwidthGbps := CapacityGbps(server.bandwidth);
    var bandwidthMbps := bandwidthGbps * 1000.0;
    var bandwidthScore := (bandwidthGbps / 100.0) * 100.0;
    if bandwidthScore > 100.0 {
      bandwidthScore := 100.0;
    }
    var distanceScore := server.distance as real / 200.0;
    if distanceScore > 100.0 {
      distanceScore := 100.0;
    }
    var score := bandwidthScore * 0.8 - distanceScore * 0.2;
    record := Scored(server, bandwidthGbps, bandwidthMbps, score);
  }
}
