/** The whole of runNetblastTests (cmd/root.go:3254-4014) after the feed and
    the operator's location have been fetched: normalise the feed, sort by
    distance, score, sort by score, build the pool, choose at most five
    servers, test each one and rank the results by download speed. */
module Netblast {
  import opened GoNumbers
  import opened Catalog
  import opened Scoring
  import opened Sorting
  import opened Selection
  import opened Collections
  import opened Runner
  import opened Ranking

  /** Nearer is larger, so a descending sort puts the nearest first. */
  function Nearness(c: Candidate): real {
    -(c.distance as real)
  }

  /** What a test of `c` measures, whatever rank it started with. */
  function Measured(c: Candidate, run: Oracle): NetblastResult {
    Unranked(TestTask(c, 0, run).result)
  }

  /** The initial rank of a task only ends up in its rank field. */
  lemma MeasuredAnyRank(c: Candidate, rank: int, run: Oracle)
    ensures Unranked(TestTask(c, rank, run).result) == Measured(c, run)
  {
  }

  /** What testing each of `servers` measures, in order. */
  function MeasuredAll(servers: seq<Candidate>, run: Oracle): seq<NetblastResult> {
    Map(c => Measured(c, run), servers)
  }

  function RecordKey(r: NetblastResult): Key {
    Key(r.host, r.port)
  }

  function CandidateKey(c: Candidate): Key {
    Key(c.host, c.port)
  }

  /** The ranked results of one netblast run. `loc` is the "lat,lon" text of
      the location lookup, `speedtestMbps` the earlier speed-test download
      reading (0 when there was none).

      At most five servers are tested, none twice; there are results exactly
      when some feed entry resolves to a location; the results are ordered by
      download speed, ranked 1..N, and each is what testing one of the
      normalised candidates measured. Apart from their ranks, the results
      are the measurements of exactly the servers that the pool and the
      diversity-first selection choose from some best-first scoring of the
      candidates (ties in score may fall in any order, as with
      `sort.Slice`). */
  method RunNetblast(feed: seq<FeedEntry>, loc: string, distanceKm: (Coord, Coord) -> nat,
                     speedtestMbps: real, run: Oracle)
    returns (results: seq<NetblastResult>)
    ensures |results| <= MaxServers
    ensures |results| == 0 <==> |Normalised(feed, SelfCoordinates(loc), distanceKm)| == 0
    ensures NonIncreasing(results, DownloadKey)
    ensures forall i :: 0 <= i < |results| ==> results[i].rank == i + 1
    ensures forall i :: 0 <= i < |results| ==>
              exists c :: c in Normalised(feed, SelfCoordinates(loc), distanceKm)
                && Unranked(results[i]) == Measured(c, run)
    ensures NoDuplicates(Map(RecordKey, results))
    ensures exists bestFirst: seq<Scored> ::
      multiset(Map(CandidateOf, bestFirst)) == multiset(Normalised(feed, SelfCoordinates(loc), distanceKm))
      && NonIncreasing(bestFirst, ScoreKey)
      && (forall x :: x in bestFirst ==> x == ScoreCandidate(x.c))
      && multiset(StripRanks(results))
         == multiset(MeasuredAll(Map(CandidateOf, Select(Pool(bestFirst, EstimateBandwidth(speedtestMbps)))), run))
  {
    var self := SelfCoordinates(loc);
    var candidates := NormaliseCatalog(feed, self, distanceKm);
    var servers := ChooseServers(candidates, speedtestMbps);
    results := TestAndRank(servers, run);
    ghost var bestFirst: seq<Scored> :|
      multiset(Map(CandidateOf, bestFirst)) == multiset(candidates)
      && NonIncreasing(bestFirst, ScoreKey)
      && (forall x :: x in bestFirst ==> x == ScoreCandidate(x.c))
      && servers == Map(CandidateOf, Select(Pool(bestFirst, EstimateBandwidth(speedtestMbps))));
    PermutationNoDuplicates(Map(CandidateKey, servers), Map(RecordKey, results));
    forall i | 0 <= i < |results|
      ensures exists c :: c in candidates && Unranked(results[i]) == Measured(c, run)
    {
      var j :| 0 <= j < |servers| && Unranked(results[i]) == Measured(servers[j], run);
      assert servers[j] in candidates;
    }
  }

  /** Pool and selection (cmd/root.go:3614-3785): the servers are the
      selection from the pool of some best-first scoring of the candidates,
      so at most five distinct candidates, at least one when there is any. */
  method ChooseServers(candidates: seq<Candidate>, speedtestMbps: real)
    returns (servers: seq<Candidate>)
    ensures |servers| <= MaxServers
    ensures |servers| == 0 <==> |candidates| == 0
    ensures forall j :: 0 <= j < |servers| ==> servers[j] in candidates
    ensures NoDuplicates(Map(CandidateKey, servers))
    ensures exists bestFirst: seq<Scored> ::
      multiset(Map(CandidateOf, bestFirst)) == multiset(candidates)
      && NonIncreasing(bestFirst, ScoreKey)
      && (forall x :: x in bestFirst ==> x == ScoreCandidate(x.c))
      && servers == Map(CandidateOf, Select(Pool(bestFirst, EstimateBandwidth(speedtestMbps))))
  {
    var estimate := EstimateBandwidth(speedtestMbps);
    var bestFirst := RankCandidates(candidates);
    var pool := BuildPool(bestFirst, estimate);
    var selected := SelectServers(pool);
    servers := Map(CandidateOf, selected);
    ChosenFacts(candidates, bestFirst, estimate);
  }

  /** What the choice from a scored permutation of the candidates keeps. */
  lemma ChosenFacts(candidates: seq<Candidate>, bestFirst: seq<Scored>, estimate: real)
    requires multiset(Map(CandidateOf, bestFirst)) == multiset(candidates)
    ensures var servers := Map(CandidateOf, Select(Pool(bestFirst, estimate)));
      && |servers| <= MaxServers
      && (|servers| == 0 <==> |candidates| == 0)
      && (forall j :: 0 <= j < |servers| ==> servers[j] in candidates)
      && NoDuplicates(Map(CandidateKey, servers))
  {
    var pool := Pool(bestFirst, estimate);
    var selected := Select(pool);
    var servers := Map(CandidateOf, selected);
    SelectFromPool(pool);
    SelectLength(pool);
    PoolFromScored(bestFirst, estimate);
    PoolSize(bestFirst, estimate);
    if |pool| > 0 {
      SelectHead(pool);
    }
    assert |candidates| == |multiset(candidates)| == |bestFirst|;
    ServersFromCandidates(candidates, bestFirst, pool, selected, servers);
    ServerKeys(selected, servers);
  }

  /** The distance sort, the scoring loop and the score sort
      (cmd/root.go:3491-3612): every candidate scored once, best first. */
  method RankCandidates(candidates: seq<Candidate>) returns (bestFirst: seq<Scored>)
    ensures |bestFirst| == |candidates|
    ensures NonIncreasing(bestFirst, ScoreKey)
    ensures multiset(Map(CandidateOf, bestFirst)) == multiset(candidates)
    ensures forall x :: x in bestFirst ==> x == ScoreCandidate(x.c)
  {
    var byDistance := new Candidate[|candidates|](i requires 0 <= i < |candidates| => candidates[i]);
    assert byDistance[..] == candidates;
    SortDescending(byDistance, Nearness);
    var nearestFirst := byDistance[..];
    var scored := ScoreAll(nearestFirst);
    var byScore := new Scored[|scored|](i requires 0 <= i < |scored| => scored[i]);
    assert byScore[..] == scored;
    SortDescending(byScore, ScoreKey);
    bestFirst := byScore[..];
    ScoredFacts(nearestFirst, scored, bestFirst);
  }

  function CandidateOf(s: Scored): Candidate {
    s.c
  }

  /** A permutation of the scores of a permutation of the candidates. */
  lemma ScoredFacts(nearestFirst: seq<Candidate>, scored: seq<Scored>, bestFirst: seq<Scored>)
    requires |scored| == |nearestFirst|
    requires forall k :: 0 <= k < |scored| ==> scored[k] == ScoreCandidate(nearestFirst[k])
    requires multiset(bestFirst) == multiset(scored)
    ensures multiset(Map(CandidateOf, bestFirst)) == multiset(nearestFirst)
    ensures forall x :: x in bestFirst ==> x == ScoreCandidate(x.c)
  {
    assert Map(CandidateOf, scored) == nearestFirst;
    MapPermutation(CandidateOf, scored, bestFirst);
    forall x | x in bestFirst
      ensures x == ScoreCandidate(x.c)
    {
      assert x in multiset(scored);
    }
  }

  /** One test per server, then the ranking (cmd/root.go:3812-3973). */
  method TestAndRank(servers: seq<Candidate>, run: Oracle) returns (results: seq<NetblastResult>)
    ensures |results| == |servers|
    ensures NonIncreasing(results, DownloadKey)
    ensures forall i :: 0 <= i < |results| ==> results[i].rank == i + 1
    ensures forall i :: 0 <= i < |results| ==>
              exists j :: 0 <= j < |servers| && Unranked(results[i]) == Measured(servers[j], run)
    ensures multiset(Map(RecordKey, results)) == multiset(Map(CandidateKey, servers))
    ensures multiset(StripRanks(results)) == multiset(MeasuredAll(servers, run))
  {
    var tested := RunAll(servers, run);
    results := Rank(tested);
    TestedMeasured(tested, servers, run);
    ResultsFromServers(results, tested, servers, run);
    ResultKeys(results, tested, servers, run);
  }

  /** The collected results, sorted and renumbered in a slice of their own. */
  method Rank(tested: seq<NetblastResult>) returns (results: seq<NetblastResult>)
    ensures |results| == |tested|
    ensures NonIncreasing(results, DownloadKey)
    ensures forall i :: 0 <= i < |results| ==> results[i].rank == i + 1
    ensures multiset(StripRanks(results)) == multiset(StripRanks(tested))
  {
    var ranked := new NetblastResult[|tested|](i requires 0 <= i < |tested| => tested[i]);
    assert ranked[..] == tested;
    RankResults(ranked);
    results := ranked[..];
  }

  /** The results are for the servers' hosts and ports, each once. */
  lemma ResultKeys(results: seq<NetblastResult>, tested: seq<NetblastResult>,
                   servers: seq<Candidate>, run: Oracle)
    requires |tested| == |servers|
    requires forall i :: 0 <= i < |servers| ==> tested[i] == TestTask(servers[i], i + 1, run).result
    requires multiset(StripRanks(results)) == multiset(StripRanks(tested))
    ensures multiset(Map(RecordKey, results)) == multiset(Map(CandidateKey, servers))
  {
    TestedKeys(tested, servers, run);
    KeysIgnoreRanks(results);
    KeysIgnoreRanks(tested);
    MapPermutation(RecordKey, StripRanks(tested), StripRanks(results));
  }

  /** Every tested server is one of the normalised candidates. */
  lemma ServersFromCandidates(candidates: seq<Candidate>, bestFirst: seq<Scored>,
                              pool: seq<Scored>, selected: seq<Scored>, servers: seq<Candidate>)
    requires multiset(Map(CandidateOf, bestFirst)) == multiset(candidates)
    requires forall x :: x in pool ==> x in bestFirst
    requires forall x :: x in selected ==> x in pool
    requires |servers| == |selected|
    requires forall j :: 0 <= j < |servers| ==> servers[j] == selected[j].c
    ensures forall j :: 0 <= j < |servers| ==> servers[j] in candidates
  {
    forall j | 0 <= j < |servers|
      ensures servers[j] in candidates
    {
      var x := selected[j];
      assert x in selected;
      var k :| 0 <= k < |bestFirst| && bestFirst[k] == x;
      assert Map(CandidateOf, bestFirst)[k] == servers[j];
      assert servers[j] in multiset(Map(CandidateOf, bestFirst));
    }
  }

  lemma ServerKeys(selected: seq<Scored>, servers: seq<Candidate>)
    requires |servers| == |selected|
    requires forall j :: 0 <= j < |servers| ==> servers[j] == selected[j].c
    ensures Map(CandidateKey, servers) == Keys(selected)
  {
  }

  /** Each ranked result is, apart from its rank, what one server's test
      measured. */
  lemma ResultsFromServers(results: seq<NetblastResult>, tested: seq<NetblastResult>,
                           servers: seq<Candidate>, run: Oracle)
    requires |tested| == |servers|
    requires forall i :: 0 <= i < |servers| ==> tested[i] == TestTask(servers[i], i + 1, run).result
    requires multiset(StripRanks(results)) == multiset(StripRanks(tested))
    ensures forall i :: 0 <= i < |results| ==>
              exists j :: 0 <= j < |servers| && Unranked(results[i]) == Measured(servers[j], run)
  {
    forall i | 0 <= i < |results|
      ensures exists j :: 0 <= j < |servers| && Unranked(results[i]) == Measured(servers[j], run)
    {
      var r := StripRanks(results)[i];
      assert r in multiset(StripRanks(tested));
      var j :| 0 <= j < |tested| && StripRanks(tested)[j] == r;
      MeasuredAnyRank(servers[j], j + 1, run);
    }
  }

  /** Apart from its rank, the i-th task's record is what testing the i-th
      server measures. */
  lemma TestedMeasured(tested: seq<NetblastResult>, servers: seq<Candidate>, run: Oracle)
    requires |tested| == |servers|
    requires forall i :: 0 <= i < |servers| ==> tested[i] == TestTask(servers[i], i + 1, run).result
    ensures StripRanks(tested) == MeasuredAll(servers, run)
  {
    forall i | 0 <= i < |servers|
      ensures StripRanks(tested)[i] == MeasuredAll(servers, run)[i]
    {
      MeasuredAnyRank(servers[i], i + 1, run);
    }
  }

  /** A test reports on the host and port of its own server. */
  lemma TestedKeys(tested: seq<NetblastResult>, servers: seq<Candidate>, run: Oracle)
    requires |tested| == |servers|
    requires forall i :: 0 <= i < |servers| ==> tested[i] == TestTask(servers[i], i + 1, run).result
    ensures Map(RecordKey, tested) == Map(CandidateKey, servers)
  {
  }

  /** Clearing ranks keeps hosts and ports. */
  lemma KeysIgnoreRanks(s: seq<NetblastResult>)
    ensures Map(RecordKey, StripRanks(s)) == Map(RecordKey, s)
  {
  }
}
