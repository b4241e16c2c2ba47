/** The fan-in and final ordering of runNetblastTests (cmd/root.go:3812-3973):
    one task per selected server, results sorted by descending download
    speed, ranks renumbered 1..N. The goroutines run one after another here;
    since each writes exactly one record and the records are sorted before
    use, only their arrival order is lost. */
module Ranking {
  import opened Catalog
  import opened Runner
  import opened Sorting
  import opened Collections

  function DownloadKey(r: NetblastResult): real {
    r.downloadMbps
  }

  /** A record with its rank cleared, to compare records across renumbering. */
  function Unranked(r: NetblastResult): NetblastResult {
    r.(rank := 0)
  }

  function StripRanks(s: seq<NetblastResult>): seq<NetblastResult> {
    Map(Unranked, s)
  }

  /** The task launch loop of cmd/root.go:3826-3950 run in order: task `i`
      gets initial rank `i + 1`. */
  method RunAll(servers: seq<Candidate>, run: Oracle) returns (results: seq<NetblastResult>)
    ensures |results| == |servers|
    ensures forall i :: 0 <= i < |servers| ==> results[i] == TestTask(servers[i], i + 1, run).result
  {
    results := [];
    for i := 0 to |servers|
      invariant |results| == i
      invariant forall k :: 0 <= k < i ==> results[k] == TestTask(servers[k], k + 1, run).result
    {
      var rank := i + 1;
      var result, _ := RunServerTest(servers[i], rank, run);
      results := results + [result];
    }
  }

  /** Sort by descending download speed, then number the ranks 1..N
      (cmd/root.go:3965-3973). */
  method RankResults(a: array<NetblastResult>)
    modifies a
    ensures NonIncreasing(a[..], DownloadKey)
    ensures forall i :: 0 <= i < a.Length ==> a[i].rank == i + 1
    ensures multiset(StripRanks(a[..])) == multiset(StripRanks(old(a[..])))
  {
    SortDescending(a, DownloadKey);
    ghost var sorted := a[..];
    Renumber(a);
    RenumberedFacts(sorted, a[..]);
    MapPermutation(Unranked, sorted, old(a[..]));
  }

  /** The renumbering loop: only the ranks change, to 1..N in order. */
  method Renumber(a: array<NetblastResult>)
    modifies a
    ensures forall k :: 0 <= k < a.Length ==> a[k] == old(a[k]).(rank := k + 1)
  {
    for i := 0 to a.Length
      invariant forall k :: 0 <= k < i ==> a[k] == old(a[k]).(rank := k + 1)
      invariant forall k :: i <= k < a.Length ==> a[k] == old(a[k])
    {
      a[i] := a[i].(rank := i + 1);
    }
  }

  /** Renumbering keeps the order by download speed and the records apart
      from their ranks. */
  lemma RenumberedFacts(sorted: seq<NetblastResult>, ranked: seq<NetblastResult>)
    requires |ranked| == |sorted|
    requires forall k :: 0 <= k < |sorted| ==> ranked[k] == sorted[k].(rank := k + 1)
    ensures NonIncreasing(sorted, DownloadKey) ==> NonIncreasing(ranked, DownloadKey)
    ensures StripRanks(ranked) == StripRanks(sorted)
  {
  }

  /** In a ranking sorted by download speed, a record left at the -1
      sentinel comes after every record with a measured positive speed. */
  lemma SentinelsLast(s: seq<NetblastResult>)
    requires NonIncreasing(s, DownloadKey)
    ensures forall p, q :: 0 <= p < |s| && 0 <= q < |s|
              && s[p].downloadMbps == Unmeasured && s[q].downloadMbps > 0.0
              ==> q < p
  {
  }
}
