/** The sequential test loop of runIperf3Tests (cmd/root.go:3036-3246) and
    the older path end to end. Each chosen server is tested once, without
    retries; a server whose command has fewer than three words is skipped
    without a result, and an empty choice is an error. The shell is an
    oracle from the `bash -c` command line to what it produced. */
module LegacyTests {
  import opened GoText
  import opened GoNumbers
  import opened Catalog
  import opened Sorting
  import opened Collections
  import opened Selection
  import opened LegacySelection

  /** What one `bash -c` run produced: a process error with its message,
      output that is not JSON with the decoder's message, or a JSON report
      with the optional `end.sum_received` / `end.sum_sent` bits per second. */
  datatype ShellRun = RunFailed(reason: string) | BadJson(reason: string)
                    | Parsed(received: Option<real>, sent: Option<real>)

  type Shell = string -> ShellRun

  /** The per-server record (Iperf3Result). */
  datatype Iperf3Result = Iperf3Result(
    host: string, port: int, location: string, downloadMbps: real, uploadMbps: real,
    testCompleted: bool, errorMessage: string)

  /** A result, or the error the selection ends with. */
  datatype Outcome<T> = Success(value: T) | Failure(error: string)

  const NoServers: string := "no iperf3 servers found to test"

  function DownloadLine(command: string): string {
    "timeout 15 iperf3 -c " + TrimPrefix(command, ClientPrefix) + " -t 5 -J"
  }

  function UploadLine(command: string): string {
    "timeout 15 iperf3 -c " + TrimPrefix(command, ClientPrefix) + " -t 5 -R -J"
  }

  /** A failure note added to the message: alone, or after ", ". */
  function Note(message: string, note: string): (r: string)
    ensures message == "" ==> r == note
    ensures message != "" ==> r == message + ", " + note
  {
    if message == "" then note else message + ", " + note
  }

  /** The record after the download run. */
  function AfterDownload(r: Iperf3Result, d: ShellRun): Iperf3Result {
    match d
    case RunFailed(e) => r.(errorMessage := "Download test failed: " + e)
    case BadJson(e) => r.(errorMessage := "Error parsing download JSON: " + e)
    case Parsed(received, _) =>
      if received.Some? then r.(downloadMbps := received.value / 1000000.0) else r
  }

  /** The record after the upload run. */
  function AfterUpload(r: Iperf3Result, u: ShellRun): Iperf3Result {
    match u
    case RunFailed(e) => r.(errorMessage := Note(r.errorMessage, "Upload test failed: " + e))
    case BadJson(e) => r.(errorMessage := Note(r.errorMessage, "Error parsing upload JSON: " + e))
    case Parsed(_, sent) =>
      if sent.Some? then r.(uploadMbps := sent.value / 1000000.0) else r
  }

  /** Whether the upload run happens after a download that left `r`. */
  predicate UploadRuns(r: Iperf3Result, s: Rated) {
    r.downloadMbps > 0.0 && Contains(s.s.options, "-R")
  }

  /** The test of one chosen server: `None` when its command has fewer than
      three words, otherwise the record after the download run, the upload
      run when the download gave a positive speed and `-R` is offered, and
      the completion flag. */
  function LegacyTest(s: Rated, run: Shell): (r: Option<Iperf3Result>)
    ensures r.None? <==> |Split(s.s.command, ' ')| < 3
    ensures r.Some? ==> r.value.host == s.s.host && r.value.port == s.s.port
    ensures r.Some? ==> r.value.location == s.s.city + ", " + s.s.country
    ensures r.Some? ==> (r.value.testCompleted <==> r.value.downloadMbps > 0.0 && r.value.uploadMbps > 0.0)
  {
    if |Split(s.s.command, ' ')| < 3 then None
    else
      var start := Iperf3Result(s.s.host, s.s.port, s.s.city + ", " + s.s.country, -1.0, -1.0, false, "");
      var down := AfterDownload(start, run(DownloadLine(s.s.command)));
      var up := if UploadRuns(down, s) then AfterUpload(down, run(UploadLine(s.s.command))) else down;
      Some(up.(testCompleted := up.downloadMbps > 0.0 && up.uploadMbps > 0.0))
  }

  /** The records of the servers that were not skipped, in order. */
  function LegacyResults(selected: seq<Rated>, run: Shell): (r: seq<Iperf3Result>)
    ensures |r| <= |selected|
    decreases |selected|
  {
    if |selected| == 0 then []
    else
      var init := LegacyResults(selected[..|selected| - 1], run);
      match LegacyTest(selected[|selected| - 1], run)
      case None => init
      case Some(x) => init + [x]
  }

  /** The whole test stage: an error for an empty choice, else the records. */
  function LegacyStage(selected: seq<Rated>, run: Shell): Outcome<seq<Iperf3Result>> {
    if |selected| == 0 then Failure(NoServers) else Success(LegacyResults(selected, run))
  }

  /** The loop of cmd/root.go:3036-3246, updating each record step by step. */
  method RunLegacyTests(selected: seq<Rated>, run: Shell) returns (r: Outcome<seq<Iperf3Result>>)
    ensures r == LegacyStage(selected, run)
  {
    if |selected| == 0 {
      return Failure("no iperf3 servers found to test");
    }
    var results: seq<Iperf3Result> := [];
    for n := 0 to |selected|
      invariant results == LegacyResults(selected[..n], run)
    {
      var server := selected[n];
      assert selected[..n + 1][..n] == selected[..n];
      var result := TestOne(server, run);
      if result.Some? {
        results := results + [result.value];
      }
    }
    assert selected[..|selected|] == selected;
    r := Success(results);
  }

  /** One pass of the loop body. */
  method TestOne(server: Rated, run: Shell) returns (r: Option<Iperf3Result>)
    ensures r == LegacyTest(server, run)
  {
    var location := server.s.city + ", " + server.s.country;
    var result := Iperf3Result(server.s.host, server.s.port, location, -1.0, -1.0, false, "");
    var command := server.s.command;
    var commandParts := Split(command, ' ');
    if |commandParts| < 3 {
      result := result.(errorMessage := "Invalid command format");
      return None;
    }
    var baseCommand := TrimPrefix(command, "iperf3 -c ");
    var downloadCmd := "timeout 15 iperf3 -c " + baseCommand + " -t 5 -J";
    assert downloadCmd == DownloadLine(command);
    var download := run(downloadCmd);
    ghost var start := result;
    match download {
      case RunFailed(e) =>
        result := result.(errorMessage := "Download test failed: " + e);
      case BadJson(e) =>
        result := result.(errorMessage := "Error parsing download JSON: " + e);
      case Parsed(received, _) =>
        if received.Some? {
          result := result.(downloadMbps := received.value / 1000000.0);
        }
    }
    assert result == AfterDownload(start, download);
    ghost var down := result;
    if result.downloadMbps > 0.0 {
      var supportsUpload := Contains(server.s.options, "-R");
      if supportsUpload {
        var uploadCmd := "timeout 15 iperf3 -c " + baseCommand + " -t 5 -R -J";
        assert uploadCmd == UploadLine(command);
        var upload := run(uploadCmd);
        match upload {
          case RunFailed(e) =>
            if result.errorMessage == "" {
              result := result.(errorMessage := "Upload test failed: " + e);
            } else {
              result := result.(errorMessage := result.errorMessage + ", Upload test failed: " + e);
            }
          case BadJson(e) =>
            if result.errorMessage == "" {
              result := result.(errorMessage := "Error parsing upload JSON: " + e);
            } else {
              result := result.(errorMessage := result.errorMessage + ", Error parsing upload JSON: " + e);
            }
          case Parsed(_, sent) =>
            if sent.Some? {
              result := result.(uploadMbps := sent.value / 1000000.0);
            }
        }
        assert result == AfterUpload(down, upload);
      }
    }
    if result.downloadMbps > 0.0 && result.uploadMbps > 0.0 {
      result := result.(testCompleted := true);
    }
    r := Some(result);
  }

  /** A record carries no error message exactly when the download run gave
      a JSON report and the upload, if it ran, did too; a speed other than
      -1 was read from the matching report, and an upload speed needs a
      positive download and `-R`. Nothing is retried. */
  lemma LegacyTestFacts(s: Rated, run: Shell)
    requires |Split(s.s.command, ' ')| >= 3
    ensures var r := LegacyTest(s, run).value;
      var d := run(DownloadLine(s.s.command));
      var u := run(UploadLine(s.s.command));
      var uploaded := r.downloadMbps > 0.0 && Contains(s.s.options, "-R");
      (r.errorMessage == "" <==> d.Parsed? && (uploaded ==> u.Parsed?))
      && (r.downloadMbps != -1.0 ==> d.Parsed? && d.received.Some? && r.downloadMbps == d.received.value / 1000000.0)
      && (r.uploadMbps != -1.0 ==> uploaded && u.Parsed? && u.sent.Some? && r.uploadMbps == u.sent.value / 1000000.0)
  {
  }

  /** Every record is the test of one of the chosen servers. */
  lemma {:induction false} LegacyResultsFrom(selected: seq<Rated>, run: Shell)
    ensures forall x :: x in LegacyResults(selected, run) ==>
              exists s :: s in selected && LegacyTest(s, run) == Some(x)
    decreases |selected|
  {
    if |selected| > 0 {
      var init := selected[..|selected| - 1];
      var last := selected[|selected| - 1];
      LegacyResultsFrom(init, run);
      forall x | x in LegacyResults(selected, run)
        ensures exists s :: s in selected && LegacyTest(s, run) == Some(x)
      {
        if x in LegacyResults(init, run) {
          var s :| s in init && LegacyTest(s, run) == Some(x);
          assert s in selected;
        } else {
          assert LegacyTest(last, run) == Some(x);
        }
      }
    }
  }

  /** No server is skipped when every command has at least three words. */
  lemma {:induction false} LegacyResultsCount(selected: seq<Rated>, run: Shell)
    requires forall s :: s in selected ==> |Split(s.s.command, ' ')| >= 3
    ensures |LegacyResults(selected, run)| == |selected|
    decreases |selected|
  {
    if |selected| > 0 {
      var init := selected[..|selected| - 1];
      assert forall s :: s in init ==> s in selected;
      LegacyResultsCount(init, run);
      assert selected[|selected| - 1] in selected;
    }
  }

  /** The older path after the fetches (cmd/root.go:2617-3246): normalise,
      sort by distance, filter by capacity, group by continent, choose and
      test. `country` is the operator's country code. The outcome is the
      test stage of the continent choice over the capacity pool of some
      nearest-first order of the sites; ties in distance may fall in any
      order, as with `sort.Slice`. */
  method RunIperf3(feed: seq<FeedEntry>, loc: string, country: string,
                   distanceKm: (Coord, Coord) -> nat, speedtestMbps: real, run: Shell)
    returns (r: Outcome<seq<Iperf3Result>>)
    ensures r.Failure? ==> r.error == NoServers
    ensures r.Success? ==> |r.value| <= MaxServers
    ensures |LegacySites(feed, SelfCoordinates(loc), distanceKm)| == 0 ==> r.Failure?
    ensures exists nearestFirst: seq<Site> ::
      multiset(nearestFirst) == multiset(LegacySites(feed, SelfCoordinates(loc), distanceKm))
      && NonIncreasing(nearestFirst, SiteNearness)
      && r == LegacyStage(LegacyChoice(LegacyPool(nearestFirst, LegacyEstimate(speedtestMbps)), ContinentOf(country)), run)
  {
    var sites := NormaliseLegacy(feed, SelfCoordinates(loc), distanceKm);
    var byDistance := new Site[|sites|](i requires 0 <= i < |sites| => sites[i]);
    assert byDistance[..] == sites;
    SortDescending(byDistance, SiteNearness);
    var nearestFirst := byDistance[..];
    var estimate := LegacyEstimate(speedtestMbps);
    var pool := FilterByCapacity(nearestFirst, estimate);
    var groups := GroupByContinent(pool);
    var user := ContinentOf(country);
    var selected := SelectLegacy(groups, pool, user);
    r := RunLegacyTests(selected, run);
    LegacyChoiceFacts(pool, user);
    if |sites| == 0 {
      EmptyPool(nearestFirst, estimate, user);
    }
  }

  /** No sites, no pool, no choice. */
  lemma EmptyPool(sites: seq<Site>, estimate: real, user: string)
    requires |sites| == 0
    ensures LegacyChoice(LegacyPool(sites, estimate), user) == []
  {
    assert LegacyPool(sites, estimate) == [];
    assert Bucket([], user) == [];
  }
}
