/** One netblast test task per selected server (cmd/root.go:3832-3950): a
    download run with one simpler retry after a process error, an upload run
    under the same rule when the download gave a positive speed and the
    server offers `-R`, and the -1 sentinels kept wherever a step fails.
    The iperf3 subprocess is an oracle from the argument vector to what the
    run produced. */
module Runner {
  import opened GoText
  import opened GoNumbers
  import opened Catalog

  /** What one `runCommand` call produced: a process error, output that is
      not JSON, or a JSON report with the optional numbers at
      `end.sum_received.bits_per_second` and `end.sum_sent.bits_per_second`. */
  datatype Attempt = ProcessError | Unparsable | Report(received: Option<real>, sent: Option<real>)

  type Oracle = seq<string> -> Attempt

  /** The per-server record (NetblastResult). */
  datatype NetblastResult = NetblastResult(
    host: string, port: int, location: string, distance: nat,
    downloadMbps: real, uploadMbps: real, testCompleted: bool, rank: int)

  /** What a task sends, and the argument vectors it ran, in order. */
  datatype Task = Task(result: NetblastResult, issued: seq<seq<string>>)

  const Unmeasured: real := -1.0

  /** The record a task starts from: both speeds at -1, not completed. */
  function Initial(server: Candidate, rank: int): (r: NetblastResult)
    ensures r.downloadMbps == Unmeasured && r.uploadMbps == Unmeasured && !r.testCompleted
    ensures r.host == server.host && r.port == server.port && r.rank == rank
  {
    NetblastResult(server.host, server.port, server.city + ", " + server.country,
                   server.distance, Unmeasured, Unmeasured, false, rank)
  }

  function DownloadCommand(parts: seq<string>): seq<string> {
    ["timeout", "15"] + parts + ["-t", "5", "-J"]
  }

  function UploadCommand(parts: seq<string>): seq<string> {
    ["timeout", "15"] + parts + ["-t", "5", "-R", "-J"]
  }

  /** The simpler command tried after a process error. */
  function RetryCommand(host: string, port: int, upload: bool): seq<string> {
    ["timeout", "10", "iperf3", "-c", host, "-p", IntToDecimal(port), "-t", "3"]
      + (if upload then ["-R"] else []) + ["-J"]
  }

  /** Bits per second to Mbps. */
  function Mbps(bps: real): real {
    bps / 1000000.0
  }

  /** The speed a report gives, or the sentinel when the field is missing. */
  function Speed(field: Option<real>, current: real): real {
    match field
    case Some(bps) => Mbps(bps)
    case None => current
  }

  /** Run `first`; only after a process error, run `retry` as well. */
  function WithRetry(first: seq<string>, retry: seq<string>, run: Oracle): (r: (Attempt, seq<seq<string>>))
    ensures run(first).ProcessError? ==> r == (run(retry), [first, retry])
    ensures !run(first).ProcessError? ==> r == (run(first), [first])
  {
    var a := run(first);
    if a.ProcessError? then (run(retry), [first, retry]) else (a, [first])
  }

  /** The whole task for `server` with initial rank `rank`: exactly one
      record, for its own server and initial rank, marked completed exactly
      when both speeds are positive. */
  function TestTask(server: Candidate, rank: int, run: Oracle): (t: Task)
    ensures t.result.host == server.host && t.result.port == server.port
    ensures t.result.distance == server.distance && t.result.rank == rank
    ensures t.result.location == server.city + ", " + server.country
    ensures t.result.testCompleted <==> t.result.downloadMbps > 0.0 && t.result.uploadMbps > 0.0
  {
    var result := Initial(server, rank);
    var parts := Split(server.command, ' ');
    if |parts| < 3 then Task(result, [])
    else
      var (down, downIssued) := WithRetry(DownloadCommand(parts), RetryCommand(server.host, server.port, false), run);
      if !down.Report? then Task(result, downIssued)
      else
        var result := result.(downloadMbps := Speed(down.received, Unmeasured));
        if result.downloadMbps > 0.0 && Contains(server.options, "-R") then
          var (up, upIssued) := WithRetry(UploadCommand(parts), RetryCommand(server.host, server.port, true), run);
          if !up.Report? then Task(result, downIssued + upIssued)
          else
            var result := result.(uploadMbps := Speed(up.sent, Unmeasured));
            Task(result.(testCompleted := result.downloadMbps > 0.0 && result.uploadMbps > 0.0),
                 downIssued + upIssued)
        else
          Task(result.(testCompleted := result.downloadMbps > 0.0 && result.uploadMbps > 0.0), downIssued)
  }

  /** The body of the test goroutine, updating the record step by step and
      recording every command it runs. */
  method RunServerTest(server: Candidate, rank: int, run: Oracle)
    returns (result: NetblastResult, issued: seq<seq<string>>)
    ensures Task(result, issued) == TestTask(server, rank, run)
  {
    result := NetblastResult(server.host, server.port, server.city + ", " + server.country,
                             server.distance, -1.0, -1.0, false, rank);
    issued := [];
    var commandParts := Split(server.command, ' ');
    if |commandParts| < 3 {
      return;
    }
    var downloadArgs := ["timeout", "15"] + commandParts + ["-t", "5", "-J"];
    assert downloadArgs == DownloadCommand(commandParts);
    issued := issued + [downloadArgs];
    assert issued == [downloadArgs];
    var download := run(downloadArgs);
    if download.ProcessError? {
      var retryArgs := ["timeout", "10", "iperf3", "-c", server.host, "-p", IntToDecimal(server.port), "-t", "3", "-J"];
      assert retryArgs == RetryCommand(server.host, server.port, false);
      issued := issued + [retryArgs];
      assert issued == [downloadArgs, retryArgs];
      download := run(retryArgs);
    }
    assert (download, issued) == WithRetry(DownloadCommand(commandParts), RetryCommand(server.host, server.port, false), run);
    if download.ProcessError? || download.Unparsable? {
      return;
    }
    if download.received.Some? {
      result := result.(downloadMbps := download.received.value / 1000000.0);
    }
    if result.downloadMbps > 0.0 {
      var supportsUpload := Contains(server.options, "-R");
      if supportsUpload {
        var uploadArgs := ["timeout", "15"] + commandParts + ["-t", "5", "-R", "-J"];
        assert uploadArgs == UploadCommand(commandParts);
        ghost var downIssued := issued;
        issued := issued + [uploadArgs];
        var upload := run(uploadArgs);
        if upload.ProcessError? {
          var retryArgs := ["timeout", "10", "iperf3", "-c", server.host, "-p", IntToDecimal(server.port), "-t", "3", "-R", "-J"];
          assert retryArgs == RetryCommand(server.host, server.port, true);
          issued := issued + [retryArgs];
          assert issued == downIssued + [uploadArgs, retryArgs];
          upload := run(retryArgs);
        }
        assert issued == downIssued + WithRetry(UploadCommand(commandParts), RetryCommand(server.host, server.port, true), run).1;
        assert upload == WithRetry(UploadCommand(commandParts), RetryCommand(server.host, server.port, true), run).0;
        if upload.ProcessError? || upload.Unparsable? {
          return;
        }
        if upload.sent.Some? {
          result := result.(uploadMbps := upload.sent.value / 1000000.0);
        }
      }
    }
    if result.downloadMbps > 0.0 && result.uploadMbps > 0.0 {
      result := result.(testCompleted := true);
    }
  }

  /** The four commands a task can run are told apart by their second
      argument or their length. */
  lemma CommandsDistinct(parts: seq<string>, host: string, port: int)
    ensures DownloadCommand(parts) != UploadCommand(parts)
    ensures DownloadCommand(parts) != RetryCommand(host, port, false)
    ensures DownloadCommand(parts) != RetryCommand(host, port, true)
    ensures UploadCommand(parts) != RetryCommand(host, port, false)
    ensures UploadCommand(parts) != RetryCommand(host, port, true)
    ensures RetryCommand(host, port, false) != RetryCommand(host, port, true)
  {
    assert |DownloadCommand(parts)| != |UploadCommand(parts)|;
    assert DownloadCommand(parts)[1] == "15" && UploadCommand(parts)[1] == "15";
    assert RetryCommand(host, port, false)[1] == "10" && RetryCommand(host, port, true)[1] == "10";
    assert |RetryCommand(host, port, false)| != |RetryCommand(host, port, true)|;
  }

  /** The download attempt a task counts: the first run, or its retry after
      a process error. */
  function DownloadAttempt(server: Candidate, run: Oracle): Attempt {
    WithRetry(DownloadCommand(Split(server.command, ' ')), RetryCommand(server.host, server.port, false), run).0
  }

  function UploadAttempt(server: Candidate, run: Oracle): Attempt {
    WithRetry(UploadCommand(Split(server.command, ' ')), RetryCommand(server.host, server.port, true), run).0
  }

  /** A speed other than the sentinel was read from the counted attempt's
      report; an upload speed implies a positive download and `-R`. */
  lemma TaskSpeeds(server: Candidate, rank: int, run: Oracle)
    ensures var r := TestTask(server, rank, run).result;
      var down := DownloadAttempt(server, run);
      var up := UploadAttempt(server, run);
      (r.downloadMbps != Unmeasured ==>
         |Split(server.command, ' ')| >= 3 && down.Report? && down.received.Some?
         && r.downloadMbps == Mbps(down.received.value))
      && (r.uploadMbps != Unmeasured ==>
         r.downloadMbps > 0.0 && Contains(server.options, "-R")
         && up.Report? && up.sent.Some? && r.uploadMbps == Mbps(up.sent.value))
  {
  }

  /** Which commands a task runs: none for a launch command of fewer than
      three words; otherwise the download command first, its retry exactly
      after a process error, the upload command exactly when the download
      report gave a positive speed and the server offers `-R`, and the
      upload retry exactly after the upload command's process error. */
  lemma TaskCommands(server: Candidate, rank: int, run: Oracle)
    ensures var t := TestTask(server, rank, run);
      var parts := Split(server.command, ' ');
      var host := server.host;
      var port := server.port;
      (t.issued == [] <==> |parts| < 3)
      && (|parts| >= 3 ==>
        t.issued[0] == DownloadCommand(parts)
        && (RetryCommand(host, port, false) in t.issued <==> run(DownloadCommand(parts)).ProcessError?)
        && (UploadCommand(parts) in t.issued <==>
              DownloadAttempt(server, run).Report? && t.result.downloadMbps > 0.0
              && Contains(server.options, "-R"))
        && (RetryCommand(host, port, true) in t.issued <==>
              UploadCommand(parts) in t.issued && run(UploadCommand(parts)).ProcessError?))
      && |t.issued| <= 4
  {
    CommandsDistinct(Split(server.command, ' '), server.host, server.port);
  }
}
