/** The FIO part of runDiskBenchmarks (cmd/root.go:1331-1897): the fixed
    table of scenarios, the profile that picks some of them, the test size
    and space check for each target, and the command-line arguments of one
    fio run, including the extra flags that protect a raw device. */
module Fio {
  import opened GoText
  import opened GoNumbers

  /** One fio job of the table. */
  datatype Scenario = Scenario(
    name: string, rw: string, bs: string, iodepth: int, numjobs: int,
    rwmixread: int, description: string, category: string)

  /** The table of cmd/root.go:1346-1366, in its order. */
  const Scenarios: seq<Scenario> := [
    Scenario("4K_RandRead_QD64", "randread", "4k", 64, 4, 0, "4K Random Read (QD=64)", "standard"),
    Scenario("4K_RandWrite_QD64", "randwrite", "4k", 64, 4, 0, "4K Random Write (QD=64)", "standard"),
    Scenario("1M_SeqRead_QD32", "read", "1m", 32, 2, 0, "1M Sequential Read (QD=32)", "standard"),
    Scenario("1M_SeqWrite_QD32", "write", "1m", 32, 2, 0, "1M Sequential Write (QD=32)", "standard"),
    Scenario("4K_Mixed_R70W30_QD64", "randrw", "4k", 64, 4, 70, "4K Mixed 70% Read 30% Write (QD=64)", "standard"),
    Scenario("4K_RandRead_QD1", "randread", "4k", 1, 1, 0, "4K Random Read (QD=1)", "iops_scaling"),
    Scenario("4K_RandRead_QD4", "randread", "4k", 4, 1, 0, "4K Random Read (QD=4)", "iops_scaling"),
    Scenario("4K_RandRead_QD16", "randread", "4k", 16, 1, 0, "4K Random Read (QD=16)", "iops_scaling"),
    Scenario("4K_RandRead_QD128", "randread", "4k", 128, 4, 0, "4K Random Read (QD=128)", "iops_scaling"),
    Scenario("128K_SeqRead_QD32", "read", "128k", 32, 2, 0, "128K Sequential Read (QD=32)", "throughput"),
    Scenario("128K_SeqWrite_QD32", "write", "128k", 32, 2, 0, "128K Sequential Write (QD=32)", "throughput"),
    Scenario("512K_SeqRead_QD32", "read", "512k", 32, 2, 0, "512K Sequential Read (QD=32)", "throughput"),
    Scenario("512K_SeqWrite_QD32", "write", "512k", 32, 2, 0, "512K Sequential Write (QD=32)", "throughput"),
    Scenario("4K_RandRead_QD1_Latency", "randread", "4k", 1, 1, 0, "4K Random Read Latency (QD=1)", "latency"),
    Scenario("4K_RandWrite_QD1_Latency", "randwrite", "4k", 1, 1, 0, "4K Random Write Latency (QD=1)", "latency")
  ]

  // ---------------------------------------------------------------------
  // Profiles (cmd/root.go:1780-1822)

  /** Whether `profile` runs scenario `s`: "quick" runs two named jobs,
      "thorough" and "all" run everything, "iops", "throughput" and
      "latency" add their own category to the standard jobs, and any other
      profile runs the standard jobs. */
  predicate Wanted(profile: string, s: Scenario) {
    if profile == "quick" then s.name == "4K_RandRead_QD64" || s.name == "1M_SeqRead_QD32"
    else if profile == "thorough" || profile == "all" then true
    else if profile == "iops" then s.category == "standard" || s.category == "iops_scaling"
    else if profile == "throughput" then s.category == "standard" || s.category == "throughput"
    else if profile == "latency" then s.category == "standard" || s.category == "latency"
    else s.category == "standard"
  }

  /** The elements of `s` that satisfy `p`, in order. */
  function Keep(s: seq<Scenario>, p: Scenario -> bool): (r: seq<Scenario>)
    ensures |r| <= |s|
    decreases |s|
  {
    if |s| == 0 then []
    else if p(s[|s| - 1]) then Keep(s[..|s| - 1], p) + [s[|s| - 1]]
    else Keep(s[..|s| - 1], p)
  }

  /** The scenarios a profile runs, in table order. */
  function ProfileScenarios(table: seq<Scenario>, profile: string): seq<Scenario> {
    Keep(table, s => Wanted(profile, s))
  }

  /** A scenario is kept exactly when it is in the table and `p` holds. */
  lemma {:induction false} KeepMember(s: seq<Scenario>, p: Scenario -> bool, x: Scenario)
    ensures x in Keep(s, p) <==> x in s && p(x)
    decreases |s|
  {
    if |s| > 0 {
      var init := s[..|s| - 1];
      KeepMember(init, p, x);
      assert s == init + [s[|s| - 1]];
    }
  }

  /** Keeping everything keeps the table as it is. */
  lemma {:induction false} KeepAll(s: seq<Scenario>, p: Scenario -> bool)
    requires forall x :: x in s ==> p(x)
    ensures Keep(s, p) == s
    decreases |s|
  {
    if |s| > 0 {
      var init := s[..|s| - 1];
      assert forall x :: x in init ==> x in s;
      KeepAll(init, p);
      assert s[|s| - 1] in s;
    }
  }

  /** Two predicates that agree everywhere keep the same scenarios. */
  lemma {:induction false} KeepSame(s: seq<Scenario>, p: Scenario -> bool, q: Scenario -> bool)
    requires forall x :: p(x) == q(x)
    ensures Keep(s, p) == Keep(s, q)
    decreases |s|
  {
    if |s| > 0 {
      KeepSame(s[..|s| - 1], p, q);
    }
  }

  /** A scenario runs exactly when it is in the table and the profile
      wants it. */
  lemma ProfileMember(table: seq<Scenario>, profile: string, x: Scenario)
    ensures x in ProfileScenarios(table, profile) <==> x in table && Wanted(profile, x)
  {
    KeepMember(table, s => Wanted(profile, s), x);
  }

  /** Every profile except "quick" runs all the standard jobs. */
  lemma StandardAlwaysRuns(table: seq<Scenario>, profile: string, x: Scenario)
    requires profile != "quick" && x in table && x.category == "standard"
    ensures x in ProfileScenarios(table, profile)
  {
    ProfileMember(table, profile, x);
  }

  /** "thorough" and "all" run the whole table, in order. */
  lemma WholeTable(table: seq<Scenario>, profile: string)
    requires profile == "thorough" || profile == "all"
    ensures ProfileScenarios(table, profile) == table
  {
    KeepAll(table, s => Wanted(profile, s));
  }

  /** A profile with another name behaves like "standard". */
  lemma UnknownProfile(table: seq<Scenario>, profile: string)
    requires profile !in {"quick", "thorough", "all", "iops", "throughput", "latency"}
    ensures ProfileScenarios(table, profile) == ProfileScenarios(table, "standard")
  {
    KeepSame(table, s => Wanted(profile, s), s => Wanted("standard", s));
  }

  /** The standard jobs are the first five of the table. */
  lemma TableCategories()
    ensures forall k :: 0 <= k < 5 ==> Scenarios[k].category == "standard"
    ensures forall k :: 5 <= k < |Scenarios| ==> Scenarios[k].category != "standard"
  {
  }

  /** On the table, "standard" runs the first five jobs. */
  lemma StandardOnTable()
    ensures ProfileScenarios(Scenarios, "standard") == Scenarios[..5]
  {
    var first, rest := Scenarios[..5], Scenarios[5..];
    assert Scenarios == first + rest;
    var standard := (s: Scenario) => Wanted("standard", s);
    TableCategories();
    KeepAppend(first, rest, standard);
    KeepNone(rest, standard);
    KeepAll(first, standard);
  }

  /** On the table, "quick" runs the 4K random read and the 1M sequential
      read at their standard depths. */
  lemma QuickOnTable()
    ensures ProfileScenarios(Scenarios, "quick") == [Scenarios[0], Scenarios[2]]
  {
    var first, rest := Scenarios[..3], Scenarios[3..];
    assert Scenarios == first + rest;
    var quick := (s: Scenario) => Wanted("quick", s);
    QuickNames();
    KeepAppend(first, rest, quick);
    KeepNone(rest, quick);
    KeepFirstAndLast(first, quick);
  }

  /** Only the first and the third job carry the names "quick" runs. */
  lemma QuickNames()
    ensures Wanted("quick", Scenarios[0]) && !Wanted("quick", Scenarios[1]) && Wanted("quick", Scenarios[2])
    ensures forall k :: 3 <= k < |Scenarios| ==> !Wanted("quick", Scenarios[k])
  {
  }

  /** Of three scenarios, keeping the first and the last. */
  lemma KeepFirstAndLast(a: seq<Scenario>, p: Scenario -> bool)
    requires |a| == 3 && p(a[0]) && !p(a[1]) && p(a[2])
    ensures Keep(a, p) == [a[0], a[2]]
  {
    assert a[..2][..1] == a[..1] && a[..1][..0] == [];
    assert Keep(a[..1], p) == [a[0]];
    assert Keep(a[..2], p) == [a[0]];
  }

  /** Keeping from two parts is keeping from each. */
  lemma {:induction false} KeepAppend(a: seq<Scenario>, b: seq<Scenario>, p: Scenario -> bool)
    ensures Keep(a + b, p) == Keep(a, p) + Keep(b, p)
    decreases |b|
  {
    if |b| > 0 {
      var init := b[..|b| - 1];
      assert (a + b)[..|a + b| - 1] == a + init;
      KeepAppend(a, init, p);
    } else {
      assert a + b == a;
    }
  }

  /** Nothing is kept when `p` holds for no element. */
  lemma {:induction false} KeepNone(s: seq<Scenario>, p: Scenario -> bool)
    requires forall k :: 0 <= k < |s| ==> !p(s[k])
    ensures Keep(s, p) == []
    decreases |s|
  {
    if |s| > 0 {
      KeepNone(s[..|s| - 1], p);
    }
  }

  /** The scenarios of `table` that satisfy `p`, appended one by one. */
  method KeepWhere(table: seq<Scenario>, p: Scenario -> bool) returns (selected: seq<Scenario>)
    ensures selected == Keep(table, p)
  {
    selected := [];
    for i := 0 to |table|
      invariant selected == Keep(table[..i], p)
    {
      assert table[..i + 1][..i] == table[..i];
      if p(table[i]) {
        selected := selected + [table[i]];
      }
    }
    assert table[..|table|] == table;
  }

  /** The switch over the profile name. */
  method SelectScenarios(table: seq<Scenario>, profile: string) returns (selected: seq<Scenario>)
    ensures selected == ProfileScenarios(table, profile)
  {
    var keep: Scenario -> bool;
    if profile == "quick" {
      keep := (s: Scenario) => s.name == "4K_RandRead_QD64" || s.name == "1M_SeqRead_QD32";
    } else if profile == "thorough" || profile == "all" {
      selected := table;
      WholeTable(table, profile);
      return;
    } else if profile == "iops" {
      keep := (s: Scenario) => s.category == "standard" || s.category == "iops_scaling";
    } else if profile == "throughput" {
      keep := (s: Scenario) => s.category == "standard" || s.category == "throughput";
    } else if profile == "latency" {
      keep := (s: Scenario) => s.category == "standard" || s.category == "latency";
    } else {
      keep := (s: Scenario) => s.category == "standard";
    }
    selected := KeepWhere(table, keep);
    KeepSame(table, keep, s => Wanted(profile, s));
  }

  // ---------------------------------------------------------------------
  // Test size and free space (cmd/root.go:1693-1766)

  const GiB: nat := 1024 * 1024 * 1024
  const MiB: nat := 1024 * 1024

  /** A raw device is assumed to have 10 GiB to spare. */
  const DirectDeviceSpace: nat := 1024 * 1024 * 1024 * 10

  /** The free bytes `df --output=avail -B1` reports: the second line
      without blanks, read as an unsigned 64-bit number; `None` when that
      line is not a number (the target is skipped), and 0 when there is no
      second line. */
  function AvailableSpace(dfOutput: string): (r: Option<nat>)
    ensures r.Some? ==> r.value < TwoTo64
    ensures |Lines(dfOutput)| < 2 ==> r == Some(0)
    ensures |Lines(dfOutput)| >= 2 ==> r == ParseUint(TrimSpace(Lines(dfOutput)[1]))
  {
    var lines := Lines(dfOutput);
    if |lines| >= 2 then ParseUint(TrimSpace(lines[1])) else Some(0)
  }

  /** A `df` report whose second line is the decimal free-byte count gives
      that count, and a report of one line gives 0. */
  lemma AvailableSpaceReads(header: string, n: nat)
    requires '\n' !in header && n < TwoTo64
    ensures AvailableSpace(header + "\n" + NatToDecimal(n) + "\n") == Some(n)
    ensures AvailableSpace(header) == Some(0)
  {
    var d := NatToDecimal(n);
    assert '\n' !in d && '\r' != d[|d| - 1];
    SplitNoSeparator("", '\n');
    SplitAfterToken(d, '\n', "");
    SplitAfterToken(header, '\n', d + "\n");
    var report := header + "\n" + d + "\n";
    assert report == header + ['\n'] + (d + ['\n'] + "");
    assert d + "\n" == d + ['\n'] + "";
    assert Split(report, '\n') == [header, d, ""];
    assert Split(report, '\n')[..2] == [header, d];
    assert |Lines(report)| == 2 && Lines(report)[1] == DropCR(d) == d;
    assert !IsSpace(d[0]) && TrimLeftSpace(d) == d;
    assert !IsSpace(d[|d| - 1]) && TrimRightSpace(d) == d;
    assert TrimSpace(d) == d;
    ParseUintDecimal(n);
    SplitNoSeparator(header, '\n');
  }

  /** The size text without its last character. */
  function SizeDigits(testSize: string): string
    requires |testSize| > 0
  {
    testSize[..|testSize| - 1]
  }

  /** The test size in bytes as cmd/root.go:1739-1757 computes it: a number
      followed by "G" or "M", multiplied in 64-bit unsigned arithmetic, so
      that a product past 2^64 wraps around. */
  function TestSizeBytes(testSize: string): (r: Option<nat>)
    ensures r.Some? ==> r.value < TwoTo64
    ensures r.Some? ==> HasSuffix(testSize, "G") || HasSuffix(testSize, "M")
  {
    if HasSuffix(testSize, "G") then
      match ParseUint(SizeDigits(testSize))
      case None => None
      case Some(g) => Some(WrapU64(g * GiB))
    else if HasSuffix(testSize, "M") then
      match ParseUint(SizeDigits(testSize))
      case None => None
      case Some(m) => Some(WrapU64(m * MiB))
    else None
  }

  /** The test size with the overflow rejected: the same parse, but a size
      of 2^64 bytes or more is refused instead of wrapping. */
  function CheckedTestSizeBytes(testSize: string): (r: Option<nat>)
    ensures r.Some? ==> r.value < TwoTo64
    ensures r.Some? ==> HasSuffix(testSize, "G") || HasSuffix(testSize, "M")
  {
    if HasSuffix(testSize, "G") then
      match ParseUint(SizeDigits(testSize))
      case None => None
      case Some(g) => if g * GiB < TwoTo64 then Some(g * GiB) else None
    else if HasSuffix(testSize, "M") then
      match ParseUint(SizeDigits(testSize))
      case None => None
      case Some(m) => if m * MiB < TwoTo64 then Some(m * MiB) else None
    else None
  }

  /** Reading a `%d` number back. */
  lemma ParseUintDecimal(n: nat)
    requires n < TwoTo64
    ensures ParseUint(NatToDecimal(n)) == Some(n)
  {
    NatToDecimalValue(n);
  }

  /** The size text without its unit letter is the number. */
  lemma SizeDigitsOf(n: nat, unit: string)
    requires |unit| == 1
    ensures HasSuffix(NatToDecimal(n) + unit, unit)
    ensures SizeDigits(NatToDecimal(n) + unit) == NatToDecimal(n)
  {
    var t := NatToDecimal(n) + unit;
    assert t[|t| - 1..] == unit;
  }

  /** A "NG" size is N GiB as written, reduced modulo 2^64. */
  lemma TestSizeGiB(n: nat)
    requires n < TwoTo64
    ensures TestSizeBytes(NatToDecimal(n) + "G") == Some(WrapU64(n * GiB))
  {
    SizeDigitsOf(n, "G");
    ParseUintDecimal(n);
  }

  /** A multiple of 2^34 GiB is a multiple of 2^64 bytes, which the 64-bit
      product turns into 0: a size such as "17179869184G" parses as an
      empty test file, which every target has room for. */
  lemma TestSizeWraps(n: nat)
    requires n < TwoTo64 && n % 17179869184 == 0
    ensures TestSizeBytes(NatToDecimal(n) + "G") == Some(0)
  {
    TestSizeGiB(n);
    WholeWraps(n / 17179869184);
  }

  /** q times 2^34 GiB is q times 2^64 bytes. */
  lemma WholeWraps(q: nat)
    ensures WrapU64(17179869184 * q * GiB) == 0
  {
    assert 17179869184 * q * GiB == TwoTo64 * q;
  }

  /** The checked size is exactly the number times the unit, when that is
      below 2^64, and refused otherwise; it agrees with the wrapping one
      whenever it accepts. */
  lemma CheckedTestSize(n: nat, unit: string)
    requires n < TwoTo64 && (unit == "G" || unit == "M")
    ensures var bytes := n * (if unit == "G" then GiB else MiB);
      CheckedTestSizeBytes(NatToDecimal(n) + unit) == (if bytes < TwoTo64 then Some(bytes) else None)
      && (bytes < TwoTo64 ==> TestSizeBytes(NatToDecimal(n) + unit) == Some(bytes))
  {
    SizeDigitsOf(n, unit);
    ParseUintDecimal(n);
    assert unit == "M" ==> !HasSuffix(NatToDecimal(n) + unit, "G");
  }

  /** Any size the checked parse accepts is what the wrapping parse
      computes. */
  lemma CheckedAgrees(testSize: string)
    requires CheckedTestSizeBytes(testSize).Some?
    ensures TestSizeBytes(testSize) == CheckedTestSizeBytes(testSize)
  {
  }

  /** What happens to a target before its scenarios run. */
  datatype SizeCheck = BadSize | NotEnoughSpace(required: nat) | Fits(bytes: nat)

  /** The size parse and the space check (cmd/root.go:1739-1766), as
      written: a size that does not parse skips the target, and so does one
      larger than the free space; the size is the wrapping one. */
  function CheckSpace(testSize: string, available: nat): (r: SizeCheck)
    ensures r.BadSize? <==> TestSizeBytes(testSize).None?
    ensures r.Fits? ==> r.bytes <= available && Some(r.bytes) == TestSizeBytes(testSize)
    ensures r.NotEnoughSpace? ==> available < r.required && Some(r.required) == TestSizeBytes(testSize)
  {
    match TestSizeBytes(testSize)
    case None => BadSize
    case Some(bytes) => if available < bytes then NotEnoughSpace(bytes) else Fits(bytes)
  }

  /** The space check on the checked size: the same decision, with a size
      of 2^64 bytes or more skipped like one that does not parse. */
  function CheckedSpace(testSize: string, available: nat): (r: SizeCheck)
    ensures r.BadSize? <==> CheckedTestSizeBytes(testSize).None?
    ensures r.Fits? ==> r.bytes <= available && Some(r.bytes) == CheckedTestSizeBytes(testSize)
    ensures r.NotEnoughSpace? ==> available < r.required && Some(r.required) == CheckedTestSizeBytes(testSize)
  {
    match CheckedTestSizeBytes(testSize)
    case None => BadSize
    case Some(bytes) => if available < bytes then NotEnoughSpace(bytes) else Fits(bytes)
  }

  /** As written, a multiple of 2^34 GiB passes the space check of any
      target, even one with no free byte, as an empty test file. */
  lemma SpaceCheckWraps(n: nat, available: nat)
    requires n < TwoTo64 && n % 17179869184 == 0
    ensures CheckSpace(NatToDecimal(n) + "G", available) == Fits(0)
  {
    TestSizeWraps(n);
  }

  /** With the checked size, a size of 2^64 bytes or more skips the target
      whatever its free space, and a smaller one is checked as written. */
  lemma CheckedSpaceRefuses(n: nat, unit: string, available: nat)
    requires n < TwoTo64 && (unit == "G" || unit == "M")
    ensures var bytes := n * (if unit == "G" then GiB else MiB);
      (bytes >= TwoTo64 ==> CheckedSpace(NatToDecimal(n) + unit, available) == BadSize)
      && (bytes < TwoTo64 ==> CheckedSpace(NatToDecimal(n) + unit, available) == CheckSpace(NatToDecimal(n) + unit, available))
  {
    CheckedTestSize(n, unit);
  }

  /** On a raw device with its assumed 10 GiB, sizes of 1G to 10G run. */
  lemma DirectDeviceSizes(n: nat)
    requires 1 <= n <= 10
    ensures CheckSpace(NatToDecimal(n) + "G", DirectDeviceSpace) == Fits(n * GiB)
  {
    assert n * GiB <= 10 * GiB < TwoTo64;
    CheckedTestSize(n, "G");
    assert TestSizeBytes(NatToDecimal(n) + "G") == Some(n * GiB);
  }

  // ---------------------------------------------------------------------
  // The fio command line (cmd/root.go:1861-1897)

  /** The arguments common to every run. */
  function BaseArgs(s: Scenario, testFilePath: string, testSize: string): (r: seq<string>)
    ensures |r| == 12
  {
    ["--name=" + s.name, "--filename=" + testFilePath, "--ioengine=libaio", "--direct=1",
     "--rw=" + s.rw, "--bs=" + s.bs, "--iodepth=" + IntToDecimal(s.iodepth),
     "--numjobs=" + IntToDecimal(s.numjobs), "--size=" + testSize, "--runtime=60",
     "--group_reporting", "--output-format=json"]
  }

  const WriteSafety: seq<string> := ["--size=64M", "--offset=1G", "--verify=0", "--fsync=1", "--end_fsync=1"]
  const ReadSafety: seq<string> := ["--readonly", "--verify=0"]

  /** The flags for a workload on a raw device: a write workload is given
      a 64 MiB region 1 GiB into the device, with syncing and no
      verification; any other workload is opened read-only. A job counts as
      writing when its `rw` contains "write", as written. */
  function DeviceFlags(rw: string, direct: bool): seq<string> {
    if !direct then []
    else if Contains(rw, "write") then WriteSafety
    else ReadSafety
  }

  function MixFlags(s: Scenario): seq<string> {
    if s.rwmixread > 0 then ["--rwmixread=" + IntToDecimal(s.rwmixread)] else []
  }

  /** The arguments of one fio run, as written. */
  function FioArgs(s: Scenario, testFilePath: string, testSize: string, direct: bool): seq<string> {
    BaseArgs(s, testFilePath, testSize) + DeviceFlags(s.rw, direct) + MixFlags(s)
  }

  /** No common argument and no mix argument is "--readonly" or
      "--offset=1G": their fourth characters differ. */
  lemma NoSafetyFlagsElsewhere(s: Scenario, testFilePath: string, testSize: string, flag: string)
    requires flag == "--readonly" || flag == "--offset=1G"
    ensures flag !in BaseArgs(s, testFilePath, testSize) + MixFlags(s)
  {
    var base := BaseArgs(s, testFilePath, testSize) + MixFlags(s);
    forall k | 0 <= k < |base|
      ensures base[k] != flag
    {
      assert base[k][3] != flag[3];
    }
  }

  /** On a raw device a workload is opened read-only exactly when its `rw`
      does not contain "write", and is given the 1 GiB offset exactly when
      it does; on a file neither flag appears. */
  lemma SafetyFlags(s: Scenario, testFilePath: string, testSize: string, direct: bool)
    ensures "--readonly" in FioArgs(s, testFilePath, testSize, direct) <==> direct && !Contains(s.rw, "write")
    ensures "--offset=1G" in FioArgs(s, testFilePath, testSize, direct) <==> direct && Contains(s.rw, "write")
  {
    NoSafetyFlagsElsewhere(s, testFilePath, testSize, "--readonly");
    NoSafetyFlagsElsewhere(s, testFilePath, testSize, "--offset=1G");
    var args := FioArgs(s, testFilePath, testSize, direct);
    var other := BaseArgs(s, testFilePath, testSize) + MixFlags(s);
    forall flag | flag == "--readonly" || flag == "--offset=1G"
      ensures flag in args <==> flag in DeviceFlags(s.rw, direct)
    {
      assert flag !in other;
      assert forall y :: y in args <==> y in other || y in DeviceFlags(s.rw, direct);
    }
  }

  /** For a write on a raw device the last size flag is "--size=64M", after
      the requested size; the mix ratio is passed exactly when positive. */
  lemma FioArgsLayout(s: Scenario, testFilePath: string, testSize: string, direct: bool)
    ensures var args := FioArgs(s, testFilePath, testSize, direct);
      args[..12] == BaseArgs(s, testFilePath, testSize)
      && args[8] == "--size=" + testSize
      && (direct && Contains(s.rw, "write") ==> args[12] == "--size=64M" && args[13] == "--offset=1G")
      && |args| == 12 + (if !direct then 0 else if Contains(s.rw, "write") then 5 else 2)
                     + (if s.rwmixread > 0 then 1 else 0)
      && (s.rwmixread > 0 <==> args[|args| - 1] == "--rwmixread=" + IntToDecimal(s.rwmixread))
  {
    var args := FioArgs(s, testFilePath, testSize, direct);
    if s.rwmixread <= 0 {
      var last := args[|args| - 1];
      assert last[3] != ("--rwmixread=" + IntToDecimal(s.rwmixread))[3];
    }
  }

  // The mixed mode "randrw" does not contain "write".

  /** Every character of a contained word occurs in the text. */
  lemma ContainedChar(s: string, t: string, k: nat)
    requires k < |t|
    ensures Contains(s, t) ==> t[k] in s
  {
    if Contains(s, t) {
      ContainsWitness(s, t);
      var i :| OccursAt(s, t, i);
      assert s[i + k] == s[i..i + |t|][k];
    }
  }

  /** The mixed 70/30 job of the table writes, but its `rw` is "randrw",
      which does not contain "write": on a raw device it is passed
      "--readonly" and no offset. */
  lemma MixedJobReadOnly(testFilePath: string, testSize: string)
    ensures Scenarios[4].rw == "randrw"
    ensures "--readonly" in FioArgs(Scenarios[4], testFilePath, testSize, true)
    ensures "--offset=1G" !in FioArgs(Scenarios[4], testFilePath, testSize, true)
  {
    var rw := Scenarios[4].rw;
    ContainedChar(rw, "write", 4);
    assert "write"[4] !in rw;
    SafetyFlags(Scenarios[4], testFilePath, testSize, true);
  }

  /** Whether a fio `rw` mode writes: the modes containing "write"
      (write, randwrite, readwrite, trimwrite) and the short forms "rw" and
      "randrw". */
  predicate Writes(rw: string) {
    Contains(rw, "write") || Contains(rw, "rw")
  }

  /** The safety flags with the writing modes recognised. */
  function CheckedDeviceFlags(rw: string, direct: bool): (r: seq<string>)
    ensures direct && Writes(rw) ==> r == WriteSafety
    ensures direct && !Writes(rw) ==> r == ReadSafety
    ensures !direct ==> r == []
  {
    if !direct then []
    else if Writes(rw) then WriteSafety
    else ReadSafety
  }

  /** The arguments of one fio run with the writing modes recognised. */
  function CheckedFioArgs(s: Scenario, testFilePath: string, testSize: string, direct: bool): seq<string> {
    BaseArgs(s, testFilePath, testSize) + CheckedDeviceFlags(s.rw, direct) + MixFlags(s)
  }

  /** With the writing modes recognised, no writing job is opened
      read-only on a raw device and every one of them is confined to the
      64 MiB region at 1 GiB. */
  lemma CheckedSafetyFlags(s: Scenario, testFilePath: string, testSize: string, direct: bool)
    ensures "--readonly" in CheckedFioArgs(s, testFilePath, testSize, direct) <==> direct && !Writes(s.rw)
    ensures "--offset=1G" in CheckedFioArgs(s, testFilePath, testSize, direct) <==> direct && Writes(s.rw)
  {
    NoSafetyFlagsElsewhere(s, testFilePath, testSize, "--readonly");
    NoSafetyFlagsElsewhere(s, testFilePath, testSize, "--offset=1G");
    var args := CheckedFioArgs(s, testFilePath, testSize, direct);
    var other := BaseArgs(s, testFilePath, testSize) + MixFlags(s);
    assert forall y :: y in args <==> y in other || y in CheckedDeviceFlags(s.rw, direct);
  }

  /** The mixed job of the table is recognised as writing, so on a raw
      device it gets the offset and no "--readonly". */
  lemma MixedJobWrites(testFilePath: string, testSize: string)
    ensures Writes(Scenarios[4].rw)
    ensures "--offset=1G" in CheckedFioArgs(Scenarios[4], testFilePath, testSize, true)
    ensures "--readonly" !in CheckedFioArgs(Scenarios[4], testFilePath, testSize, true)
  {
    var rw := Scenarios[4].rw;
    assert rw[4..6] == "rw";
    ContainsAt(rw, "rw", 4);
    CheckedSafetyFlags(Scenarios[4], testFilePath, testSize, true);
  }
}
