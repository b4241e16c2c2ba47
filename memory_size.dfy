/** The test sizes of the two memory benchmarks (cmd/root.go:1141-1168 for
    sysbench and cmd/root.go:1204-1230 for the built-in copy loop): a
    quarter of the machine's memory, 1 GiB when the memory is unknown, and
    then a floor of 100 MiB and, for the built-in loop, a ceiling of 4 GiB.
    All arithmetic is Go's `uint64`. */
module MemorySize {
  import opened GoNumbers

  const MiB: nat := 1024 * 1024
  const DefaultTestBytes: nat := 1 * 1024 * 1024 * 1024
  const MinSysbenchMB: nat := 100
  const MinDirectBytes: nat := 100 * 1024 * 1024
  const MaxDirectBytes: nat := 4 * 1024 * 1024 * 1024

  /** The machine's memory in bytes from the digits the `MemTotal:` line
      of /proc/meminfo gives in kB, or `None` when there is no such line:
      0 when the digits are missing or do not fit in 64 bits, and the kB
      times 1024 otherwise, wrapping past 2^64 like `uint64`. */
  function TotalMemBytes(memTotalDigits: Option<string>): (r: nat)
    ensures r < TwoTo64
    ensures memTotalDigits.None? ==> r == 0
    ensures memTotalDigits.Some? && ParseUint(memTotalDigits.value).None? ==> r == 0
  {
    match memTotalDigits
    case None => 0
    case Some(digits) =>
      match ParseUint(digits)
      case None => 0
      case Some(kb) => WrapU64(kb * 1024)
  }

  /** Any memory size below 16 EiB is read exactly. */
  lemma TotalMemExact(kb: nat)
    requires kb * 1024 < TwoTo64
    ensures TotalMemBytes(Some(NatToDecimal(kb))) == kb * 1024
  {
    NatToDecimalValue(kb);
  }

  /** A quarter of the memory, or 1 GiB when it is unknown (0). */
  function QuarterOfMemory(totalMemBytes: nat): (r: nat)
    ensures totalMemBytes == 0 ==> r == DefaultTestBytes
    ensures totalMemBytes > 0 ==> 4 * r <= totalMemBytes < 4 * r + 4
  {
    if totalMemBytes > 0 then totalMemBytes / 4 else DefaultTestBytes
  }

  /** The `--memory-total-size` of the sysbench run, in MiB. */
  function SysbenchMB(totalMemBytes: nat): nat {
    var mb := QuarterOfMemory(totalMemBytes) / MiB;
    if mb < MinSysbenchMB then MinSysbenchMB else mb
  }

  /** The buffer size of the built-in copy loop, in bytes: between 100 MiB
      and 4 GiB, and a quarter of the memory whenever that quarter is; 1 GiB
      when the memory is unknown. */
  function DirectTestBytes(totalMemBytes: nat): (r: nat)
    ensures MinDirectBytes <= r <= MaxDirectBytes
    ensures MinDirectBytes <= QuarterOfMemory(totalMemBytes) <= MaxDirectBytes ==> r == QuarterOfMemory(totalMemBytes)
    ensures QuarterOfMemory(totalMemBytes) < MinDirectBytes ==> r == MinDirectBytes
    ensures QuarterOfMemory(totalMemBytes) > MaxDirectBytes ==> r == MaxDirectBytes
    ensures totalMemBytes == 0 ==> r == DefaultTestBytes
  {
    var bytes := QuarterOfMemory(totalMemBytes);
    if bytes < MinDirectBytes then MinDirectBytes
    else if bytes > MaxDirectBytes then MaxDirectBytes
    else bytes
  }

  /** The sysbench size is at least 100 MiB; it is the whole MiB in a
      quarter of the memory when that is at least 100 MiB, and 1024 MiB when
      the memory is unknown. */
  lemma SysbenchSize(totalMemBytes: nat)
    ensures var mb := SysbenchMB(totalMemBytes);
      var quarter := QuarterOfMemory(totalMemBytes);
      mb >= MinSysbenchMB
      && (quarter >= MinSysbenchMB * MiB ==> mb * MiB <= quarter < (mb + 1) * MiB)
      && (quarter < MinSysbenchMB * MiB ==> mb == MinSysbenchMB)
      && (totalMemBytes == 0 ==> mb == 1024)
  {
    var quarter := QuarterOfMemory(totalMemBytes);
    var q := quarter / MiB;
    assert quarter == MiB * q + quarter % MiB;
    if quarter >= MinSysbenchMB * MiB {
      assert MiB * MinSysbenchMB < MiB * (q + 1);
      MulCancel(MiB, MinSysbenchMB, q + 1);
    }
  }

  /** More memory never gives a smaller test. */
  lemma SizesMonotone(a: nat, b: nat)
    requires 0 < a <= b
    ensures SysbenchMB(a) <= SysbenchMB(b)
    ensures DirectTestBytes(a) <= DirectTestBytes(b)
  {
    DivMonotone(a, b, 4);
    DivMonotone(a / 4, b / 4, MiB);
  }

  lemma DivMonotone(a: nat, b: nat, d: nat)
    requires a <= b && d > 0
    ensures a / d <= b / d
  {
    var p, q := a / d, b / d;
    assert d * p <= a && b < d * (q + 1);
    MulCancel(d, p, q + 1);
  }

  lemma MulCancel(d: nat, x: nat, y: nat)
    requires d * x < d * y
    ensures x < y
  {
    if x >= y {
      MulMonotone(d, y, x);
    }
  }

  lemma MulMonotone(d: nat, x: nat, y: nat)
    requires x <= y
    ensures d * x <= d * y
  {
  }
}
