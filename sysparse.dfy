/** The small parsers behind the system-information block: `parseIntStrict`,
    `parseLscpu`, `parseFreeForTotal`, the unit choice of
    `humanReadableBytes`, the NVMe scans of `lspci` and `lsblk` output, the
    CPU core count and the operating-system name (cmd/root.go:522-648 and
    4932-5099). Tool output arrives as text; running the tools is not part
    of the model. */
module SysParse {
  import opened GoText
  import opened GoNumbers

  // ---------------------------------------------------------------------
  // parseIntStrict (cmd/root.go:4968-4991)

  /** The unit words `parseIntStrict` deletes, in the order it deletes them. */
  const Units: seq<string> := ["MHz", "KiB", "MiB", "GiB", "KB", "MB", "GB", ","]

  /** Each word of `units` removed in turn with `strings.ReplaceAll`. */
  function RemoveUnits(s: string, units: seq<string>): (r: string)
    requires forall k :: 0 <= k < |units| ==> |units[k]| > 0
    ensures |r| <= |s|
    decreases |units|
  {
    if |units| == 0 then s else RemoveUnits(RemoveAll(s, units[0]), units[1..])
  }

  /** The text the leading-digit pattern is matched against. */
  function Cleaned(s: string): string {
    TrimSpace(RemoveUnits(s, Units))
  }

  /** `parseIntStrict`: after the units and the surrounding white space are
      gone, the leading run of ASCII digits, read by `Sscanf("%d")`, which
      refuses a value beyond the 64-bit range. No digits, or too many, is
      an error (`None`); a sign is never accepted. */
  function ParseIntStrict(s: string): (r: Option<int>)
    ensures r.Some? ==> 0 <= r.value <= MaxInt64
    ensures r.Some? ==> |Cleaned(s)| > 0 && IsDigit(Cleaned(s)[0])
  {
    LeadingNumber(Cleaned(s))
  }

  /** The leading run of ASCII digits of `t` as a 64-bit number. */
  function LeadingNumber(t: string): (r: Option<int>)
    ensures r.Some? ==> 0 <= r.value <= MaxInt64
    ensures r.Some? ==> |t| > 0 && IsDigit(t[0])
  {
    var n := LeadingDigits(t);
    if n > 0 && DigitsValue(t[..n]) <= MaxInt64 then Some(DigitsValue(t[..n])) else None
  }

  /** Removing a word that starts with a non-digit leaves a digit prefix in
      place. */
  lemma {:induction false} RemoveAllAfterDigits(d: string, b: string, t: string)
    requires AllDigits(d) && |t| > 0 && !IsDigit(t[0])
    ensures RemoveAll(d + b, t) == d + RemoveAll(b, t)
    decreases |d|
  {
    if |d| == 0 {
      assert d + b == b;
    } else {
      var s := d + b;
      assert s[0] == d[0] && s[1..] == d[1..] + b;
      RemoveAllKeepsFirst(s, t);
      assert AllDigits(d[1..]);
      RemoveAllAfterDigits(d[1..], b, t);
      assert [d[0]] + d[1..] == d;
    }
  }

  /** A first character unlike the word's first is kept, and the removal
      goes on after it. */
  lemma RemoveAllKeepsFirst(s: string, t: string)
    requires |s| > 0 && |t| > 0 && s[0] != t[0]
    ensures RemoveAll(s, t) == [s[0]] + RemoveAll(s[1..], t)
  {
    if |s| < |t| {
      assert RemoveAll(s[1..], t) == s[1..];
      assert s == [s[0]] + s[1..];
    } else {
      assert s[..|t|][0] != t[0];
    }
  }

  lemma {:induction false} RemoveUnitsAfterDigits(d: string, b: string, units: seq<string>)
    requires AllDigits(d)
    requires forall k :: 0 <= k < |units| ==> |units[k]| > 0 && !IsDigit(units[k][0])
    ensures RemoveUnits(d + b, units) == d + RemoveUnits(b, units)
    decreases |units|
  {
    if |units| > 0 {
      RemoveAllAfterDigits(d, b, units[0]);
      RemoveUnitsAfterDigits(d, RemoveAll(b, units[0]), units[1..]);
    }
  }

  /** A first character unlike the word's is kept by `RemoveAll`. */
  lemma RemoveAllFirst(s: string, t: string)
    requires |s| > 0 && |t| > 0 && s[0] != t[0]
    ensures |RemoveAll(s, t)| > 0 && RemoveAll(s, t)[0] == s[0]
  {
    if |s| >= |t| {
      assert s[..|t|][0] != t[0];
    }
  }

  lemma {:induction false} RemoveUnitsFirst(s: string, units: seq<string>)
    requires |s| > 0
    requires forall k :: 0 <= k < |units| ==> |units[k]| > 0 && units[k][0] != s[0]
    ensures |RemoveUnits(s, units)| > 0 && RemoveUnits(s, units)[0] == s[0]
    decreases |units|
  {
    if |units| > 0 {
      RemoveAllFirst(s, units[0]);
      RemoveUnitsFirst(RemoveAll(s, units[0]), units[1..]);
    }
  }

  /** `LeadingDigits` is the length of the digit run that ends at the first
      non-digit. */
  lemma {:induction false} LeadingDigitsExact(s: string, m: nat)
    requires m <= |s| && AllDigits(s[..m])
    requires m == |s| || !IsDigit(s[m])
    ensures LeadingDigits(s) == m
    decreases m
  {
    if m > 0 {
      assert IsDigit(s[..m][0]);
      assert s[1..][..m - 1] == s[..m][1..];
      LeadingDigitsExact(s[1..], m - 1);
    }
  }

  /** `TrimSpace` keeps a leading digit run and what follows it up to a
      white-space character. */
  lemma TrimSpaceAfterDigits(d: string, z: string)
    requires IsDigitString(d)
    requires z == "" || IsSpace(z[0])
    ensures var r := TrimSpace(d + z);
      |d| <= |r| && r[..|d|] == d && (|r| == |d| || IsSpace(r[|d|]))
  {
    var s := d + z;
    assert !IsSpace(s[0]);
    assert TrimLeftSpace(s) == s;
    var r := TrimRightSpace(s);
    assert r == s[..|r|];
    assert !IsSpace(s[|d| - 1]);
    assert |d| <= |r|;
    assert r[..|d|] == s[..|d|] == d;
  }

  /** Every unit word is non-empty and starts with 'M', 'K', 'G' or ','. */
  lemma UnitsStart()
    ensures forall k :: 0 <= k < |Units| ==> |Units[k]| > 0 && Units[k][0] in "MKG,"
  {
  }

  /** Words that start with neither a digit nor white space. */
  predicate UnitWords(units: seq<string>) {
    forall k :: 0 <= k < |units| ==> |units[k]| > 0 && !IsDigit(units[k][0]) && !IsSpace(units[k][0])
  }

  /** What is left of digits followed by white space once such words and the
      surrounding blanks are gone: the digits, then nothing or a blank. */
  lemma CleanedDigitsWith(d: string, rest: string, units: seq<string>)
    requires IsDigitString(d) && UnitWords(units)
    requires rest == "" || IsSpace(rest[0])
    ensures var t := TrimSpace(RemoveUnits(d + rest, units));
      |d| <= |t| && t[..|d|] == d && (|t| == |d| || IsSpace(t[|d|]))
  {
    RemoveUnitsAfterDigits(d, rest, units);
    if rest != "" {
      RemoveUnitsFirst(rest, units);
    }
    TrimSpaceAfterDigits(d, RemoveUnits(rest, units));
  }

  lemma CleanedDigits(d: string, rest: string)
    requires IsDigitString(d)
    requires rest == "" || IsSpace(rest[0])
    ensures var t := Cleaned(d + rest);
      |d| <= |t| && t[..|d|] == d && (|t| == |d| || IsSpace(t[|d|]))
  {
    UnitsStart();
    CleanedDigitsWith(d, rest, Units);
  }

  /** The `%d` form of a number, followed by nothing or by white space and
      any text, is read back as the number: trailing text such as
      " (2 instances)" is ignored. */
  lemma ParseIntStrictDecimal(n: nat, rest: string)
    requires n <= MaxInt64
    requires rest == "" || IsSpace(rest[0])
    ensures ParseIntStrict(NatToDecimal(n) + rest) == Some(n)
  {
    var d := NatToDecimal(n);
    CleanedDigits(d, rest);
    NatToDecimalValue(n);
    ParseIntStrictDigits(d + rest, d);
  }

  /** Text whose cleaned form starts with a digit run `d` that ends the
      run is read as the value of `d`. */
  lemma ParseIntStrictDigits(s: string, d: string)
    requires IsDigitString(d) && DigitsValue(d) <= MaxInt64
    requires var t := Cleaned(s); |d| <= |t| && t[..|d|] == d && (|t| == |d| || IsSpace(t[|d|]))
    ensures ParseIntStrict(s) == Some(DigitsValue(d))
  {
    LeadingNumberDigits(Cleaned(s), d);
  }

  lemma LeadingNumberDigits(t: string, d: string)
    requires IsDigitString(d) && DigitsValue(d) <= MaxInt64
    requires |d| <= |t| && t[..|d|] == d && (|t| == |d| || IsSpace(t[|d|]))
    ensures LeadingNumber(t) == Some(DigitsValue(d))
  {
    assert |t| == |d| || !IsDigit(t[|d|]);
    LeadingDigitsExact(t, |d|);
  }

  /** Text that starts with neither a digit, white space nor the first
      letter of a unit word is not a number; in particular a sign is never
      accepted, and neither is the "N/A" that `parseLscpu` gives for a
      missing key. */
  lemma ParseIntStrictNoDigits(s: string)
    requires |s| > 0 && !IsDigit(s[0]) && !IsSpace(s[0]) && s[0] !in "MKG,"
    ensures ParseIntStrict(s) == None
  {
    UnitsStart();
    RemoveUnitsFirst(s, Units);
    var u := RemoveUnits(s, Units);
    assert TrimLeftSpace(u) == u;
    var r := TrimRightSpace(u);
    assert |r| > 0 && r[0] == s[0];
    LeadingDigitsExact(Cleaned(s), 0);
  }

  // ---------------------------------------------------------------------
  // humanReadableBytes (cmd/root.go:4954-4966): the choice of unit only

  /** 1024 to the power `k`. */
  function Pow1024(k: nat): (p: nat)
    ensures p >= 1
    ensures k >= 1 ==> p >= 1024
  {
    if k == 0 then 1 else 1024 * Pow1024(k - 1)
  }

  /** How many more times the loop divides `n` by 1024 before it drops
      below 1024: the `k` with 1024^k <= n < 1024^(k+1). */
  function Steps(n: nat): (k: nat)
    ensures n >= 1 ==> Pow1024(k) <= n < Pow1024(k + 1)
    decreases n
  {
    if n < 1024 then 0 else 1 + Steps(n / 1024)
  }

  /** The exponent `humanReadableBytes` picks for `b` >= 1024: the unit
      1024^(e+1) that leaves a quotient in [1, 1024). */
  function UnitExponent(b: nat): (e: nat)
    requires b >= 1024
    ensures Pow1024(e + 1) <= b < Pow1024(e + 2)
  {
    Steps(b / 1024)
  }

  /** The bounds determine the exponent: no other unit leaves a quotient in
      [1, 1024). */
  lemma {:induction false} ExponentUnique(b: nat, e: nat)
    requires Pow1024(e + 1) <= b < Pow1024(e + 2)
    ensures UnitExponent(b) == e
  {
    StepsUnique(b / 1024, e);
  }

  lemma {:induction false} StepsUnique(n: nat, k: nat)
    requires Pow1024(k) <= n < Pow1024(k + 1)
    ensures Steps(n) == k
    decreases k
  {
    if k > 0 {
      StepsUnique(n / 1024, k - 1);
    }
  }

  lemma {:induction false} StepsBelow(n: nat, m: nat)
    requires n < Pow1024(m + 1)
    ensures Steps(n) <= m
    decreases m
  {
    if n >= 1024 {
      StepsBelow(n / 1024, m - 1);
    }
  }

  /** A uint64 never needs a prefix past "E", and the divisor always fits in
      the int64 it is kept in. */
  lemma ExponentFits(b: nat)
    requires 1024 <= b < TwoTo64
    ensures UnitExponent(b) <= 5
    ensures Pow1024(UnitExponent(b) + 1) <= MaxInt64
  {
    assert Pow1024(6) == 0x1000_0000_0000_0000;
    StepsBelow(b / 1024, 5);
    PowMonotone(UnitExponent(b) + 1, 6);
  }

  lemma {:induction false} PowMonotone(i: nat, j: nat)
    requires i <= j
    ensures Pow1024(i) <= Pow1024(j)
    decreases j
  {
    if i < j {
      PowMonotone(i, j - 1);
    }
  }

  const Prefixes: string := "KMGTPE"

  /** What `humanReadableBytes` prints: a byte count, or a quotient with a
      binary prefix (the `%.1f` rounding of the quotient is not modelled). */
  datatype Readable = InBytes(text: string) | InUnits(value: real, unit: string)

  function Display(b: nat): Readable
    requires b < TwoTo64
  {
    if b < 1024 then InBytes(IntToDecimal(b) + " B")
    else
      ExponentFits(b);
      var e := UnitExponent(b);
      InUnits(b as real / Pow1024(e + 1) as real, [Prefixes[e]] + "iB")
  }

  /** The loop of `humanReadableBytes`: below 1024 the count in bytes;
      otherwise the quotient by the unit 1024^(e+1) with 1024^(e+1) <= b <
      1024^(e+2), and the e-th prefix of "KMGTPE". */
  method HumanReadableBytes(b: nat) returns (r: Readable)
    requires b < TwoTo64
    ensures b < 1024 ==> r == InBytes(IntToDecimal(b) + " B")
    ensures b >= 1024 ==> (UnitExponent(b) <= 5
      && r == InUnits(b as real / Pow1024(UnitExponent(b) + 1) as real, [Prefixes[UnitExponent(b)]] + "iB"))
    ensures r == Display(b)
  {
    if b < 1024 {
      return InBytes(IntToDecimal(b) + " B");
    }
    var div, exp := 1024, 0;
    var n: nat := b / 1024;
    while n >= 1024
      invariant div == Pow1024(exp + 1)
      invariant exp + Steps(n) == Steps(b / 1024)
      decreases n
    {
      div := div * 1024;
      exp := exp + 1;
      n := n / 1024;
    }
    ExponentFits(b);
    r := InUnits(b as real / div as real, [Prefixes[exp]] + "iB");
  }

  // ---------------------------------------------------------------------
  // parseLscpu (cmd/root.go:4994-5003) and parseFreeForTotal (4932-4950)

  /** The position of the first element satisfying `p`, as a scan that
      stops there finds it. */
  function First<T>(s: seq<T>, p: T -> bool): (r: Option<nat>)
    ensures r.Some? ==> r.value < |s| && p(s[r.value])
    ensures r.Some? ==> forall j :: 0 <= j < r.value ==> !p(s[j])
    ensures r.None? ==> forall j :: 0 <= j < |s| ==> !p(s[j])
    decreases |s|
  {
    if |s| == 0 then None
    else if p(s[0]) then Some(0)
    else
      var rest := First(s[1..], p);
      if rest.None? then None
      else
        assert forall j :: 1 <= j < |s| ==> s[j] == s[1..][j - 1];
        Some(rest.value + 1)
  }

  /** Only the first element satisfying `p` is found. */
  lemma FirstUnique<T>(s: seq<T>, p: T -> bool, i: nat)
    requires i < |s| && p(s[i]) && forall j :: 0 <= j < i ==> !p(s[j])
    ensures First(s, p) == Some(i)
  {
  }

  /** `parseLscpu` on the scanned lines: the rest of the first line starting
      with `key`, without its surrounding white space, or "N/A" when no line
      does. */
  function LscpuValue(lines: seq<string>, key: string): (r: string)
    ensures (forall j :: 0 <= j < |lines| ==> !HasPrefix(lines[j], key)) ==> r == "N/A"
  {
    match First(lines, line => HasPrefix(line, key))
    case None => "N/A"
    case Some(i) => TrimSpace(TrimPrefix(lines[i], key))
  }

  /** The value comes from the first line that starts with the key,
      whatever later lines say. */
  lemma LscpuFirstLine(lines: seq<string>, key: string, i: nat)
    requires i < |lines| && HasPrefix(lines[i], key)
    requires forall j :: 0 <= j < i ==> !HasPrefix(lines[j], key)
    ensures LscpuValue(lines, key) == TrimSpace(TrimPrefix(lines[i], key))
  {
    FirstUnique(lines, line => HasPrefix(line, key), i);
  }

  function ParseLscpu(output: string, key: string): string {
    LscpuValue(Lines(output), key)
  }

  /** A line that `parseFreeForTotal` accepts: it starts with `key` and its
      second field is a number. */
  predicate FreeLine(line: string, key: string) {
    HasPrefix(line, key) && |Fields(line)| > 1 && ParseIntStrict(Fields(line)[1]).Some?
  }

  /** `parseFreeForTotal` on the scanned lines: the byte count of the first
      line that starts with `key` and whose second field is a number, as
      `humanReadableBytes` shows it; `None` stands for "N/A". */
  function FreeTotal(lines: seq<string>, key: string): (r: Option<Readable>)
    ensures r.None? <==> forall j :: 0 <= j < |lines| ==> !FreeLine(lines[j], key)
  {
    match First(lines, line => FreeLine(line, key))
    case None => None
    case Some(i) => Some(Display(ParseIntStrict(Fields(lines[i])[1]).value))
  }

  /** The total comes from the first accepted line: a line starting with
      `key` whose second field is missing or not a number is passed over. */
  lemma FreeFirstLine(lines: seq<string>, key: string, i: nat)
    requires i < |lines| && FreeLine(lines[i], key)
    requires forall j :: 0 <= j < i ==> !FreeLine(lines[j], key)
    ensures FreeTotal(lines, key) == Some(Display(ParseIntStrict(Fields(lines[i])[1]).value))
  {
    FirstUnique(lines, line => FreeLine(line, key), i);
  }

  function ParseFreeForTotal(output: string, key: string): Option<Readable> {
    FreeTotal(Lines(output), key)
  }

  // ---------------------------------------------------------------------
  // Line scans that collect one item from some of the lines

  /** What `f` makes of each line it accepts, in line order. */
  function Collect<U>(lines: seq<string>, f: string -> Option<U>): (r: seq<U>)
    ensures |r| <= |lines|
    decreases |lines|
  {
    if |lines| == 0 then []
    else
      var init := Collect(lines[..|lines| - 1], f);
      match f(lines[|lines| - 1])
      case None => init
      case Some(x) => init + [x]
  }

  /** One more line adds its item, if any. */
  lemma CollectStep<U>(lines: seq<string>, f: string -> Option<U>, i: nat)
    requires i < |lines|
    ensures Collect(lines[..i + 1], f)
      == Collect(lines[..i], f) + (if f(lines[i]).Some? then [f(lines[i]).value] else [])
  {
    assert lines[..i + 1][..i] == lines[..i];
  }

  /** Every accepted line contributes its item. */
  lemma {:induction false} CollectComplete<U>(lines: seq<string>, f: string -> Option<U>, i: nat)
    requires i < |lines| && f(lines[i]).Some?
    ensures f(lines[i]).value in Collect(lines, f)
    decreases |lines|
  {
    var init := lines[..|lines| - 1];
    if i < |init| {
      assert init[i] == lines[i];
      CollectComplete(init, f, i);
    }
  }

  /** Every item comes from an accepted line. */
  lemma {:induction false} CollectSound<U>(lines: seq<string>, f: string -> Option<U>, x: U)
    requires x in Collect(lines, f)
    ensures exists i :: 0 <= i < |lines| && f(lines[i]) == Some(x)
    decreases |lines|
  {
    var init := lines[..|lines| - 1];
    var last := |lines| - 1;
    if x in Collect(init, f) {
      CollectSound(init, f, x);
      var i :| 0 <= i < |init| && f(init[i]) == Some(x);
      assert lines[i] == init[i];
    } else {
      assert f(lines[last]) == Some(x);
    }
  }

  // ---------------------------------------------------------------------
  // parseLspciForNVMe (cmd/root.go:5057-5068)

  /** The pattern `(?i)Non-Volatile memory controller|NVMe device`. Neither
      alternative holds a letter whose case folding reaches beyond ASCII
      ('k' or 's'), so lower-casing ASCII letters decides it exactly. */
  predicate IsNvmeController(line: string) {
    Contains(LowerAscii(line), "non-volatile memory controller")
    || Contains(LowerAscii(line), "nvme device")
  }

  /** The report for one line of `lspci` output. */
  function ControllerLine(line: string): Option<string> {
    if IsNvmeController(line) then Some(TrimSpace(line)) else None
  }

  /** The controllers named in a sequence of lines, in order. */
  function Controllers(lines: seq<string>): (r: seq<string>)
    ensures |r| <= |lines|
  {
    Collect(lines, ControllerLine)
  }

  /** Every matching line is reported, trimmed. */
  lemma ControllersComplete(lines: seq<string>, i: nat)
    requires i < |lines| && IsNvmeController(lines[i])
    ensures TrimSpace(lines[i]) in Controllers(lines)
  {
    CollectComplete(lines, ControllerLine, i);
  }

  /** Every reported controller is a matching line, trimmed. */
  lemma ControllersSound(lines: seq<string>, x: string)
    requires x in Controllers(lines)
    ensures exists i :: 0 <= i < |lines| && IsNvmeController(lines[i]) && x == TrimSpace(lines[i])
  {
    CollectSound(lines, ControllerLine, x);
    var i :| 0 <= i < |lines| && ControllerLine(lines[i]) == Some(x);
  }

  /** The scan of `lspci` output, appending each matching line. */
  method ParseLspciForNVMe(output: string) returns (controllers: seq<string>)
    ensures controllers == Controllers(Lines(output))
  {
    var lines := Lines(output);
    controllers := [];
    for i := 0 to |lines|
      invariant controllers == Controllers(lines[..i])
    {
      assert lines[..i + 1][..i] == lines[..i];
      var line := lines[i];
      if Contains(LowerAscii(line), "non-volatile memory controller") || Contains(LowerAscii(line), "nvme device") {
        controllers := controllers + [TrimSpace(line)];
      }
    }
    assert lines[..|lines|] == lines;
  }

  // ---------------------------------------------------------------------
  // parseLsblkForNVMeDetails (cmd/root.go:5070-5099)

  datatype NVMeInfo = NVMeInfo(devicePath: string, model: string, size: string)

  const Unknown: string := "[unknown]"

  /** The record for the words of a device line (the first word being the
      device path): the model is the words between the path and the last
      word, which is the size; "[unknown]" stands for a missing part. */
  function DeviceInfo(parts: seq<string>): (r: NVMeInfo)
    requires |parts| >= 1
    ensures r.devicePath == parts[0]
  {
    if |parts| >= 3 then NVMeInfo(parts[0], Join(parts[1..|parts| - 1], " "), parts[|parts| - 1])
    else if |parts| == 2 then NVMeInfo(parts[0], Unknown, parts[1])
    else NVMeInfo(parts[0], Unknown, Unknown)
  }

  /** The device a line of `lsblk` output describes: the trimmed line must
      contain "nvme" and its first word must start with "/dev/nvme". */
  function NvmeDetail(line: string): (r: Option<NVMeInfo>)
    ensures r.Some? ==> HasPrefix(r.value.devicePath, "/dev/nvme")
    ensures r.Some? ==> |Fields(TrimSpace(line))| >= 1 && r == Some(DeviceInfo(Fields(TrimSpace(line))))
  {
    var t := TrimSpace(line);
    if !Contains(t, "nvme") then None
    else
      var parts := Fields(t);
      if |parts| >= 1 && HasPrefix(parts[0], "/dev/nvme") then Some(DeviceInfo(parts)) else None
  }

  /** The "nvme" filter never drops a device line: a line is reported
      exactly when its first word starts with "/dev/nvme". */
  lemma NvmeDetailExactly(line: string)
    ensures NvmeDetail(line).Some? <==>
      |Fields(TrimSpace(line))| >= 1 && HasPrefix(Fields(TrimSpace(line))[0], "/dev/nvme")
  {
    var t := TrimSpace(line);
    var parts := Fields(t);
    if |parts| >= 1 && HasPrefix(parts[0], "/dev/nvme") {
      FieldOccurs(t);
      var i :| OccursAt(t, parts[0], i);
      DevicePathNamesNvme(t, parts[0], i);
    }
  }

  /** A word starting with "/dev/nvme" makes any text holding it contain
      "nvme". */
  lemma DevicePathNamesNvme(t: string, w: string, i: int)
    requires OccursAt(t, w, i) && HasPrefix(w, "/dev/nvme")
    ensures Contains(t, "nvme")
  {
    assert w[..9] == "/dev/nvme";
    forall k | 0 <= k < 4
      ensures t[i + 5 + k] == "nvme"[k]
    {
      assert t[i + 5 + k] == t[i..i + |w|][5 + k] == w[5 + k] == w[..9][5 + k];
    }
    assert t[i + 5..i + 9] == "nvme";
    ContainsAt(t, "nvme", i + 5);
  }

  /** The first field of a string occurs in it. */
  lemma {:induction false} FieldOccurs(s: string)
    requires |Fields(s)| >= 1
    ensures exists i :: OccursAt(s, Fields(s)[0], i)
    decreases |s|
  {
    if IsSpace(s[0]) {
      FieldOccurs(s[1..]);
      var i :| OccursAt(s[1..], Fields(s[1..])[0], i);
      assert s[i + 1..i + 1 + |Fields(s)[0]|] == s[1..][i..i + |Fields(s)[0]|];
      assert OccursAt(s, Fields(s)[0], i + 1);
    } else {
      assert OccursAt(s, Fields(s)[0], 0);
    }
  }

  /** Size and model are the last word and the words between: the model's
      words come back from splitting it at spaces. With one or no word after
      the path the missing parts are "[unknown]". */
  lemma DeviceInfoParts(parts: seq<string>)
    requires |parts| >= 1
    requires forall k, j :: 0 <= k < |parts| && 0 <= j < |parts[k]| ==> !IsSpace(parts[k][j])
    ensures var info := DeviceInfo(parts);
      (|parts| >= 3 ==> info.size == parts[|parts| - 1] && Split(info.model, ' ') == parts[1..|parts| - 1])
      && (|parts| == 2 ==> info.model == Unknown && info.size == parts[1])
      && (|parts| == 1 ==> info.model == Unknown && info.size == Unknown)
  {
    if |parts| >= 3 {
      var words := parts[1..|parts| - 1];
      forall k | 0 <= k < |words|
        ensures ' ' !in words[k]
      {
        assert words[k] == parts[k + 1];
        assert IsSpace(' ');
      }
      SplitJoin(words, ' ');
    }
  }

  /** Splitting a join of separator-free words gives the words back. */
  lemma {:induction false} SplitJoin(words: seq<string>, sep: char)
    requires |words| >= 1
    requires forall k :: 0 <= k < |words| ==> sep !in words[k]
    ensures Split(Join(words, [sep]), sep) == words
    decreases |words|
  {
    if |words| == 1 {
      SplitNoSeparator(words[0], sep);
    } else {
      SplitJoin(words[1..], sep);
      SplitAfterToken(words[0], sep, Join(words[1..], [sep]));
      assert [words[0]] + words[1..] == words;
    }
  }

  /** The devices described in a sequence of lines, in order. */
  function NvmeDetails(lines: seq<string>): (r: seq<NVMeInfo>)
    ensures |r| <= |lines|
  {
    Collect(lines, NvmeDetail)
  }

  /** Every device line is reported, and every record is the record of a
      device line, whose path starts with "/dev/nvme". */
  lemma NvmeDetailsExactly(lines: seq<string>, i: nat, x: NVMeInfo)
    ensures i < |lines| && NvmeDetail(lines[i]).Some? ==> NvmeDetail(lines[i]).value in NvmeDetails(lines)
    ensures x in NvmeDetails(lines) ==>
      HasPrefix(x.devicePath, "/dev/nvme") && exists j :: 0 <= j < |lines| && NvmeDetail(lines[j]) == Some(x)
  {
    if i < |lines| && NvmeDetail(lines[i]).Some? {
      CollectComplete(lines, NvmeDetail, i);
    }
    if x in NvmeDetails(lines) {
      CollectSound(lines, NvmeDetail, x);
    }
  }

  /** The scan of `lsblk` output, appending one record per device line. */
  method ParseLsblkForNVMeDetails(output: string) returns (nvmes: seq<NVMeInfo>)
    ensures nvmes == NvmeDetails(Lines(output))
  {
    var lines := Lines(output);
    nvmes := [];
    for i := 0 to |lines|
      invariant nvmes == Collect(lines[..i], NvmeDetail)
    {
      var info := DeviceLine(lines[i]);
      CollectStep(lines, NvmeDetail, i);
      if info.Some? {
        nvmes := nvmes + [info.value];
      }
    }
    assert lines[..|lines|] == lines;
  }

  /** One pass of the scan's loop body: lines without "nvme" and lines whose
      first word is not an NVMe device path are passed over. */
  method DeviceLine(rawLine: string) returns (r: Option<NVMeInfo>)
    ensures r == NvmeDetail(rawLine)
  {
    var line := TrimSpace(rawLine);
    if !Contains(line, "nvme") {
      assert NvmeDetail(rawLine) == None;
      return None;
    }
    var parts := Fields(line);
    if |parts| >= 1 && HasPrefix(parts[0], "/dev/nvme") {
      assert NvmeDetail(rawLine) == Some(DeviceInfo(parts));
      var info := DeviceRecord(parts);
      r := Some(info);
    } else {
      assert NvmeDetail(rawLine) == None;
      r := None;
    }
  }

  /** The record built field by field from the words of a device line. */
  method DeviceRecord(parts: seq<string>) returns (info: NVMeInfo)
    requires |parts| >= 1
    ensures info == DeviceInfo(parts)
  {
    info := NVMeInfo(parts[0], "", "");
    if |parts| >= 3 {
      info := info.(model := Join(parts[1..|parts| - 1], " "), size := parts[|parts| - 1]);
    } else if |parts| == 2 {
      info := info.(model := "[unknown]", size := parts[1]);
    } else {
      info := info.(model := "[unknown]", size := "[unknown]");
    }
  }

  // ---------------------------------------------------------------------
  // CPU cores (cmd/root.go:522-544)

  /** The core count shown, from the parsed "Socket(s):", "Core(s) per
      socket:", "CPU(s):" and "Thread(s) per core:" figures and the
      "CPU(s):" text: sockets times cores per socket when both are positive
      (the product wraps like Go's `int`); otherwise the logical CPUs divided
      by the threads per core; otherwise the logical CPU text itself when
      it is a positive number; otherwise "N/A". */
  function CoreCount(sockets: Option<int>, perSocket: Option<int>,
                     total: Option<int>, perCore: Option<int>, threads: string): string
  {
    if sockets.Some? && perSocket.Some? && sockets.value > 0 && perSocket.value > 0 then
      IntToDecimal(Wrap64(sockets.value * perSocket.value))
    else if total.Some? && perCore.Some? && total.value > 0 && perCore.value > 0 then
      IntToDecimal(total.value / perCore.value)
    else if total.Some? && total.value > 0 then threads
    else "N/A"
  }

  /** `CPUCores` for the output of `lscpu`. */
  function CpuCores(output: string): string {
    var threads := ParseLscpu(output, "CPU(s):");
    CoreCount(ParseIntStrict(ParseLscpu(output, "Socket(s):")),
              ParseIntStrict(ParseLscpu(output, "Core(s) per socket:")),
              ParseIntStrict(threads),
              ParseIntStrict(ParseLscpu(output, "Thread(s) per core:")),
              threads)
  }

  /** Whenever a count is derived it reads back as that count: the product
      of sockets and cores per socket (when it fits in 64 bits), or the
      logical CPUs divided by the threads per core, which is at most the
      logical CPUs. Without positive socket figures and without a positive
      logical CPU figure the count is "N/A". */
  lemma CoreCountFacts(sockets: Option<int>, perSocket: Option<int>,
                       total: Option<int>, perCore: Option<int>, threads: string)
    requires total.Some? ==> total.value <= MaxInt64
    ensures var r := CoreCount(sockets, perSocket, total, perCore, threads);
      var bySockets := sockets.Some? && perSocket.Some? && sockets.value > 0 && perSocket.value > 0;
      var byThreads := total.Some? && perCore.Some? && total.value > 0 && perCore.value > 0;
      (bySockets && sockets.value * perSocket.value <= MaxInt64 ==>
         Atoi(r) == Some(sockets.value * perSocket.value))
      && (!bySockets && byThreads ==>
         Atoi(r) == Some(total.value / perCore.value) && total.value / perCore.value <= total.value)
      && (!bySockets && !byThreads && total.Some? && total.value > 0 ==> r == threads)
      && (!bySockets && (total.None? || total.value <= 0) ==> r == "N/A")
  {
    if sockets.Some? && perSocket.Some? && sockets.value > 0 && perSocket.value > 0 {
      if sockets.value * perSocket.value <= MaxInt64 {
        AtoiIntToDecimal(sockets.value * perSocket.value);
      }
    } else if total.Some? && perCore.Some? && total.value > 0 && perCore.value > 0 {
      DivideBounds(total.value, perCore.value);
      AtoiIntToDecimal(total.value / perCore.value);
    }
  }

  /** Without a "CPU(s):" line the logical CPU figure is missing, so without
      socket figures the count is "N/A". */
  lemma NoCpuLine(output: string)
    requires forall j :: 0 <= j < |Lines(output)| ==> !HasPrefix(Lines(output)[j], "CPU(s):")
    ensures ParseIntStrict(ParseLscpu(output, "CPU(s):")) == None
  {
    var v := ParseLscpu(output, "CPU(s):");
    assert v == "N/A";
    ParseIntStrictNoDigits(v);
  }

  /** `CPUSpeed` from the "CPU max MHz:", "CPU min MHz:" and "CPU MHz:"
      readings (cmd/root.go:545-558): the maximum when known, else the
      current speed, else "N/A"; a known minimum is added to a known speed. */
  function CpuSpeed(maxMhz: string, minMhz: string, currentMhz: string): string {
    var speed := if maxMhz != "N/A" then maxMhz + " MHz (Max)"
                 else if currentMhz != "N/A" then currentMhz + " MHz (Current)"
                 else "N/A";
    if minMhz != "N/A" && speed != "N/A" then speed + " (Min: " + minMhz + " MHz)" else speed
  }

  function CpuSpeedOf(output: string): string {
    CpuSpeed(ParseLscpu(output, "CPU max MHz:"), ParseLscpu(output, "CPU min MHz:"),
             ParseLscpu(output, "CPU MHz:"))
  }

  /** The speed is "N/A" exactly when neither the maximum nor the current
      speed is known; a known maximum hides the current speed and leads the
      text; otherwise the current speed leads it; the minimum is never shown
      on its own and, when known, is appended to the speed shown without it. */
  lemma CpuSpeedFacts(maxMhz: string, minMhz: string, currentMhz: string, otherMhz: string)
    ensures var r := CpuSpeed(maxMhz, minMhz, currentMhz);
      (r == "N/A" <==> maxMhz == "N/A" && currentMhz == "N/A")
      && (maxMhz != "N/A" ==> HasPrefix(r, maxMhz + " MHz (Max)")
                              && r == CpuSpeed(maxMhz, minMhz, otherMhz))
      && (maxMhz == "N/A" && currentMhz != "N/A" ==> HasPrefix(r, currentMhz + " MHz (Current)"))
      && (minMhz != "N/A" && r != "N/A" ==> HasSuffix(r, " (Min: " + minMhz + " MHz)"))
      && (minMhz != "N/A" && r != "N/A" ==>
            r == CpuSpeed(maxMhz, "N/A", currentMhz) + " (Min: " + minMhz + " MHz)")
  {
    var r := CpuSpeed(maxMhz, minMhz, currentMhz);
    var speed := if maxMhz != "N/A" then maxMhz + " MHz (Max)"
                 else if currentMhz != "N/A" then currentMhz + " MHz (Current)"
                 else "N/A";
    assert maxMhz != "N/A" ==> |speed| > 3;
    assert maxMhz == "N/A" && currentMhz != "N/A" ==> |speed| > 3;
    var full := speed + " (Min: " + minMhz + " MHz)";
    assert |full| > 3;
    assert full[..|speed|] == speed;
    assert full[|full| - |" (Min: " + minMhz + " MHz)"|..] == " (Min: " + minMhz + " MHz)";
    if maxMhz != "N/A" {
      assert speed[..|maxMhz + " MHz (Max)"|] == maxMhz + " MHz (Max)";
    } else if currentMhz != "N/A" {
      assert speed[..|currentMhz + " MHz (Current)"|] == currentMhz + " MHz (Current)";
    }
  }

  /** `CPUCache` from the "L3 cache:" and "L2 cache:" readings
      (cmd/root.go:560-568): the L3 size marked " (L3)", else the L2 size
      marked " (L2)", else "N/A". */
  function CpuCache(l3: string, l2: string): string {
    if l3 == "N/A" then (if l2 != "N/A" then l2 + " (L2)" else "N/A") else l3 + " (L3)"
  }

  function CpuCacheOf(output: string): string {
    CpuCache(ParseLscpu(output, "L3 cache:"), ParseLscpu(output, "L2 cache:"))
  }

  /** The cache is "N/A" exactly when neither level is known; a known L3
      size hides the L2 size, and the text names the level it came from. */
  lemma CpuCacheFacts(l3: string, l2: string, otherL2: string)
    ensures var r := CpuCache(l3, l2);
      (r == "N/A" <==> l3 == "N/A" && l2 == "N/A")
      && (l3 != "N/A" ==> r == CpuCache(l3, otherL2) && HasPrefix(r, l3) && HasSuffix(r, " (L3)"))
      && (l3 == "N/A" && l2 != "N/A" ==> HasPrefix(r, l2) && HasSuffix(r, " (L2)"))
  {
    var r := CpuCache(l3, l2);
    if l3 != "N/A" {
      assert r[..|l3|] == l3 && r[|r| - 5..] == " (L3)";
    } else if l2 != "N/A" {
      assert r[..|l2|] == l2 && r[|r| - 5..] == " (L2)";
    }
  }

  /** Output without any speed line gives "N/A" for the speed, and output
      without any cache line "N/A" for the cache. */
  lemma NoSpeedOrCacheLines(output: string)
    ensures (forall j :: 0 <= j < |Lines(output)| ==>
               !HasPrefix(Lines(output)[j], "CPU max MHz:") && !HasPrefix(Lines(output)[j], "CPU MHz:"))
            ==> CpuSpeedOf(output) == "N/A"
    ensures (forall j :: 0 <= j < |Lines(output)| ==>
               !HasPrefix(Lines(output)[j], "L3 cache:") && !HasPrefix(Lines(output)[j], "L2 cache:"))
            ==> CpuCacheOf(output) == "N/A"
  {
    var lines := Lines(output);
    if forall j :: 0 <= j < |lines| ==> !HasPrefix(lines[j], "CPU max MHz:") && !HasPrefix(lines[j], "CPU MHz:") {
      assert LscpuValue(lines, "CPU max MHz:") == "N/A";
      assert LscpuValue(lines, "CPU MHz:") == "N/A";
      CpuSpeedFacts(ParseLscpu(output, "CPU max MHz:"), ParseLscpu(output, "CPU min MHz:"),
                    ParseLscpu(output, "CPU MHz:"), "");
    }
    if forall j :: 0 <= j < |lines| ==> !HasPrefix(lines[j], "L3 cache:") && !HasPrefix(lines[j], "L2 cache:") {
      assert LscpuValue(lines, "L3 cache:") == "N/A";
      assert LscpuValue(lines, "L2 cache:") == "N/A";
    }
  }

  lemma DivideBounds(a: nat, b: nat)
    requires b > 0
    ensures a / b <= a
  {
    var q := a / b;
    assert a == b * q + a % b;
    MulAtLeast(b, q);
  }

  lemma {:induction false} MulAtLeast(b: nat, q: nat)
    requires b >= 1
    ensures b * q >= q
    decreases b
  {
    if b > 1 {
      MulAtLeast(b - 1, q);
      assert b * q == (b - 1) * q + q;
    }
  }

  // ---------------------------------------------------------------------
  // Operating-system name and version (cmd/root.go:594-648)

  /** A `KEY=value` line of /etc/os-release: the text before the first '='
      and the rest without surrounding double quotes (`strings.Trim` with the
      cutset `"`). */
  function Assignment(line: string): (r: Option<(string, string)>)
    ensures r.Some? <==> '=' in line
    ensures r.Some? ==> '=' !in r.value.0
  {
    var parts := SplitN2(line, '=');
    if |parts| == 2 then Some((parts[0], TrimChar(parts[1], '"'))) else None
  }

  /** The variables after one more line: an assignment overwrites the
      variable it names. */
  function Assign(vars: map<string, string>, a: Option<(string, string)>): (r: map<string, string>)
    ensures a.None? ==> r == vars
    ensures a.Some? ==> a.value.0 in r && r[a.value.0] == a.value.1
    ensures a.Some? ==> forall k :: k in vars && k != a.value.0 ==> k in r && r[k] == vars[k]
    ensures forall k :: k in r ==> k in vars || (a.Some? && k == a.value.0)
  {
    match a
    case None => vars
    case Some(kv) => vars[kv.0 := kv.1]
  }

  /** The variables set by a sequence of lines, each line read by `a`:
      a later assignment overwrites an earlier one. */
  function Settings(lines: seq<string>, a: string -> Option<(string, string)>): map<string, string>
    decreases |lines|
  {
    if |lines| == 0 then map[]
    else Assign(Settings(lines[..|lines| - 1], a), a(lines[|lines| - 1]))
  }

  /** A variable some line assigns is set. */
  lemma {:induction false} SettingsComplete(lines: seq<string>, a: string -> Option<(string, string)>,
                                            key: string, i: nat)
    requires i < |lines| && a(lines[i]).Some? && a(lines[i]).value.0 == key
    ensures key in Settings(lines, a)
    decreases |lines|
  {
    var init := lines[..|lines| - 1];
    if i < |init| {
      assert init[i] == lines[i];
      SettingsComplete(init, a, key, i);
    }
  }

  /** A variable that is set was assigned by some line. */
  lemma {:induction false} SettingsSound(lines: seq<string>, a: string -> Option<(string, string)>, key: string)
    requires key in Settings(lines, a)
    ensures exists i :: 0 <= i < |lines| && a(lines[i]).Some? && a(lines[i]).value.0 == key
    decreases |lines|
  {
    var init := lines[..|lines| - 1];
    var last := |lines| - 1;
    if key in Settings(init, a) {
      SettingsSound(init, a, key);
      var i :| 0 <= i < |init| && a(init[i]).Some? && a(init[i]).value.0 == key;
      assert lines[i] == init[i];
    } else {
      assert a(lines[last]).Some? && a(lines[last]).value.0 == key;
    }
  }

  /** A variable holds the value of the last line that assigns it. */
  lemma {:induction false} SettingsLast(lines: seq<string>, a: string -> Option<(string, string)>,
                                        key: string, i: nat)
    requires i < |lines| && a(lines[i]).Some? && a(lines[i]).value.0 == key
    requires forall j :: i < j < |lines| ==> a(lines[j]).None? || a(lines[j]).value.0 != key
    ensures key in Settings(lines, a) && Settings(lines, a)[key] == a(lines[i]).value.1
    decreases |lines|
  {
    var init := lines[..|lines| - 1];
    if i < |init| {
      forall j | i < j < |init|
        ensures a(init[j]).None? || a(init[j]).value.0 != key
      {
        assert init[j] == lines[j];
      }
      assert init[i] == lines[i];
      SettingsLast(init, a, key, i);
    }
  }

  /** The variables of /etc/os-release. */
  function ReleaseVars(lines: seq<string>): map<string, string> {
    Settings(lines, Assignment)
  }

  /** A line assigns `key`. */
  predicate Assigns(line: string, key: string) {
    Assignment(line).Some? && Assignment(line).value.0 == key
  }

  /** A variable is set exactly when some line assigns it. */
  lemma AssignedVars(lines: seq<string>, key: string, i: nat)
    ensures i < |lines| && Assigns(lines[i], key) ==> key in ReleaseVars(lines)
    ensures key in ReleaseVars(lines) ==> exists j :: 0 <= j < |lines| && Assigns(lines[j], key)
  {
    if i < |lines| && Assigns(lines[i], key) {
      SettingsComplete(lines, Assignment, key, i);
    }
    if key in ReleaseVars(lines) {
      SettingsSound(lines, Assignment, key);
    }
  }

  /** A variable holds the value of the last line that assigns it. */
  lemma LastAssignmentWins(lines: seq<string>, key: string, i: nat)
    requires i < |lines| && Assigns(lines[i], key)
    requires forall j :: i < j < |lines| ==> !Assigns(lines[j], key)
    ensures key in ReleaseVars(lines) && ReleaseVars(lines)[key] == Assignment(lines[i]).value.1
  {
    SettingsLast(lines, Assignment, key, i);
  }

  /** The loop over /etc/os-release that fills the variables. */
  method ReadReleaseVars(contents: string) returns (vars: map<string, string>)
    ensures vars == ReleaseVars(Lines(contents))
  {
    var lines := Lines(contents);
    vars := map[];
    for i := 0 to |lines|
      invariant vars == ReleaseVars(lines[..i])
    {
      assert lines[..i + 1][..i] == lines[..i];
      var line := lines[i];
      var parts := SplitN2(line, '=');
      if |parts| == 2 {
        var key := parts[0];
        var value := TrimChar(parts[1], '"');
        vars := vars[key := value];
      }
    }
    assert lines[..|lines|] == lines;
  }

  /** Name and version from the variables: PRETTY_NAME alone, else NAME
      with VERSION, VERSION_ID or "N/A", else "N/A" for both. */
  function NameFromVars(vars: map<string, string>): (r: (string, string))
    ensures "PRETTY_NAME" in vars ==> r == (vars["PRETTY_NAME"], "")
    ensures "PRETTY_NAME" !in vars && "NAME" !in vars ==> r == ("N/A", "N/A")
    ensures "PRETTY_NAME" !in vars && "NAME" in vars ==> r.0 == vars["NAME"]
  {
    if "PRETTY_NAME" in vars then (vars["PRETTY_NAME"], "")
    else if "NAME" in vars then
      (vars["NAME"],
       if "VERSION" in vars then vars["VERSION"]
       else if "VERSION_ID" in vars then vars["VERSION_ID"]
       else "N/A")
    else ("N/A", "N/A")
  }

  /** Name and version from `lsb_release -ds`: the output without blanks
      around it and without double quotes, split at its first space; with no
      space the whole text is the version and the name. */
  function NameFromLsb(output: string): (r: (string, string))
    ensures '"' !in r.0 && '"' !in r.1
    ensures ' ' !in r.0
  {
    var full := RemoveAll(TrimSpace(output), "\"");
    RemoveAllChar(TrimSpace(output), '"');
    var parts := SplitN2(full, ' ');
    var name := parts[0];
    if |parts| > 1 then (name, parts[1])
    else (if name == "" then full else name, full)
  }

  /** Removing a one-character word removes every occurrence of it. */
  lemma {:induction false} RemoveAllChar(s: string, c: char)
    ensures c !in RemoveAll(s, [c])
    ensures forall k :: 0 <= k < |RemoveAll(s, [c])| ==> RemoveAll(s, [c])[k] in s
    decreases |s|
  {
    if |s| >= 1 {
      RemoveAllChar(s[1..], c);
      assert s[..1] == [s[0]];
    }
  }

  /** The name shown is the first word of the `lsb_release` text when there
      is a space in it, and the rest is the version. */
  lemma LsbSplit(output: string)
    ensures var full := RemoveAll(TrimSpace(output), "\"");
      var r := NameFromLsb(output);
      (' ' in full ==> full == r.0 + " " + r.1)
      && (' ' !in full ==> r == (full, full))
  {
  }

  /** Where the name comes from (cmd/root.go:594-648): `lsb_release` when it
      ran, else /etc/os-release when it could be read, else "N/A". The two
      outcomes are inputs: `Some(text)` when the command ran or the file
      opened. */
  function OsNameVersion(lsb: Option<string>, release: Option<string>): (r: (string, string))
    ensures lsb.Some? ==> r == NameFromLsb(lsb.value)
    ensures lsb.None? && release.None? ==> r == ("N/A", "N/A")
  {
    match lsb
    case Some(output) => NameFromLsb(output)
    case None =>
      match release
      case None => ("N/A", "N/A")
      case Some(contents) => NameFromVars(ReleaseVars(Lines(contents)))
  }

  /** Without `lsb_release` and without a PRETTY_NAME line, the name is
      the value of the last NAME line and the version that of the last
      VERSION line. */
  lemma NameWithoutPretty(contents: string, i: nat, j: nat)
    requires forall k :: 0 <= k < |Lines(contents)| ==> !Assigns(Lines(contents)[k], "PRETTY_NAME")
    requires i < |Lines(contents)| && Assigns(Lines(contents)[i], "NAME")
    requires forall k :: i < k < |Lines(contents)| ==> !Assigns(Lines(contents)[k], "NAME")
    requires j < |Lines(contents)| && Assigns(Lines(contents)[j], "VERSION")
    requires forall k :: j < k < |Lines(contents)| ==> !Assigns(Lines(contents)[k], "VERSION")
    ensures OsNameVersion(None, Some(contents))
            == (Assignment(Lines(contents)[i]).value.1, Assignment(Lines(contents)[j]).value.1)
  {
    AssignedVars(Lines(contents), "PRETTY_NAME", 0);
    LastAssignmentWins(Lines(contents), "NAME", i);
    LastAssignmentWins(Lines(contents), "VERSION", j);
  }

  /** Without `lsb_release`, an /etc/os-release with neither a PRETTY_NAME
      nor a NAME line gives "N/A" for both. */
  lemma NoNameLine(contents: string)
    requires forall k :: 0 <= k < |Lines(contents)| ==>
               !Assigns(Lines(contents)[k], "PRETTY_NAME") && !Assigns(Lines(contents)[k], "NAME")
    ensures OsNameVersion(None, Some(contents)) == ("N/A", "N/A")
  {
    AssignedVars(Lines(contents), "PRETTY_NAME", 0);
    AssignedVars(Lines(contents), "NAME", 0);
  }

  /** Without `lsb_release`, a PRETTY_NAME line makes the name the value of
      the last such line, with an empty version. */
  lemma PrettyNameWins(contents: string, i: nat)
    requires i < |Lines(contents)| && Assigns(Lines(contents)[i], "PRETTY_NAME")
    requires forall j :: i < j < |Lines(contents)| ==> !Assigns(Lines(contents)[j], "PRETTY_NAME")
    ensures OsNameVersion(None, Some(contents)) == (Assignment(Lines(contents)[i]).value.1, "")
  {
    LastAssignmentWins(Lines(contents), "PRETTY_NAME", i);
  }
}
