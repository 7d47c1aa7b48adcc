/**
 Names of synthetic-partition devices: "gpu-<index>-<compute>-<memory>".

 The printer is the source's `CanonicalName`. The parser is built from a scanner that
 accepts what Go's `%d` verb accepts (leading white space, a sign, leading zeros), because
 the source scans the index first and then re-prints it to find where the rest begins.
 */
module DeviceNames {
  import opened Wrappers

  datatype PartitionConfig = PartitionConfig(compute: string, memory: string, count: nat)

  const VALID_PARTITION_CONFIGS: seq<PartitionConfig> := [
    PartitionConfig("spx", "nps1", 1),
    PartitionConfig("dpx", "nps1", 2),
    PartitionConfig("dpx", "nps2", 2),
    PartitionConfig("qpx", "nps1", 4),
    PartitionConfig("cpx", "nps1", 8),
    PartitionConfig("cpx", "nps4", 8)
  ]

  datatype PartitionName = PartitionName(gpu: int, compute: string, memory: string) {

    /** The index fits Go's 64-bit int and the modes form a supported pair. */
    predicate Valid() {
      IsInt64(gpu) && exists i :: 0 <= i < |VALID_PARTITION_CONFIGS| && Has(VALID_PARTITION_CONFIGS[i])
    }

    predicate Has(config: PartitionConfig) {
      compute == config.compute && memory == config.memory
    }

    function Print(): string {
      Prefix(gpu) + Modes(compute, memory)
    }
  }

  predicate IsInt64(n: int) {
    -0x8000_0000_0000_0000 <= n < 0x8000_0000_0000_0000
  }

  function Prefix(gpu: int): string {
    "gpu-" + Decimal(gpu) + "-"
  }

  function Modes(compute: string, memory: string): string {
    compute + "-" + memory
  }

  // ---------- decimal numerals ----------

  predicate IsDigit(c: char) {
    '0' <= c <= '9'
  }

  function Digits(n: nat): (s: string)
    ensures s != "" && forall i | 0 <= i < |s| :: IsDigit(s[i])
  {
    var last := ['0' + (n % 10) as char];
    if n < 10 then last else Digits(n / 10) + last
  }

  function Decimal(n: int): string {
    if n < 0 then "-" + Digits(-n) else Digits(n)
  }

  function DigitValue(c: char): nat
    requires IsDigit(c)
  {
    c as int - '0' as int
  }

  function Value(digits: string): nat
    requires forall i | 0 <= i < |digits| :: IsDigit(digits[i])
  {
    if digits == "" then 0
    else 10 * Value(digits[..|digits| - 1]) + DigitValue(digits[|digits| - 1])
  }

  lemma {:induction false} DigitsHaveTheirValue(n: nat)
    ensures Value(Digits(n)) == n
  {
    if n >= 10 {
      DigitsHaveTheirValue(n / 10);
      assert Digits(n)[..|Digits(n)| - 1] == Digits(n / 10);
    }
  }

  /** The printed numeral is the shortest one, and the only one of its length. */
  lemma {:induction false} PrintedIsShortest(s: string)
    requires s != "" && forall i | 0 <= i < |s| :: IsDigit(s[i])
    ensures |Digits(Value(s))| <= |s|
    ensures |Digits(Value(s))| == |s| ==> Digits(Value(s)) == s
  {
    var front, last := s[..|s| - 1], s[|s| - 1];
    if front != "" {
      PrintedIsShortest(front);
      assert s == front + [last];
      assert Value(s) % 10 == DigitValue(last) && Value(s) / 10 == Value(front);
    }
  }

  // ---------- scanning an integer ----------

  /** White space as Go's fmt scanner sees it. */
  predicate IsSpace(c: char) {
    || '\U{9}' <= c <= '\U{D}' || c == ' ' || c == '\U{85}' || c == '\U{A0}' || c == '\U{1680}'
    || '\U{2000}' <= c <= '\U{200A}' || c == '\U{2028}' || c == '\U{2029}'
    || c == '\U{202F}' || c == '\U{205F}' || c == '\U{3000}'
  }

  /** What is left after leading white space; a newline there is a scan error. */
  function SkipSpaces(s: string): (r: Option<string>)
    ensures r.Some? ==> |r.value| <= |s| && r.value == s[|s| - |r.value|..]
    ensures r.Some? ==> forall i | 0 <= i < |s| - |r.value| :: IsSpace(s[i])
  {
    if s == "" || !IsSpace(s[0]) then Some(s)
    else if s[0] == '\n' then None
    else SkipSpaces(s[1..])
  }

  function DigitCount(s: string): (n: nat)
    ensures n <= |s| && (forall i | 0 <= i < n :: IsDigit(s[i])) && (n < |s| ==> !IsDigit(s[n]))
  {
    if s == "" || !IsDigit(s[0]) then 0 else 1 + DigitCount(s[1..])
  }

  datatype Scanned = Scanned(value: int, used: nat)

  function ScanMagnitude(s: string): (r: Option<Scanned>)
    ensures r.Some? ==> 0 <= r.value.value
  {
    var n := DigitCount(s);
    if n == 0 then None else Some(Scanned(Value(s[..n]), n))
  }

  function ScanSigned(s: string): Option<Scanned> {
    if s != "" && s[0] == '-' then
      var r :- ScanMagnitude(s[1..]);
      Some(Scanned(-r.value, 1 + r.used))
    else if s != "" && s[0] == '+' then
      var r :- ScanMagnitude(s[1..]);
      Some(Scanned(r.value, 1 + r.used))
    else
      ScanMagnitude(s)
  }

  function ScanInt(s: string): (r: Option<Scanned>)
    ensures r.Some? ==> IsInt64(r.value.value)
  {
    var t :- SkipSpaces(s);
    var r :- ScanSigned(t);
    if IsInt64(r.value) then Some(Scanned(r.value, |s| - |t| + r.used)) else None
  }

  predicate IsScanChar(c: char) {
    IsSpace(c) || IsDigit(c) || c == '+' || c == '-'
  }

  /** The text of a scanned integer: re-printing it never needs more room, and needs the same
      room only when the text was the printed form already. */
  ghost predicate ScannedFrom(s: string, r: Scanned) {
    && |Decimal(r.value)| <= r.used <= |s|
    && (forall i | 0 <= i < r.used :: IsScanChar(s[i]))
    && (|Decimal(r.value)| == r.used ==> s[..r.used] == Decimal(r.value))
  }

  lemma MagnitudeText(s: string, r: Scanned)
    requires ScanMagnitude(s) == Some(r)
    ensures ScannedFrom(s, r)
  {
    PrintedIsShortest(s[..r.used]);
  }

  lemma SignedText(s: string, r: Scanned)
    requires ScanSigned(s) == Some(r)
    ensures ScannedFrom(s, r)
  {
    if s[0] == '-' || s[0] == '+' {
      var m := ScanMagnitude(s[1..]).value;
      MagnitudeText(s[1..], m);
      assert s[..r.used] == [s[0]] + s[1..][..m.used];
      assert forall i | 1 <= i < r.used :: s[i] == s[1..][i - 1];
    } else {
      MagnitudeText(s, r);
    }
  }

  lemma ScannedText(s: string, r: Scanned)
    requires ScanInt(s) == Some(r)
    ensures ScannedFrom(s, r)
  {
    var t := SkipSpaces(s).value;
    var m := ScanSigned(t).value;
    SignedText(t, m);
    SpacesBefore(s, |s| - |t|, m);
  }

  lemma SpacesBefore(s: string, spaces: nat, m: Scanned)
    requires spaces <= |s| && (forall i | 0 <= i < spaces :: IsSpace(s[i]))
    requires ScannedFrom(s[spaces..], m)
    ensures ScannedFrom(s, Scanned(m.value, spaces + m.used))
  {
    var used := spaces + m.used;
    forall i | 0 <= i < used
      ensures IsScanChar(s[i])
    {
      if spaces <= i {
        assert s[i] == s[spaces..][i - spaces];
      }
    }
    if spaces == 0 {
      assert s[spaces..] == s;
    }
  }

  lemma PrintedIsScanned(n: int, rest: string)
    requires IsInt64(n) && rest != "" && rest[0] == '-'
    ensures ScanInt(Decimal(n) + rest) == Some(Scanned(n, |Decimal(n)|))
  {
    var s := Decimal(n) + rest;
    PrintedIsSigned(n, rest);
    assert s[0] == Decimal(n)[0];
    assert !IsSpace(s[0]);
  }

  lemma PrintedIsSigned(n: int, rest: string)
    requires rest != "" && !IsDigit(rest[0])
    ensures ScanSigned(Decimal(n) + rest) == Some(Scanned(n, |Decimal(n)|))
  {
    if n < 0 {
      PrintedMagnitude(-n, rest);
      MinusIsSigned(Digits(-n) + rest);
      assert Decimal(n) + rest == "-" + (Digits(-n) + rest);
    } else {
      PrintedMagnitude(n, rest);
      assert (Digits(n) + rest)[0] == Digits(n)[0];
    }
  }

  lemma MinusIsSigned(s: string)
    requires ScanMagnitude(s).Some?
    ensures var r := ScanMagnitude(s).value; ScanSigned("-" + s) == Some(Scanned(-r.value, 1 + r.used))
  {
    assert ("-" + s)[1..] == s;
  }

  lemma PrintedMagnitude(n: nat, rest: string)
    requires rest != "" && !IsDigit(rest[0])
    ensures ScanMagnitude(Digits(n) + rest) == Some(Scanned(n, |Digits(n)|))
  {
    CountsAllDigits(Digits(n), rest);
    assert (Digits(n) + rest)[..|Digits(n)|] == Digits(n);
    DigitsHaveTheirValue(n);
  }

  lemma {:induction false} CountsAllDigits(digits: string, rest: string)
    requires forall i | 0 <= i < |digits| :: IsDigit(digits[i])
    requires rest != "" && !IsDigit(rest[0])
    ensures DigitCount(digits + rest) == |digits|
  {
    if digits != "" {
      assert (digits + rest)[1..] == digits[1..] + rest;
      CountsAllDigits(digits[1..], rest);
    } else {
      assert digits + rest == rest;
    }
  }

  /** The pairs of modes that are supported. */
  lemma SupportedPairs(d: PartitionName)
    ensures d.Valid() <==> IsInt64(d.gpu) &&
                           (d.compute, d.memory) in {("spx", "nps1"), ("dpx", "nps1"), ("dpx", "nps2"),
                                                     ("qpx", "nps1"), ("cpx", "nps1"), ("cpx", "nps4")}
  {
    var c := VALID_PARTITION_CONFIGS;
    assert d.Has(c[0]) || d.Has(c[1]) || d.Has(c[2]) || d.Has(c[3]) || d.Has(c[4]) || d.Has(c[5])
           <==> (d.compute, d.memory) in {("spx", "nps1"), ("dpx", "nps1"), ("dpx", "nps2"),
                                          ("qpx", "nps1"), ("cpx", "nps1"), ("cpx", "nps4")};
  }

  // ---------- parsing a device name ----------

  function FindConfig(remainder: string, i: nat): (r: Option<PartitionConfig>)
    requires i <= |VALID_PARTITION_CONFIGS|
    ensures r.Some? ==> r.value in VALID_PARTITION_CONFIGS && remainder == Modes(r.value.compute, r.value.memory)
    ensures r.Some? ==> r.value.memory != "" && r.value.compute != ""
    decreases |VALID_PARTITION_CONFIGS| - i
  {
    if i == |VALID_PARTITION_CONFIGS| then None
    else
      var config := VALID_PARTITION_CONFIGS[i];
      if remainder == Modes(config.compute, config.memory) then Some(config)
      else FindConfig(remainder, i + 1)
  }

  function Parse(name: string): (r: Option<PartitionName>)
    ensures r.Some? ==> r.value.memory != "" && r.value.compute != ""
  {
    if |name| < 4 || name[..4] != "gpu-" then None
    else
      var scanned :- ScanInt(name[4..]);
      if 4 + scanned.used >= |name| || name[4 + scanned.used] != '-' then None
      else
        // The slice below never leaves the name: the re-printed prefix is no longer than
        // the text that was scanned.
        assert |Prefix(scanned.value)| <= |name| by {
          ScannedText(name[4..], scanned);
        }
        var config :- FindConfig(name[|Prefix(scanned.value)|..], 0);
        Some(PartitionName(scanned.value, config.compute, config.memory))
  }

  lemma FindsItsConfig(k: nat, i: nat)
    requires i <= k < |VALID_PARTITION_CONFIGS|
    ensures var c := VALID_PARTITION_CONFIGS[k]; FindConfig(Modes(c.compute, c.memory), i) == Some(c)
    decreases k - i
  {
    if i < k {
      DistinctModes(i, k);
      FindsItsConfig(k, i + 1);
    }
  }

  lemma DistinctModes(i: nat, k: nat)
    requires i < k < |VALID_PARTITION_CONFIGS|
    ensures var a, b := VALID_PARTITION_CONFIGS[i], VALID_PARTITION_CONFIGS[k];
            Modes(a.compute, a.memory) != Modes(b.compute, b.memory)
  {
    var a, b := VALID_PARTITION_CONFIGS[i], VALID_PARTITION_CONFIGS[k];
    var x, y := Modes(a.compute, a.memory), Modes(b.compute, b.memory);
    assert x[0] != y[0] || x[7] != y[7];
  }

  /** A name is accepted exactly when it is the canonical name of what it is parsed to: no
      sign, leading zero or white space makes one device answer to a second name. */
  lemma ParseIffPrinted(name: string, d: PartitionName)
    ensures Parse(name) == Some(d) <==> d.Valid() && name == d.Print()
  {
    if Parse(name) == Some(d) {
      ParsedIsCanonical(name, d);
    }
    if d.Valid() && name == d.Print() {
      PrintedParses(d);
    }
  }

  lemma ParsedIsCanonical(name: string, d: PartitionName)
    requires Parse(name) == Some(d)
    ensures d.Valid() && name == d.Print()
  {
    hide ScanInt, FindConfig, Digits, Decimal, Modes, ScannedFrom, IsInt64;
    var scanned := ScanInt(name[4..]).value;
    ScannedText(name[4..], scanned);
    var prefix := Prefix(d.gpu);
    var config := FindConfig(name[|prefix|..], 0).value;
    assert d.Has(config);
    PrefixIsWhole(name, scanned, config);
    PrefixIsScannedText(name, scanned);
    assert name == name[..|prefix|] + name[|prefix|..];
  }

  lemma PrefixIsWhole(name: string, scanned: Scanned, config: PartitionConfig)
    requires 4 + scanned.used < |name| && name[4 + scanned.used] == '-'
    requires ScannedFrom(name[4..], scanned) && config in VALID_PARTITION_CONFIGS
    requires name[|Prefix(scanned.value)|..] == Modes(config.compute, config.memory)
    ensures |Prefix(scanned.value)| == 5 + scanned.used
  {
    StartsWithLetter(config);
    var i := |Prefix(scanned.value)|;
    assert name[i] == name[i..][0];
    if i < 5 + scanned.used {
      NoLetterScanned(name, scanned, i);
    }
  }

  lemma PrefixIsScannedText(name: string, scanned: Scanned)
    requires 4 + scanned.used < |name| && name[..4] == "gpu-" && name[4 + scanned.used] == '-'
    requires ScannedFrom(name[4..], scanned) && |Prefix(scanned.value)| == 5 + scanned.used
    ensures name[..5 + scanned.used] == Prefix(scanned.value)
  {
    assert name[..5 + scanned.used] == name[..4] + name[4..][..scanned.used] + [name[4 + scanned.used]];
  }

  lemma StartsWithLetter(config: PartitionConfig)
    requires config in VALID_PARTITION_CONFIGS
    ensures var s := Modes(config.compute, config.memory);
            |s| == 8 && 'a' <= s[0] <= 'z' && s[4] == 'n' && s[5] == 'p' && s[6] == 's'
  {
  }

  lemma NoLetterScanned(name: string, scanned: Scanned, i: nat)
    requires 4 <= i <= 4 + scanned.used < |name| && name[4 + scanned.used] == '-'
    requires ScannedFrom(name[4..], scanned)
    ensures !('a' <= name[i] <= 'z')
  {
    if i < 4 + scanned.used {
      assert IsScanChar(name[4..][i - 4]);
    }
  }

  lemma PrintedParses(d: PartitionName)
    requires d.Valid()
    ensures Parse(d.Print()) == Some(d)
  {
    hide ScanInt, FindConfig, Digits, Decimal, Modes;
    var name, rest := d.Print(), "-" + Modes(d.compute, d.memory);
    assert name[4..] == Decimal(d.gpu) + rest;
    PrintedIsScanned(d.gpu, rest);
    assert name[|Prefix(d.gpu)|..] == Modes(d.compute, d.memory);
    var k :| 0 <= k < |VALID_PARTITION_CONFIGS| && d.Has(VALID_PARTITION_CONFIGS[k]);
    FindsItsConfig(k, 0);
  }

  // ---------- names of whole GPUs ----------

  function GpuName(card: int, render: int): string {
    "gpu-" + Decimal(card) + "-" + Decimal(render)
  }

  /** Different GPUs have different names. */
  lemma GpuNamesDiffer(card: nat, render: nat, otherCard: nat, otherRender: nat)
    ensures GpuName(card, render) == GpuName(otherCard, otherRender) <==> card == otherCard && render == otherRender
  {
    hide Digits;
    if GpuName(card, render) == GpuName(otherCard, otherRender) {
      SameAroundDash("gpu-", Digits(card), Digits(render), Digits(otherCard), Digits(otherRender));
      DigitsHaveTheirValue(card);
      DigitsHaveTheirValue(otherCard);
      DigitsHaveTheirValue(render);
      DigitsHaveTheirValue(otherRender);
    }
  }

  lemma SameAroundDash(p: string, a: string, b: string, c: string, d: string)
    requires p + a + "-" + b == p + c + "-" + d
    requires (forall i :: 0 <= i < |a| ==> a[i] != '-') && (forall i :: 0 <= i < |c| ==> c[i] != '-')
    ensures a == c && b == d
  {
    var s, t := p + a + "-" + b, p + c + "-" + d;
    assert s[|p| + |a|] == '-' && t[|p| + |c|] == '-';
    assert s[|p|..|p| + |a|] == a && t[|p|..|p| + |c|] == c;
    assert s[|p| + |a| + 1..] == b && t[|p| + |c| + 1..] == d;
  }

  /** No whole-GPU name is taken for a partition of some GPU. */
  lemma WholeGpuIsNoPartition(card: int, render: int)
    ensures Parse(GpuName(card, render)).None?
  {
    var name := GpuName(card, render);
    if Parse(name).Some? {
      var d := Parse(name).value;
      ParsedIsCanonical(name, d);
      var k :| 0 <= k < |VALID_PARTITION_CONFIGS| && d.Has(VALID_PARTITION_CONFIGS[k]);
      StartsWithLetter(VALID_PARTITION_CONFIGS[k]);
      assert name[|name| - 3] == 'p';
      NoLetterAfterPrefix(card, render, |name| - 3);
      assert false;
    }
  }

  function VfioName(index: int): string {
    "gpu-vfio-" + Decimal(index)
  }

  /** Nor is the name of a VFIO device. */
  lemma VfioIsNoPartition(index: int)
    ensures Parse(VfioName(index)).None?
  {
    var name := VfioName(index);
    assert name[4] == 'v' && name[4..][0] == 'v';
    assert ScanSigned(name[4..]).None?;
  }

  lemma NoLetterAfterPrefix(card: int, render: int, i: nat)
    requires 4 <= i < |GpuName(card, render)|
    ensures !('a' <= GpuName(card, render)[i] <= 'z')
  {
    var front, tail := "gpu-" + Decimal(card) + "-", Decimal(render);
    if i < |front| {
      assert GpuName(card, render)[i] == front[i];
      assert front[i] == '-' || front[i] == Decimal(card)[i - 4];
    } else {
      assert GpuName(card, render)[i] == tail[i - |front|];
    }
  }
}
