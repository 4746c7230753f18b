/**
 The accelerator label and the TPU generation it names (AcceleratorGen in cmd/tpu-dra-kubeletplugin/util.go,
 the generation table in cmd/tpu-dra-kubeletplugin/hardware.go).
 */
module Accelerator {
  import opened Wrappers
  import opened Text

  // ----- strings

  predicate HasSuffix(s: string, suffix: string) {
    |suffix| <= |s| && s[|s| - |suffix|..] == suffix
  }

  predicate Contains(s: string, t: string) {
    exists i :: 0 <= i <= |s| - |t| && s[i..][..|t|] == t
  }

  lemma ContainsPiece(before: string, t: string, after: string)
    ensures Contains(before + t + after, t)
  {
    var s := before + t + after;
    assert s[|before|..] == t + after;
    assert s[|before|..][..|t|] == t;
  }

  lemma LacksChar(s: string, t: string, c: char)
    requires c in t && c !in s
    ensures !Contains(s, t)
  {
    var k :| 0 <= k < |t| && t[k] == c;
    forall i | 0 <= i <= |s| - |t| ensures s[i..][..|t|] != t {
      assert s[i..][..|t|][k] == s[i + k] && s[i + k] in s;
    }
  }

  // ----- the generation table

  datatype Family = Family(pciDeviceId: string, pciSubsystemId: string, generations: seq<string>)

  const FAMILIES := [
    Family("0x0027", "0x004f", ["v3"]),
    Family("0x005e", "", ["v4", "v4lite"]),
    Family("0x0063", "", ["v5lite", "v5litepod"]),
    Family("0x0062", "", ["v5p"]),
    Family("0x006f", "", ["v6e"])]

  predicate IsValidGeneration(v: string) {
    exists f :: f in FAMILIES && v in f.generations
  }

  predicate IsKnown(v: string) {
    v == "v3" || v == "v4" || v == "v4lite" || v == "v5lite" || v == "v5litepod" || v == "v5p" || v == "v6e"
  }

  lemma ValidGenerations(v: string)
    ensures IsValidGeneration(v) <==> IsKnown(v)
  {
    assert FAMILIES[0] in FAMILIES && FAMILIES[1] in FAMILIES && FAMILIES[2] in FAMILIES &&
           FAMILIES[3] in FAMILIES && FAMILIES[4] in FAMILIES;
  }

  // ----- the two patterns

  /** How many digits a string starts with. */
  function DigitRun(s: string): (n: nat)
    ensures n <= |s| && AllDigits(s[..n]) && (n < |s| ==> !IsDigit(s[n]))
  {
    if s != [] && IsDigit(s[0]) then
      var n := 1 + DigitRun(s[1..]);
      assert s[..n] == [s[0]] + s[1..][..n - 1];
      n
    else 0
  }

  /** The pattern `^tpu\d+[a-z]?$`. */
  predicate MatchesCurrent(s: string) {
    && HasPrefix(s, "tpu")
    && var n := DigitRun(s[3..]);
       n > 0 && (3 + n == |s| || (4 + n == |s| && 'a' <= s[3 + n] <= 'z'))
  }

  /** The slice group of the older pattern, with the letter before it. */
  const SERIES := ["", "-slice", "e-slice", "p-slice"]

  /** The form factor group of the older pattern. */
  const FORMS := ["", "-device", "-podslice", "-lite-device", "-lite-podslice"]

  /** The pattern `^tpu-v\d+([ep]?-slice)?((?:-lite)?-(device|podslice))?$`. */
  predicate MatchesPast(s: string) {
    && HasPrefix(s, "tpu-v")
    && var n := DigitRun(s[5..]);
       n > 0 && IsTail(s[5 + n..])
  }

  predicate IsTail(tail: string) {
    exists i, j :: 0 <= i < |SERIES| && 0 <= j < |FORMS| && tail == SERIES[i] + FORMS[j]
  }

  function AcceleratorGen(accelerator: string): Option<string> {
    if MatchesCurrent(accelerator) then Valid(accelerator)
    else if MatchesPast(accelerator) then
      if accelerator == "tpu-v4-device" || accelerator == "tpu-v4-lite-podslice" then None else
      var parts := Split(accelerator, '-');
      if |parts| < 2 then None else
      var gen := parts[1] + if Contains(accelerator, "lite") then "lite" else "";
      Valid(gen + if HasPrefix(gen, "v5") && Contains(accelerator, "podslice") then "pod" else "")
    else None
  }

  function Valid(gen: string): Option<string> {
    if IsValidGeneration(gen) then Some(gen) else None
  }

  /** The newer naming is recognised but no generation it names is in the table, so it is never accepted. */
  lemma CurrentPatternIsNeverAccepted(s: string)
    requires MatchesCurrent(s)
    ensures AcceleratorGen(s) == None
  {
    ValidGenerations(s);
    assert s[0] == 't';
  }

  // ----- what is accepted

  function Letter(i: nat): string
    requires i < 4
  {
    if i == 2 then "e" else if i == 3 then "p" else ""
  }

  predicate IsLite(j: nat) {
    j == 3 || j == 4
  }

  predicate IsPod(j: nat) {
    j == 2 || j == 4
  }

  function Label(digits: string, i: nat, j: nat): string
    requires i < 4 && j < 5
  {
    "tpu-v" + digits + (SERIES[i] + FORMS[j])
  }

  lemma TailStart(i: nat, j: nat)
    requires i < 4 && j < 5
    ensures var tail := SERIES[i] + FORMS[j]; tail == [] || !IsDigit(tail[0])
  {
    var first := if SERIES[i] == "" then FORMS[j] else SERIES[i];
    assert first == [] || first[0] in {'-', 'e', 'p'};
  }

  lemma LabelMatches(digits: string, i: nat, j: nat)
    requires digits != [] && AllDigits(digits) && i < 4 && j < 5
    ensures MatchesPast(Label(digits, i, j))
  {
    var tail := SERIES[i] + FORMS[j];
    TailStart(i, j);
    assert IsTail(tail);
    hide IsTail;
    DigitRunOf(digits, tail);
    PastFromParts(digits, tail);
  }

  lemma PastFromParts(digits: string, tail: string)
    requires digits != [] && DigitRun(digits + tail) == |digits| && IsTail(tail)
    ensures MatchesPast("tpu-v" + digits + tail)
  {
    hide IsTail;
    var s := "tpu-v" + digits + tail;
    assert s[5..] == digits + tail;
    assert s[5 + |digits|..] == tail;
  }

  lemma LabelIsNotCurrent(digits: string, i: nat, j: nat)
    requires i < 4 && j < 5
    ensures !MatchesCurrent(Label(digits, i, j))
  {
    var rest := Label(digits, i, j)[3..];
    assert rest[0] == '-';
    assert DigitRun(rest) == 0;
  }

  lemma {:induction false} DigitRunOf(digits: string, tail: string)
    requires AllDigits(digits) && (tail == [] || !IsDigit(tail[0]))
    ensures DigitRun(digits + tail) == |digits|
  {
    if digits == [] {
      assert digits + tail == tail;
    } else {
      assert (digits + tail)[0] == digits[0] && digits[0] in digits;
      assert (digits + tail)[1..] == digits[1..] + tail;
      DigitRunOf(digits[1..], tail);
    }
  }

  lemma MatchedIsLabel(s: string) returns (digits: string, i: nat, j: nat)
    requires MatchesPast(s)
    ensures i < 4 && j < 5 && digits != [] && AllDigits(digits) && s == Label(digits, i, j)
  {
    var n := DigitRun(s[5..]);
    digits := s[5..][..n];
    i, j :| 0 <= i < |SERIES| && 0 <= j < |FORMS| && s[5 + n..] == SERIES[i] + FORMS[j];
    assert s == s[..5] + s[5..][..n] + s[5 + n..];
  }

  lemma AfterDash(letter: string, rest: string)
    requires rest == "" || rest[0] == '-'
    ensures var tail := letter + rest; tail == letter || tail == letter + ['-'] + tail[|letter| + 1..]
  {
    if rest != "" {
      assert rest == ['-'] + rest[1..];
      assert (letter + rest)[|letter| + 1..] == rest[1..];
    }
  }

  lemma TailShape(i: nat, j: nat)
    requires i < 4 && j < 5
    ensures var tail := SERIES[i] + FORMS[j];
            Letter(i) <= tail && (tail == Letter(i) || tail == Letter(i) + ['-'] + tail[|Letter(i)| + 1..])
  {
    var slice := if i == 0 then "" else "-slice";
    assert SERIES[i] == Letter(i) + slice;
    assert FORMS[j] == "" || FORMS[j][0] == '-';
    AfterDash(Letter(i), slice + FORMS[j]);
    assert SERIES[i] + FORMS[j] == Letter(i) + (slice + FORMS[j]);
  }

  lemma SecondOfTail(digits: string, letter: string, tail: string)
    requires '-' !in digits + letter && letter <= tail
    requires tail == letter || tail == letter + ['-'] + tail[|letter| + 1..]
    ensures var parts := Split("tpu" + ['-'] + (digits + tail), '-'); |parts| >= 2 && parts[1] == digits + letter
  {
    hide Split;
    SplitPrefix("tpu", digits + tail, '-');
    if tail == letter {
      SplitNothing(digits + letter, '-');
    } else {
      var rest := tail[|letter| + 1..];
      assert digits + tail == digits + letter + ['-'] + rest;
      SplitPrefix(digits + letter, rest, '-');
    }
  }

  /** The second dash-separated part is the version with its letter. */
  lemma SecondPart(digits: string, i: nat, j: nat)
    requires AllDigits(digits) && i < 4 && j < 5
    ensures var parts := Split(Label(digits, i, j), '-'); |parts| >= 2 && parts[1] == "v" + digits + Letter(i)
  {
    hide Split;
    TailShape(i, j);
    SecondOfTail("v" + digits, Letter(i), SERIES[i] + FORMS[j]);
    assert Label(digits, i, j) == "tpu" + ['-'] + ("v" + digits + (SERIES[i] + FORMS[j]));
  }

  lemma OtherFormsLackT(i: nat, j: nat)
    requires i < 4 && j < 5 && !IsLite(j)
    ensures 't' !in SERIES[i] + FORMS[j]
  {
    assert 't' !in SERIES[i] && 't' !in FORMS[j];
  }

  lemma ContainsLite(digits: string, i: nat, j: nat)
    requires AllDigits(digits) && i < 4 && j < 5
    ensures Contains(Label(digits, i, j), "lite") <==> IsLite(j)
  {
    hide Contains;
    var s := Label(digits, i, j);
    var head := "tpu-v" + digits + SERIES[i];
    assert s == head + FORMS[j];
    if IsLite(j) {
      var after := if j == 3 then "-device" else "-podslice";
      assert FORMS[j] == "-" + "lite" + after;
      assert s == (head + "-") + "lite" + after;
      ContainsPiece(head + "-", "lite", after);
    } else {
      OtherFormsLackT(i, j);
      var tail := SERIES[i] + FORMS[j];
      assert 't' !in "pu-v" && 't' !in digits;
      assert s[1..] == "pu-v" + digits + tail;
      NoLite(s);
    }
  }

  lemma ContainsPod(digits: string, i: nat, j: nat)
    requires AllDigits(digits) && i < 4 && j < 5
    ensures Contains(Label(digits, i, j), "podslice") <==> IsPod(j)
  {
    hide Contains;
    var s := Label(digits, i, j);
    var head := "tpu-v" + digits + SERIES[i];
    assert s == head + FORMS[j];
    if IsPod(j) {
      var before := if j == 2 then "-" else "-lite-";
      assert FORMS[j] == before + "podslice";
      assert s == (head + before) + "podslice" + "";
      ContainsPiece(head + before, "podslice", "");
    } else {
      assert 'o' !in s;
      LacksChar(s, "podslice", 'o');
    }
  }

  lemma NoLite(s: string)
    requires s != [] && 't' !in s[1..]
    ensures !Contains(s, "lite")
  {
    forall i | 0 <= i <= |s| - |"lite"| ensures s[i..][..|"lite"|] != "lite" {
      assert s[i..][..|"lite"|][2] == s[i + 2] == s[1..][i + 1] && s[1..][i + 1] in s[1..];
    }
  }

  /** The generation of a label, from its parts. */
  function PlainGen(digits: string, i: nat, j: nat): string
    requires i < 4
  {
    var gen := "v" + digits + Letter(i) + if IsLite(j) then "lite" else "";
    gen + if HasPrefix(gen, "v5") && IsPod(j) then "pod" else ""
  }

  lemma GenOfLabel(digits: string, i: nat, j: nat)
    requires digits != [] && AllDigits(digits) && i < 4 && j < 5
    ensures var s := Label(digits, i, j);
            AcceleratorGen(s) == if s == "tpu-v4-device" || s == "tpu-v4-lite-podslice" then None
                                 else Valid(PlainGen(digits, i, j))
  {
    LabelMatches(digits, i, j);
    LabelIsNotCurrent(digits, i, j);
    SecondPart(digits, i, j);
    ContainsLite(digits, i, j);
    ContainsPod(digits, i, j);
  }

  /** The versions that can lead to a generation in the table: digits, letter and form. */
  predicate Supported(digits: string, i: nat, j: nat) {
    || (digits == "3" && i < 2 && !IsLite(j))
    || (digits == "4" && i < 2 && !(i == 0 && (j == 1 || j == 4)))
    || (digits == "5" && i < 2 && IsLite(j))
    || (digits == "5" && i == 3 && j < 2)
    || (digits == "6" && i == 2 && !IsLite(j))
  }

  lemma SupportedLabels(s: string)
    ensures AcceleratorGen(s).Some? <==>
            exists digits, i, j :: i < 4 && j < 5 && Supported(digits, i, j) && s == Label(digits, i, j)
  {
    if AcceleratorGen(s).Some? {
      ValidGenerations(AcceleratorGen(s).value);
      if MatchesCurrent(s) {
        CurrentPatternIsNeverAccepted(s);
      }
      var digits, i, j := MatchedIsLabel(s);
      GenOfLabel(digits, i, j);
      ValidGenIsSupported(digits, i, j);
    }
    forall digits, i, j | i < 4 && j < 5 && Supported(digits, i, j) && s == Label(digits, i, j)
      ensures AcceleratorGen(s).Some?
    {
      GenerationOfSupported(digits, i, j);
    }
  }

  /**
   The generation of a supported label: its version with its letter, "lite" for the lite forms and "pod" for the v5
   lite podslice.
   */
  lemma GenerationOfSupported(digits: string, i: nat, j: nat)
    requires i < 4 && j < 5 && Supported(digits, i, j)
    ensures AcceleratorGen(Label(digits, i, j)) == Some(SupportedGen(digits, i, j))
  {
    SupportedIsValid(digits, i, j);
    GenOfLabel(digits, i, j);
    ValidGenerations(PlainGen(digits, i, j));
  }

  function SupportedGen(digits: string, i: nat, j: nat): string
    requires i < 4
  {
    "v" + digits + Letter(i) + (if j == 3 || j == 4 then "lite" else "")
    + (if digits == "5" && j == 4 then "pod" else "")
  }

  // ----- the whole answer, string by string

  const V3 := [
    ("tpu-v3", "v3"),
    ("tpu-v3-device", "v3"),
    ("tpu-v3-podslice", "v3"),
    ("tpu-v3-slice", "v3"),
    ("tpu-v3-slice-device", "v3"),
    ("tpu-v3-slice-podslice", "v3")]

  const V4 := [
    ("tpu-v4", "v4"),
    ("tpu-v4-podslice", "v4"),
    ("tpu-v4-lite-device", "v4lite"),
    ("tpu-v4-slice", "v4"),
    ("tpu-v4-slice-device", "v4"),
    ("tpu-v4-slice-podslice", "v4"),
    ("tpu-v4-slice-lite-device", "v4lite"),
    ("tpu-v4-slice-lite-podslice", "v4lite")]

  const V5 := [
    ("tpu-v5-lite-device", "v5lite"),
    ("tpu-v5-lite-podslice", "v5litepod"),
    ("tpu-v5-slice-lite-device", "v5lite"),
    ("tpu-v5-slice-lite-podslice", "v5litepod"),
    ("tpu-v5p-slice", "v5p"),
    ("tpu-v5p-slice-device", "v5p")]

  const V6 := [
    ("tpu-v6e-slice", "v6e"),
    ("tpu-v6e-slice-device", "v6e"),
    ("tpu-v6e-slice-podslice", "v6e")]

  /** The labels that are accepted, each with its generation. */
  predicate Listed(s: string, gen: string) {
    (s, gen) in V3 || (s, gen) in V4 || (s, gen) in V5 || (s, gen) in V6
  }

  lemma RowsOfV3(i: nat, j: nat)
    requires i < 2 && j < 3
    ensures V3[3 * i + j] == (Label("3", i, j), SupportedGen("3", i, j))
  {
    assert Label("3", 0, 0) == "tpu-v3";
    assert Label("3", 0, 1) == "tpu-v3-device";
    assert Label("3", 0, 2) == "tpu-v3-podslice";
    assert Label("3", 1, 0) == "tpu-v3-slice";
    assert Label("3", 1, 1) == "tpu-v3-slice-device";
    assert Label("3", 1, 2) == "tpu-v3-slice-podslice";
    assert SupportedGen("3", i, j) == "v3";
  }

  function V4Row(i: nat, j: nat): nat
    requires Supported("4", i, j)
  {
    if i == 1 then 3 + j else if j == 0 then 0 else j - 1
  }

  lemma RowsOfV4(i: nat, j: nat)
    requires j < 5 && Supported("4", i, j)
    ensures V4Row(i, j) < 8 && V4[V4Row(i, j)] == (Label("4", i, j), SupportedGen("4", i, j))
  {
    assert Label("4", 0, 0) == "tpu-v4";
    assert Label("4", 0, 2) == "tpu-v4-podslice";
    assert Label("4", 0, 3) == "tpu-v4-lite-device";
    assert Label("4", 1, 0) == "tpu-v4-slice";
    assert Label("4", 1, 1) == "tpu-v4-slice-device";
    assert Label("4", 1, 2) == "tpu-v4-slice-podslice";
    assert Label("4", 1, 3) == "tpu-v4-slice-lite-device";
    assert Label("4", 1, 4) == "tpu-v4-slice-lite-podslice";
    assert SupportedGen("4", i, j) == if j == 3 || j == 4 then "v4lite" else "v4";
  }

  function V5Row(i: nat, j: nat): nat
    requires Supported("5", i, j)
  {
    if i == 3 then 4 + j else 2 * i + j - 3
  }

  lemma RowsOfV5(i: nat, j: nat)
    requires j < 5 && Supported("5", i, j)
    ensures V5Row(i, j) < 6 && V5[V5Row(i, j)] == (Label("5", i, j), SupportedGen("5", i, j))
  {
    assert Label("5", 0, 3) == "tpu-v5-lite-device";
    assert Label("5", 0, 4) == "tpu-v5-lite-podslice";
    assert Label("5", 1, 3) == "tpu-v5-slice-lite-device";
    assert Label("5", 1, 4) == "tpu-v5-slice-lite-podslice";
    assert Label("5", 3, 0) == "tpu-v5p-slice";
    assert Label("5", 3, 1) == "tpu-v5p-slice-device";
    assert SupportedGen("5", i, j) == if i == 3 then "v5p" else if j == 3 then "v5lite" else "v5litepod";
  }

  lemma RowsOfV6(j: nat)
    requires j < 3
    ensures V6[j] == (Label("6", 2, j), SupportedGen("6", 2, j))
  {
    assert Label("6", 2, 0) == "tpu-v6e-slice";
    assert Label("6", 2, 1) == "tpu-v6e-slice-device";
    assert Label("6", 2, 2) == "tpu-v6e-slice-podslice";
    assert SupportedGen("6", 2, j) == "v6e";
  }

  lemma SupportedIsListed(digits: string, i: nat, j: nat)
    requires i < 4 && j < 5 && Supported(digits, i, j)
    ensures Listed(Label(digits, i, j), SupportedGen(digits, i, j))
  {
    assert |V3| == 6 && |V4| == 8 && |V5| == 6 && |V6| == 3;
    hide Label, SupportedGen, V3, V4, V5, V6;
    if digits == "3" {
      RowsOfV3(i, j);
    } else if digits == "4" {
      RowsOfV4(i, j);
    } else if digits == "5" {
      RowsOfV5(i, j);
    } else {
      RowsOfV6(j);
    }
  }

  lemma ListedIsSupported(s: string, gen: string) returns (digits: string, i: nat, j: nat)
    requires Listed(s, gen)
    ensures i < 4 && j < 5 && Supported(digits, i, j) && s == Label(digits, i, j) && gen == SupportedGen(digits, i, j)
  {
    assert |V3| == 6 && |V4| == 8 && |V5| == 6 && |V6| == 3;
    hide Label, SupportedGen, V3, V4, V5, V6;
    if (s, gen) in V3 {
      var k :| 0 <= k < 6 && V3[k] == (s, gen);
      digits, i, j := "3", k / 3, k % 3;
      RowsOfV3(i, j);
    } else if (s, gen) in V4 {
      var k :| 0 <= k < 8 && V4[k] == (s, gen);
      digits, i, j := "4", if k < 3 then 0 else 1, if k == 0 then 0 else if k < 3 then k + 1 else k - 3;
      RowsOfV4(i, j);
    } else if (s, gen) in V5 {
      var k :| 0 <= k < 6 && V5[k] == (s, gen);
      digits, i, j := "5", if k < 2 then 0 else if k < 4 then 1 else 3, if k < 4 then 3 + k % 2 else k - 4;
      RowsOfV5(i, j);
    } else {
      j :| 0 <= j < 3 && V6[j] == (s, gen);
      digits, i := "6", 2;
      RowsOfV6(j);
    }
  }

  /** AcceleratorGen answers a generation exactly for the labels listed, and for each the generation listed with it. */
  lemma AcceptedLabels(s: string, gen: string)
    ensures AcceleratorGen(s) == Some(gen) <==> Listed(s, gen)
  {
    hide Label, SupportedGen, Supported, Listed, AcceleratorGen;
    if AcceleratorGen(s) == Some(gen) {
      SupportedLabels(s);
      var digits, i, j :| i < 4 && j < 5 && Supported(digits, i, j) && s == Label(digits, i, j);
      GenerationOfSupported(digits, i, j);
      SupportedIsListed(digits, i, j);
    }
    if Listed(s, gen) {
      var digits, i, j := ListedIsSupported(s, gen);
      GenerationOfSupported(digits, i, j);
    }
  }

  lemma StartsWithV5(gen: string)
    requires |gen| >= 2 && gen[0] == 'v'
    ensures HasPrefix(gen, "v5") <==> gen[1] == '5'
  {
    if gen[1] == '5' {
      assert gen == "v5" + gen[2..];
    } else {
      assert "v5"[1] != gen[1];
    }
  }

  lemma SupportedIsValid(digits: string, i: nat, j: nat)
    requires i < 4 && j < 5 && Supported(digits, i, j)
    ensures digits != [] && AllDigits(digits)
    ensures IsKnown(PlainGen(digits, i, j)) && PlainGen(digits, i, j) == SupportedGen(digits, i, j)
    ensures Label(digits, i, j) != "tpu-v4-device" && Label(digits, i, j) != "tpu-v4-lite-podslice"
  {
    var s := Label(digits, i, j);
    assert s[5] == digits[0];
    assert |s| == 6 + |SERIES[i]| + |FORMS[j]|;
    var lite := if IsLite(j) then "lite" else "";
    var gen := "v" + digits + Letter(i) + lite;
    if i >= 2 {
      assert gen == if i == 2 then "v6e" else "v5p";
    } else if IsLite(j) {
      assert gen == if digits == "4" then "v4lite" else "v5lite";
    } else {
      assert gen == if digits == "3" then "v3" else "v4";
    }
    StartsWithV5(gen);
    assert gen[1] == digits[0];
    assert PlainGen(digits, i, j) == if digits == "5" && j == 4 then "v5litepod" else gen;
  }

  /** The characters of a generation that tell where it came from. */
  lemma PlainGenChars(digits: string, i: nat, j: nat)
    requires i < 4 && j < 5 && digits != [] && AllDigits(digits)
    ensures var gen := PlainGen(digits, i, j);
            && |gen| >= 2 && gen[1] == digits[0] && IsDigit(gen[1])
            && (|digits| > 1 ==> |gen| > 2 && IsDigit(gen[2]))
            && (|digits| == 1 && i >= 2 ==>
                  |gen| > 2 && gen[2] == Letter(i)[0] && (IsLite(j) ==> |gen| > 3 && gen[3] == 'l'))
            && (|digits| == 1 && i < 2 && IsLite(j) ==> |gen| > 2 && gen[2] == 'l')
            && (|digits| == 1 && i < 2 && !IsLite(j) && gen[1] != '5' ==> |gen| == 2)
            && (gen[1] == '5' && IsPod(j) ==> gen[|gen| - 1] == 'd')
  {
    var lite := if IsLite(j) then "lite" else "";
    var gen := "v" + digits + Letter(i) + lite;
    assert digits[0] in digits && (|digits| > 1 ==> digits[1] in digits);
    assert gen[..2] == ['v', digits[0]];
    StartsWithV5(gen);
    if |digits| == 1 {
      assert gen == ['v', digits[0]] + Letter(i) + lite;
    }
  }

  lemma ExcludedLabels()
    ensures Label("4", 0, 1) == "tpu-v4-device" && Label("4", 0, 4) == "tpu-v4-lite-podslice"
  {
  }

  lemma ValidGenIsSupported(digits: string, i: nat, j: nat)
    requires i < 4 && j < 5 && digits != [] && AllDigits(digits)
    requires IsKnown(PlainGen(digits, i, j))
    requires Label(digits, i, j) != "tpu-v4-device" && Label(digits, i, j) != "tpu-v4-lite-podslice"
    ensures Supported(digits, i, j)
  {
    PlainGenChars(digits, i, j);
    ExcludedLabels();
    assert |digits| == 1 ==> digits == [digits[0]];
  }
}
