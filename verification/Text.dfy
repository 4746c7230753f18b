/**
 The string functions of Go that the plugin relies on: splitting, joining, decimal printing and strconv.Atoi.
 */
module Text {
  import opened Wrappers

  predicate HasPrefix(s: string, prefix: string) {
    prefix <= s
  }

  // ----- split and join

  /** strings.Split by a one-character separator. */
  function Split(s: string, sep: char): (parts: seq<string>)
    ensures parts != []
  {
    if s == [] then [""] else
    var rest := Split(s[1..], sep);
    if s[0] == sep then [""] + rest else [[s[0]] + rest[0]] + rest[1..]
  }

  /** strings.Join with a one-character separator. */
  function Join(parts: seq<string>, sep: char): string {
    if parts == [] then "" else if |parts| == 1 then parts[0] else parts[0] + [sep] + Join(parts[1..], sep)
  }

  lemma {:induction false} SplitPrefix(part: string, rest: string, sep: char)
    requires sep !in part
    ensures Split(part + [sep] + rest, sep) == [part] + Split(rest, sep)
  {
    var s := part + [sep] + rest;
    if part == [] {
      assert s[1..] == rest;
    } else {
      assert s[1..] == part[1..] + [sep] + rest;
      SplitPrefix(part[1..], rest, sep);
      assert [part[0]] + part[1..] == part;
    }
  }

  lemma {:induction false} SplitNothing(part: string, sep: char)
    requires sep !in part
    ensures Split(part, sep) == [part]
  {
    if part != [] {
      SplitNothing(part[1..], sep);
      assert [part[0]] + part[1..] == part;
    }
  }

  /** Splitting what was joined gives the parts back, if none holds the separator. */
  lemma {:induction false} SplitJoin(parts: seq<string>, sep: char)
    requires parts != [] && forall p :: p in parts ==> sep !in p
    ensures Split(Join(parts, sep), sep) == parts
  {
    if |parts| == 1 {
      SplitNothing(parts[0], sep);
    } else {
      SplitJoin(parts[1..], sep);
      SplitPrefix(parts[0], Join(parts[1..], sep), sep);
    }
  }

  lemma {:induction false} JoinSplit(s: string, sep: char)
    ensures Join(Split(s, sep), sep) == s
    ensures forall p :: p in Split(s, sep) ==> sep !in p
  {
    if s != [] {
      JoinSplit(s[1..], sep);
      var rest := Split(s[1..], sep);
      assert s == [s[0]] + s[1..];
      assert rest == [rest[0]] + rest[1..];
      if s[0] != sep && |rest| > 1 {
        var parts := [[s[0]] + rest[0]] + rest[1..];
        assert parts[1..] == rest[1..];
        assert Join(rest, sep) == rest[0] + [sep] + Join(rest[1..], sep);
      }
    }
  }

  /** Splitting gives the one list of parts without the separator that joins to the string. */
  lemma SplitMeans(s: string, sep: char, parts: seq<string>)
    ensures Split(s, sep) == parts <==> parts != [] && Join(parts, sep) == s && forall p :: p in parts ==> sep !in p
  {
    JoinSplit(s, sep);
    if parts != [] && Join(parts, sep) == s && forall p :: p in parts ==> sep !in p {
      SplitJoin(parts, sep);
    }
  }

  // ----- decimal numbers

  predicate IsDigit(c: char) {
    '0' <= c <= '9'
  }

  predicate AllDigits(s: string) {
    forall c :: c in s ==> IsDigit(c)
  }

  function DigitValue(c: char): nat
    requires IsDigit(c)
  {
    c as int - '0' as int
  }

  function DigitChar(d: nat): (c: char)
    requires d < 10
    ensures IsDigit(c) && DigitValue(c) == d
  {
    ('0' as int + d) as char
  }

  /** strconv.FormatInt of a non-negative number in base ten. */
  function Decimal(n: nat): (s: string)
    ensures s != [] && AllDigits(s)
  {
    if n < 10 then [DigitChar(n)] else Decimal(n / 10) + [DigitChar(n % 10)]
  }

  function DigitsValue(s: string): nat
    requires AllDigits(s)
  {
    if s == [] then 0 else 10 * DigitsValue(s[..|s| - 1]) + DigitValue(s[|s| - 1])
  }

  const MAX_INT64 := 0x7fff_ffff_ffff_ffff

  /** strconv.Atoi on a 64-bit platform: an optional sign, at least one digit, leading zeros allowed. */
  function Atoi(s: string): Option<int> {
    var negative := s != [] && s[0] == '-';
    var digits := if s != [] && (s[0] == '-' || s[0] == '+') then s[1..] else s;
    if digits == [] || !AllDigits(digits) then None else
    var n: int := DigitsValue(digits);
    if negative then if n <= MAX_INT64 + 1 then Some(-n) else None
    else if n <= MAX_INT64 then Some(n) else None
  }

  lemma {:induction false} DecimalValue(n: nat)
    ensures DigitsValue(Decimal(n)) == n && (n > 0 ==> Decimal(n)[0] != '0')
  {
    if n >= 10 {
      DecimalValue(n / 10);
      var s := Decimal(n);
      assert s[..|s| - 1] == Decimal(n / 10);
    }
  }

  /** Printing and parsing: Atoi reads back every number it can hold. */
  lemma AtoiDecimal(n: nat)
    ensures Atoi(Decimal(n)) == if n <= MAX_INT64 then Some(n) else None
  {
    DecimalValue(n);
    assert Decimal(n)[0] in Decimal(n);
  }

  function Pow10(n: nat): nat {
    if n == 0 then 1 else 10 * Pow10(n - 1)
  }

  /** The value of a numeral by the place of each digit, from the first one on. */
  function PlaceValue(s: string): int
    requires AllDigits(s)
  {
    if s == [] then 0 else (s[0] as int - 48) * Pow10(|s| - 1) + PlaceValue(s[1..])
  }

  lemma {:induction false} PlaceValueSnoc(s: string, c: char)
    requires AllDigits(s) && IsDigit(c)
    ensures AllDigits(s + [c]) && PlaceValue(s + [c]) == 10 * PlaceValue(s) + (c as int - 48)
  {
    if s == [] {
      assert ([] + [c])[1..] == [];
    } else {
      assert (s + [c])[1..] == s[1..] + [c];
      PlaceValueSnoc(s[1..], c);
      TimesTen(s[0] as int - 48, Pow10(|s| - 1));
    }
  }

  lemma TimesTen(d: int, p: int)
    ensures d * (10 * p) == 10 * (d * p)
  {
  }

  lemma {:induction false} DigitsByPlace(s: string)
    requires AllDigits(s)
    ensures DigitsValue(s) == PlaceValue(s)
  {
    if s != [] {
      DigitsByPlace(s[..|s| - 1]);
      assert s == s[..|s| - 1] + [s[|s| - 1]];
      PlaceValueSnoc(s[..|s| - 1], s[|s| - 1]);
    }
  }

  /** Atoi answers `n` exactly for a numeral of an int64: an optional sign and decimal digits that come to it. */
  lemma AtoiMeans(s: string, n: int)
    ensures Atoi(s) == Some(n) <==>
            && -9223372036854775808 <= n <= 9223372036854775807
            && exists digits :: digits != [] && AllDigits(digits)
                                && ((n == PlaceValue(digits) && (s == digits || s == "+" + digits))
                                    || (n == -PlaceValue(digits) && s == "-" + digits))
  {
    if Atoi(s) == Some(n) {
      var digits := if s[0] == '-' || s[0] == '+' then s[1..] else s;
      DigitsByPlace(digits);
      assert s == [s[0]] + s[1..];
    }
    forall digits | digits != [] && AllDigits(digits) && -9223372036854775808 <= n <= 9223372036854775807
                    && ((n == PlaceValue(digits) && (s == digits || s == "+" + digits))
                        || (n == -PlaceValue(digits) && s == "-" + digits))
      ensures Atoi(s) == Some(n)
    {
      DigitsByPlace(digits);
      assert digits[0] in digits;
      assert ("+" + digits)[1..] == digits && ("-" + digits)[1..] == digits;
    }
  }

  /** strconv.FormatInt in base ten. */
  function FormatInt(n: int): string {
    if n < 0 then "-" + Decimal(-n) else Decimal(n)
  }

  /** No zero leads a printed number other than zero itself. */
  lemma FormatIntMeans(n: int)
    ensures FormatInt(0) == "0" && (n > 0 ==> FormatInt(n)[0] != '0')
    ensures n < 0 ==> FormatInt(n) == "-" + FormatInt(-n)
  {
    assert Decimal(0) == "0";
    if n > 0 {
      DecimalValue(n);
    }
  }

  /** Printing and parsing with a sign: Atoi reads back every int64. */
  lemma AtoiFormatInt(n: int)
    ensures Atoi(FormatInt(n)) == if -MAX_INT64 - 1 <= n <= MAX_INT64 then Some(n) else None
  {
    if n < 0 {
      DecimalValue(-n);
      assert FormatInt(n)[1..] == Decimal(-n);
    } else {
      AtoiDecimal(n);
    }
  }

  // ----- case and white space

  /** strings.ToLower on ASCII letters. */
  function LowerChar(c: char): char {
    if 'A' <= c <= 'Z' then (c as int + 32) as char else c
  }

  function Lower(s: string): string {
    seq(|s|, i requires 0 <= i < |s| => LowerChar(s[i]))
  }

  predicate IsSpace(c: char) {
    c in {' ', '\t', '\n', '\r', 0x0b as char, 0x0c as char, 0x85 as char, 0xa0 as char}
  }

  function TrimLeft(s: string): string {
    if s != [] && IsSpace(s[0]) then TrimLeft(s[1..]) else s
  }

  function TrimRight(s: string): string {
    if s != [] && IsSpace(s[|s| - 1]) then TrimRight(s[..|s| - 1]) else s
  }

  function TrimSpace(s: string): string {
    TrimRight(TrimLeft(s))
  }

  /** Trimming takes away white space at both ends and nothing else, until none is left there. */
  lemma TrimMeans(s: string) returns (before: string, after: string)
    ensures s == before + TrimSpace(s) + after
    ensures (forall c :: c in before ==> IsSpace(c)) && forall c :: c in after ==> IsSpace(c)
    ensures TrimSpace(s) != "" ==> !IsSpace(TrimSpace(s)[0]) && !IsSpace(TrimSpace(s)[|TrimSpace(s)| - 1])
  {
    before := TrimLeftMeans(s);
    after := TrimRightMeans(TrimLeft(s));
    if TrimSpace(s) != "" {
      assert TrimLeft(s)[0] == TrimSpace(s)[0];
    }
  }

  lemma {:induction false} TrimLeftMeans(s: string) returns (before: string)
    ensures s == before + TrimLeft(s) && forall c :: c in before ==> IsSpace(c)
    ensures TrimLeft(s) != "" ==> !IsSpace(TrimLeft(s)[0])
  {
    if s != [] && IsSpace(s[0]) {
      var rest := TrimLeftMeans(s[1..]);
      before := [s[0]] + rest;
    } else {
      before := [];
    }
  }

  lemma {:induction false} TrimRightMeans(s: string) returns (after: string)
    ensures s == TrimRight(s) + after && forall c :: c in after ==> IsSpace(c)
    ensures TrimRight(s) != "" ==> !IsSpace(TrimRight(s)[|TrimRight(s)| - 1])
  {
    if s != [] && IsSpace(s[|s| - 1]) {
      var rest := TrimRightMeans(s[..|s| - 1]);
      after := rest + [s[|s| - 1]];
    } else {
      after := [];
    }
  }
}
