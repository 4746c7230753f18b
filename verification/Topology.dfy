/**
 Topology arithmetic and its text form (cmd/tpu-dra-kubeletplugin/util.go). Dimensions are Go int64 values:
 the type below holds no other, so every multiplication that verifies stays in range.
 */
module Topology {
  import opened Wrappers
  import opened Text
  import opened Sequences

  newtype int64 = x: int | -0x8000_0000_0000_0000 <= x < 0x8000_0000_0000_0000

  const MAX_TOTAL_CHIPS: int64 := 0x10_0000

  // ----- the guarded product

  function Product(dims: seq<int64>): int {
    if dims == [] then 1 else Product(dims[..|dims| - 1]) * (dims[|dims| - 1] as int)
  }

  predicate AllPositive(dims: seq<int64>) {
    forall i :: 0 <= i < |dims| ==> dims[i] > 0
  }

  lemma {:induction false} ProductPositive(dims: seq<int64>)
    requires AllPositive(dims)
    ensures Product(dims) >= 1
  {
    if dims != [] {
      ProductPositive(dims[..|dims| - 1]);
      MulAtLeast(Product(dims[..|dims| - 1]), dims[|dims| - 1] as int);
    }
  }

  lemma MulMonotone(a: int, b: int, c: int)
    requires a <= b && c >= 0
    ensures a * c <= b * c
  {
  }

  lemma MulAtLeast(a: int, b: int)
    requires a >= 1 && b >= 1
    ensures a * b >= a && a * b >= b
  {
  }

  /** The product of a prefix never exceeds the product of the whole. */
  lemma {:induction false} PrefixProduct(dims: seq<int64>, k: nat)
    requires AllPositive(dims) && k <= |dims|
    ensures Product(dims[..k]) <= Product(dims)
  {
    if k == |dims| {
      assert dims[..k] == dims;
    } else {
      var init := dims[..|dims| - 1];
      assert init[..k] == dims[..k];
      PrefixProduct(init, k);
      ProductPositive(init);
      MulAtLeast(Product(init), dims[|dims| - 1] as int);
    }
  }

  /**
   calculateTotalChips: the product, for dimension lists of any length, exactly when it is defined and within
   the cap.
   */
  method CalculateTotalChips(dims: seq<int64>) returns (r: Option<int64>)
    ensures r.Some? <==> AllPositive(dims) && Product(dims) <= MAX_TOTAL_CHIPS as int
    ensures r.Some? ==> r.value as int == Product(dims)
    ensures TotalChips(dims) == if r.Some? then Some(r.value as int) else None
  {
    var totalChips: int64 := 1;
    for k := 0 to |dims|
      invariant AllPositive(dims[..k])
      invariant totalChips as int == Product(dims[..k])
      invariant 1 <= totalChips <= MAX_TOTAL_CHIPS
    {
      var chips := dims[k];
      assert dims[..k + 1] == dims[..k] + [chips];
      assert dims[..k + 1][..k] == dims[..k];
      if chips <= 0 {
        return None;
      }
      if totalChips > MAX_TOTAL_CHIPS / chips {
        DivisionGuard(totalChips as int, chips as int);
        if AllPositive(dims) {
          PrefixProduct(dims, k + 1);
        }
        return None;
      }
      DivisionGuard(totalChips as int, chips as int);
      totalChips := totalChips * chips;
    }
    assert dims[..|dims|] == dims;
    r := Some(totalChips);
  }

  /** Checking the quotient before multiplying is the same as checking the product. */
  lemma DivisionGuard(total: int, chips: int)
    requires total >= 1 && chips >= 1
    ensures total > 0x10_0000 / chips <==> total * chips > 0x10_0000
    ensures total * chips >= 1
  {
    var q := 0x10_0000 / chips;
    assert 0x10_0000 == chips * q + 0x10_0000 % chips;
    if total > q {
      MulMonotone(q + 1, total, chips);
    } else {
      MulMonotone(total, q, chips);
    }
    MulAtLeast(total, chips);
  }

  /** What calculateTotalChips returns. */
  function TotalChips(dims: seq<int64>): Option<int> {
    if AllPositive(dims) && Product(dims) <= MAX_TOTAL_CHIPS as int then Some(Product(dims)) else None
  }

  /** Any factor can be taken out of the product. */
  lemma {:induction false} ProductTakeOut(dims: seq<int64>, k: nat)
    requires k < |dims|
    ensures Product(dims) == Product(dims[..k] + dims[k + 1..]) * dims[k] as int
    decreases |dims|
  {
    var init, last := dims[..|dims| - 1], dims[|dims| - 1] as int;
    var rest := dims[..k] + dims[k + 1..];
    if k == |dims| - 1 {
      assert rest == init;
    } else {
      assert rest[..|rest| - 1] == init[..k] + init[k + 1..];
      ProductTakeOut(init, k);
      SwapFactors(Product(init[..k] + init[k + 1..]), dims[k] as int, last);
    }
  }

  /** The order of the dimensions does not matter. */
  lemma {:induction false} ProductPermutes(a: seq<int64>, b: seq<int64>)
    requires multiset(a) == multiset(b)
    ensures Product(a) == Product(b)
    decreases |a|
  {
    if a == [] {
      assert |multiset(a)| == 0 && |multiset(b)| == 0;
    } else {
      var init, last := a[..|a| - 1], a[|a| - 1];
      var k := OccursIn(a, b);
      var rest := b[..k] + b[k + 1..];
      MultisetTakeOut(a, |a| - 1);
      MultisetTakeOut(b, k);
      assert a[..|a| - 1] + a[|a|..] == init;
      ProductPermutes(init, rest);
      ProductTakeOut(b, k);
    }
  }

  /** So calculateTotalChips answers the same for any order of the dimensions. */
  lemma TotalChipsPermutes(a: seq<int64>, b: seq<int64>)
    requires multiset(a) == multiset(b)
    ensures TotalChips(a) == TotalChips(b)
  {
    ProductPermutes(a, b);
    if AllPositive(a) {
      PositivePermutes(a, b);
    } else if AllPositive(b) {
      PositivePermutes(b, a);
    }
  }

  lemma PositivePermutes(a: seq<int64>, b: seq<int64>)
    requires multiset(a) == multiset(b) && AllPositive(a)
    ensures AllPositive(b)
  {
    forall i | 0 <= i < |b| ensures b[i] > 0 {
      assert b[i] in multiset(b);
      assert b[i] in multiset(a);
    }
  }

  lemma SwapFactors(a: int, b: int, c: int)
    ensures a * b * c == a * c * b
  {
  }

  // ----- text form

  function AtoiAll(parts: seq<string>): Option<seq<int64>> {
    if parts == [] then Some([]) else
    var n, rest := Atoi(parts[0]), AtoiAll(parts[1..]);
    if n.Some? && n.value > 0 && rest.Some? then Some([n.value as int64] + rest.value) else None
  }

  /** What getTopologyDims returns: two or three positive numbers between x's, padded with 1 to three. */
  function ParseTopology(topology: string): Option<seq<int64>> {
    var dims := AtoiAll(Split(topology, 'x'));
    if dims.None? then None
    else if |dims.value| == 2 then Some(dims.value + [1])
    else if |dims.value| == 3 then dims
    else None
  }

  lemma {:induction false} AtoiAllMeans(parts: seq<string>)
    ensures AtoiAll(parts).Some? <==> forall p :: p in parts ==> Atoi(p).Some? && Atoi(p).value > 0
    ensures AtoiAll(parts).Some? ==>
              && |AtoiAll(parts).value| == |parts|
              && forall k :: 0 <= k < |parts| ==> Some(AtoiAll(parts).value[k] as int) == Atoi(parts[k])
  {
    if parts != [] {
      AtoiAllMeans(parts[1..]);
      assert parts == [parts[0]] + parts[1..];
    }
  }

  /** The dimensions between the x's are positive numbers, two or three; a missing third one is 1. */
  ghost predicate Dimensions(topology: string, dims: seq<int64>) {
    var parts := Split(topology, 'x');
    && (|parts| == 2 || |parts| == 3) && |dims| == 3
    && (forall k :: 0 <= k < |parts| ==> Atoi(parts[k]) == Some(dims[k] as int) && dims[k] > 0)
    && (|parts| == 2 ==> dims[2] == 1)
  }

  lemma ParseMeans(topology: string, dims: seq<int64>)
    ensures ParseTopology(topology) == Some(dims) <==> Dimensions(topology, dims)
  {
    var parts := Split(topology, 'x');
    AtoiAllMeans(parts);
    if ParseTopology(topology) == Some(dims) {
      assert forall k :: 0 <= k < |parts| ==> parts[k] in parts;
    }
    if Dimensions(topology, dims) {
      var all := AtoiAll(parts).value;
      assert forall k :: 0 <= k < |parts| ==> all[k] == dims[k];
      assert dims == if |parts| == 2 then all + [1] else all;
    }
  }

  /** getTopologyDims succeeds exactly if there are such dimensions, and they are what it returns. */
  method GetTopologyDims(topology: string) returns (r: Option<seq<int64>>)
    ensures r == ParseTopology(topology)
    ensures forall dims :: r == Some(dims) <==> Dimensions(topology, dims)
  {
    forall dims ensures ParseTopology(topology) == Some(dims) <==> Dimensions(topology, dims) {
      ParseMeans(topology, dims);
    }
    hide Dimensions, Split, Atoi;
    var strs := Split(topology, 'x');
    var dims: seq<int64> := [];
    assert strs[0..] == strs;
    assert AtoiAll(strs).Some? ==> dims + AtoiAll(strs).value == AtoiAll(strs).value;
    for k := 0 to |strs|
      invariant AtoiAll(strs) == var rest := AtoiAll(strs[k..]); if rest.Some? then Some(dims + rest.value) else None
    {
      assert strs[k..][0] == strs[k] && strs[k..][1..] == strs[k + 1..];
      var n := Atoi(strs[k]);
      if n == None || n.value <= 0 {
        return None;
      }
      ghost var rest := AtoiAll(strs[k + 1..]);
      assert rest.Some? ==> dims + ([n.value as int64] + rest.value) == dims + [n.value as int64] + rest.value;
      dims := dims + [n.value as int64];
    }
    assert AtoiAll(strs) == Some(dims + []) && dims + [] == dims;
    if |dims| == 2 {
      dims := dims + [1];
    }
    r := if |dims| != 3 then None else Some(dims);
  }

  function Print(dims: seq<int64>): seq<string>
    requires AllPositive(dims)
  {
    if dims == [] then [] else [Decimal(dims[0] as int)] + Print(dims[1..])
  }

  function PrintTopology(dims: seq<int64>): string
    requires AllPositive(dims)
  {
    Join(Print(dims), 'x')
  }

  lemma {:induction false} PrintedParses(dims: seq<int64>)
    requires AllPositive(dims)
    ensures AtoiAll(Print(dims)) == Some(dims) && |Print(dims)| == |dims|
    ensures forall p :: p in Print(dims) ==> AllDigits(p)
  {
    if dims != [] {
      PrintedParses(dims[1..]);
      AtoiDecimal(dims[0] as int);
      assert dims == [dims[0]] + dims[1..];
    }
  }

  /**
   Print then parse: any list of positive int64 dimensions reads back, padded, if and only if there are two or
   three of them.
   */
  lemma PrintThenParse(dims: seq<int64>)
    requires AllPositive(dims) && dims != []
    ensures ParseTopology(PrintTopology(dims)) ==
            if |dims| == 2 then Some(dims + [1]) else if |dims| == 3 then Some(dims) else None
  {
    PrintedParses(dims);
    assert forall p :: p in Print(dims) ==> 'x' !in p;
    SplitJoin(Print(dims), 'x');
  }

  lemma {:induction false} AtoiAllPositive(parts: seq<string>)
    requires AtoiAll(parts).Some?
    ensures AllPositive(AtoiAll(parts).value) && |AtoiAll(parts).value| == |parts|
  {
    if parts != [] {
      AtoiAllPositive(parts[1..]);
    }
  }

  /**
   Parse then print: a successful parse has exactly three positive dimensions, and printing them gives a
   topology that parses to the same.
   */
  lemma ParseThenPrint(topology: string)
    requires ParseTopology(topology).Some?
    ensures var dims := ParseTopology(topology).value;
            |dims| == 3 && AllPositive(dims) && ParseTopology(PrintTopology(dims)) == Some(dims)
  {
    AtoiAllPositive(Split(topology, 'x'));
    PrintThenParse(ParseTopology(topology).value);
  }

  // ----- hosts

  /** Chips per dimension of one host, by its chip count. */
  function Tray(chipCount: int): Option<seq<int64>> {
    if chipCount == 1 then Some([1, 1, 1])
    else if chipCount == 2 then Some([1, 2, 1])
    else if chipCount == 4 then Some([2, 2, 1])
    else if chipCount == 8 then Some([2, 4, 1])
    else None
  }

  /** The tray of a chip count is the flattest box of that many chips: one layer, no more than twice as long as wide. */
  lemma TrayMeans(chipCount: int)
    ensures Tray(chipCount).Some? <==> chipCount in {1, 2, 4, 8}
    ensures Tray(chipCount).Some? ==>
              var tray := Tray(chipCount).value;
              && |tray| == 3 && 1 <= tray[0] <= tray[1] <= 2 * tray[0] && tray[2] == 1
              && tray[0] as int * tray[1] as int == chipCount
  {
  }

  /** Go's integer division, which truncates towards zero. */
  function Quotient(a: int64, b: int64): int64
    requires b > 0
  {
    if a >= 0 then a / b else (-(-(a as int) / b as int)) as int64
  }

  /** The hosts per dimension that calculateHostBounds prints. */
  function HostBounds(chipCount: int, dims: seq<int64>): Option<seq<int64>> {
    if |dims| != 3 || Tray(chipCount).None? then None else
    var tray := Tray(chipCount).value;
    Some([Quotient(dims[0], tray[0]), Quotient(dims[1], tray[1]), Quotient(dims[2], tray[2])])
  }

  /** calculateHostBounds, with the bounds printed as HOST_BOUNDS carries them. */
  method CalculateHostBounds(chipCount: int, dims: seq<int64>) returns (r: Option<string>)
    ensures r.Some? <==> HostBounds(chipCount, dims).Some?
    ensures r.Some? ==> r.value == Join(PrintBounds(HostBounds(chipCount, dims).value), ',')
    ensures r.Some? <==> |dims| == 3 && chipCount in {1, 2, 4, 8}
    ensures r.Some? ==> BoundsText(chipCount, dims, r.value)
  {
    hide BoundsText, Split, FormatInt, Quotient;
    if |dims| != 3 {
      return None;
    }
    var tray := Tray(chipCount);
    if tray == None {
      return None;
    }
    var bounds: seq<string> := [];
    for dim := 0 to 3
      invariant |bounds| == dim
      invariant forall i :: 0 <= i < dim ==> bounds[i] == FormatInt(Quotient(dims[i], tray.value[i]) as int)
    {
      bounds := bounds + [FormatInt(Quotient(dims[dim], tray.value[dim]) as int)];
    }
    assert bounds == PrintBounds(HostBounds(chipCount, dims).value);
    BoundsReadBack(chipCount, dims);
    r := Some(Join(bounds, ','));
  }

  function PrintBounds(bounds: seq<int64>): seq<string> {
    seq(|bounds|, i requires 0 <= i < |bounds| => FormatInt(bounds[i] as int))
  }

  lemma Product3(dims: seq<int64>)
    requires |dims| == 3
    ensures Product(dims) == dims[0] as int * dims[1] as int * dims[2] as int
  {
    assert dims[..2][..1] == dims[..1] && dims[..1][..0] == [];
    assert Product(dims[..1]) == dims[0] as int;
    assert Product(dims[..2]) == dims[0] as int * dims[1] as int;
  }

  predicate Divides(chipCount: int, dims: seq<int64>)
    requires |dims| == 3 && Tray(chipCount).Some?
  {
    forall i :: 0 <= i < 3 ==> dims[i] % Tray(chipCount).value[i] == 0
  }

  /**
   Hosts never account for more chips than the topology has, and account for all of them exactly when each
   tray dimension divides its topology dimension.
   */
  lemma HostBoundsConserveChips(chipCount: int, dims: seq<int64>)
    requires AllPositive(dims) && HostBounds(chipCount, dims).Some?
    ensures var hosts := Product(HostBounds(chipCount, dims).value);
            && hosts * chipCount <= Product(dims)
            && (hosts * chipCount == Product(dims) <==> Divides(chipCount, dims))
  {
    var tray, bounds := Tray(chipCount).value, HostBounds(chipCount, dims).value;
    Product3(dims);
    Product3(bounds);
    var a, b, c := dims[0] as int, dims[1] as int, dims[2] as int;
    var p, q := tray[0] as int, tray[1] as int;
    FloorProduct(a, p, b, q);
    assert bounds[2] as int == c;
    Regroup(a / p, b / q, c, p, q);
    CompareScaled(a / p * p * (b / q * q), a * b, c);
    assert Divides(chipCount, dims) <==> a % p == 0 && b % q == 0 by {
      assert dims[0] % tray[0] == (a % p) as int64;
      assert dims[1] % tray[1] == (b % q) as int64;
      assert dims[2] % tray[2] == 0;
    }
  }

  lemma FloorProduct(a: int, p: int, b: int, q: int)
    requires a > 0 && p > 0 && b > 0 && q > 0
    ensures a / p * p * (b / q * q) <= a * b
    ensures a / p * p * (b / q * q) == a * b <==> a % p == 0 && b % q == 0
  {
    Floor(a, p);
    Floor(b, q);
    MulBelow(a / p * p, a, b / q * q, b);
  }

  lemma Floor(a: int, p: int)
    requires a > 0 && p > 0
    ensures 0 <= a / p * p <= a && (a / p * p == a <==> a % p == 0)
  {
    assert a == p * (a / p) + a % p;
  }

  lemma MulBelow(x: int, a: int, y: int, b: int)
    requires 0 <= x <= a && 0 <= y <= b && a > 0 && b > 0
    ensures x * y <= a * b && (x * y == a * b <==> x == a && y == b)
  {
    CompareScaled(x, a, b);
    if x > 0 {
      CompareScaled(y, b, x);
    }
  }

  lemma Regroup(i: int, j: int, c: int, p: int, q: int)
    ensures i * j * c * (p * q) == i * p * (j * q) * c
  {
    assert i * j * c * (p * q) == i * j * (c * (p * q));
    assert i * p * (j * q) == i * j * (p * q);
  }

  lemma CompareScaled(x: int, y: int, c: int)
    requires c > 0 && x <= y
    ensures x * c <= y * c && (x * c == y * c <==> x == y)
  {
    if x < y {
      assert (y - x) * c >= 1;
    }
  }

  /** The quotient without its fraction. */
  function Truncated(a: int, b: int): (q: int)
    requires b > 0
    ensures a >= 0 ==> q * b <= a < (q + 1) * b
    ensures a < 0 ==> (q - 1) * b < a <= q * b
  {
    if a >= 0 then a / b else -(-a / b)
  }

  lemma BoundsReadBack(chipCount: int, dims: seq<int64>)
    requires |dims| == 3 && Tray(chipCount).Some?
    ensures BoundsText(chipCount, dims, Join(PrintBounds(HostBounds(chipCount, dims).value), ','))
  {
    var tray, bounds := Tray(chipCount).value, HostBounds(chipCount, dims).value;
    QuotientIsTruncated(dims[0], tray[0]);
    QuotientIsTruncated(dims[1], tray[1]);
    QuotientIsTruncated(dims[2], tray[2]);
    hide Split, Join, Atoi, PrintBounds, Quotient, Truncated;
    HostBoundsTextReadsBack(bounds, 0);
    HostBoundsTextReadsBack(bounds, 1);
    HostBoundsTextReadsBack(bounds, 2);
    WholeQuotient(dims[2]);
  }

  lemma WholeQuotient(a: int64)
    ensures Quotient(a, 1) == a
  {
  }

  lemma QuotientIsTruncated(a: int64, b: int64)
    requires b > 0
    ensures Quotient(a, b) as int == Truncated(a as int, b as int)
  {
  }

  /**
   The text is three numbers between commas: each dimension divided by that of the tray of one, two, four or eight
   chips, without the fraction.
   */
  predicate BoundsText(chipCount: int, dims: seq<int64>, text: string)
    requires |dims| == 3
  {
    var parts := Split(text, ',');
    && |parts| == 3
    && Atoi(parts[0]) == Some(Truncated(dims[0] as int, if chipCount <= 2 then 1 else 2))
    && Atoi(parts[1]) == Some(Truncated(dims[1] as int, if chipCount == 8 then 4 else if chipCount == 1 then 1 else 2))
    && Atoi(parts[2]) == Some(dims[2] as int)
  }

  /** HOST_BOUNDS read back: splitting at the commas gives the decimal of each bound. */
  lemma HostBoundsTextReadsBack(bounds: seq<int64>, i: nat)
    requires i < |bounds|
    ensures var parts := Split(Join(PrintBounds(bounds), ','), ',');
            |parts| == |bounds| && Atoi(parts[i]) == Some(bounds[i] as int)
  {
    var parts := PrintBounds(bounds);
    forall p | p in parts ensures ',' !in p {
      var k :| 0 <= k < |parts| && parts[k] == p;
      var n := bounds[k] as int;
      assert AllDigits(Decimal(if n < 0 then -n else n));
    }
    SplitJoin(parts, ',');
    AtoiFormatInt(bounds[i] as int);
  }

  /** isSingleHost: None when calculateTotalChips fails. */
  function IsSingleHost(chipCount: int, dims: seq<int64>): Option<bool> {
    if TotalChips(dims).Some? then Some(chipCount == TotalChips(dims).value) else None
  }

  /**
   Two functions that decide "single host" on their own agree: where the trays divide the topology, every bound
   is 1 exactly when the chips of one host are all there are.
   */
  lemma OneHostMeansSingleHost(chipCount: int, dims: seq<int64>)
    requires AllPositive(dims) && HostBounds(chipCount, dims).Some? && Divides(chipCount, dims)
    ensures HostBounds(chipCount, dims) == Some([1, 1, 1]) <==> IsSingleHost(chipCount, dims) == Some(true)
  {
    var bounds := HostBounds(chipCount, dims).value;
    HostBoundsConserveChips(chipCount, dims);
    Product3(bounds);
    var tray := Tray(chipCount).value;
    forall i | 0 <= i < 3 ensures bounds[i] >= 1 {
      assert bounds[i] == dims[i] / tray[i] && dims[i] % tray[i] == 0;
    }
    UnitProduct(bounds[0] as int, bounds[1] as int, bounds[2] as int, chipCount);
    assert bounds == [bounds[0], bounds[1], bounds[2]];
  }

  lemma UnitProduct(a: int, b: int, c: int, n: int)
    requires a >= 1 && b >= 1 && c >= 1 && n >= 1
    ensures a * b * c * n == n <==> a == 1 && b == 1 && c == 1
  {
    MulAtLeast(a, b);
    MulAtLeast(a * b, c);
    if a * b * c >= 2 {
      assert a * b * c * n >= 2 * n;
    }
  }

  function DropUnits(dims: seq<int64>): seq<int64> {
    if |dims| > 2 && dims[|dims| - 1] == 1 then DropUnits(dims[..|dims| - 1]) else dims
  }

  lemma PrintTwo(a: int64, b: int64)
    requires 1 <= a < 10 && 1 <= b < 10
    ensures PrintTopology([a, b]) == [DigitChar(a as nat)] + "x" + [DigitChar(b as nat)]
  {
    assert [a, b][1..] == [b] && [b][1..] == [];
    assert Print([b]) == [Decimal(b as int)];
    var parts := [Decimal(a as int), Decimal(b as int)];
    assert Print([a, b]) == parts;
    assert parts[1..] == [parts[1]];
    assert Join(parts, 'x') == parts[0] + ['x'] + Join(parts[1..], 'x');
  }

  lemma TrayText(chipCount: int)
    requires Tray(chipCount).Some?
    ensures PrintTopology(Tray(chipCount).value[..2])
            == if chipCount == 1 then "1x1" else if chipCount == 2 then "1x2"
               else if chipCount == 4 then "2x2" else "2x4"
  {
    var tray := Tray(chipCount).value;
    assert tray[..2] == [tray[0], tray[1]];
    PrintTwo(tray[0], tray[1]);
  }

  lemma TrayTopology(chipCount: int)
    requires Tray(chipCount).Some?
    ensures var tray := Tray(chipCount).value;
            && ParseTopology(PrintTopology(tray[..2])) == Some(tray)
            && Product(tray) == chipCount && IsSingleHost(chipCount, tray) == Some(true)
  {
    var tray := Tray(chipCount).value;
    Product3(tray);
    assert Product(tray) == chipCount;
    assert AllPositive(tray[..2]) && tray[..2] + [1] == tray;
    hide ParseTopology, PrintTopology, Product, Tray;
    PrintThenParse(tray[..2]);
  }

  /** singleHostTopology, the trailing dimensions of one chip left implicit. */
  method SingleHostTopology(chipCount: int) returns (topology: string)
    ensures topology == "" <==> Tray(chipCount).None?
    ensures topology != "" ==> ParseTopology(topology) == Tray(chipCount) && Product(Tray(chipCount).value) == chipCount
    ensures topology != "" ==> IsSingleHost(chipCount, ParseTopology(topology).value) == Some(true)
    ensures topology == if chipCount == 1 then "1x1" else if chipCount == 2 then "1x2"
                        else if chipCount == 4 then "2x2" else if chipCount == 8 then "2x4" else ""
  {
    var tray := Tray(chipCount);
    if tray == None {
      return "";
    }
    var dims := tray.value;
    while |dims| > 2 && dims[|dims| - 1] == 1
      invariant AllPositive(dims) && |dims| >= 2 && DropUnits(dims) == DropUnits(tray.value)
      decreases |dims|
    {
      dims := dims[..|dims| - 1];
    }
    assert dims == tray.value[..2];
    TrayText(chipCount);
    TrayTopology(chipCount);
    hide ParseTopology, Product, IsSingleHost, Join, Print;
    var parts := PrintEach(dims);
    topology := Join(parts, 'x');
  }

  method PrintEach(dims: seq<int64>) returns (parts: seq<string>)
    requires AllPositive(dims)
    ensures parts == Print(dims)
  {
    parts := [];
    for k := 0 to |dims|
      invariant parts + Print(dims[k..]) == Print(dims)
    {
      assert dims[k..][0] == dims[k] && dims[k..][1..] == dims[k + 1..];
      parts := parts + [Decimal(dims[k] as int)];
    }
  }
}
