/**
 Device enumeration and the wrapping hash behind the device UUIDs (cmd/tpu-dra-kubeletplugin/manager.go).
 */
module Manager {
  import opened Wrappers
  import opened Text
  import Cdi
  import ClaimMachine
  import ClaimIds

  // ----- enumeration

  datatype DirEntry = DirEntry(name: string, isDir: bool)

  /** The pattern `^accel[0-9]*$`, or `^\d+$` in /dev/vfio. */
  predicate IsDeviceName(vfio: bool, name: string) {
    if vfio then name != "" && AllDigits(name) else "accel" <= name && AllDigits(name[5..])
  }

  predicate IsDevice(vfio: bool, f: DirEntry) {
    !f.isDir && IsDeviceName(vfio, f.name)
  }

  /** The device names of a listing, in order. */
  function DeviceNames(vfio: bool, files: seq<DirEntry>): seq<string> {
    if files == [] then []
    else DeviceNames(vfio, files[..|files| - 1])
         + if IsDevice(vfio, files[|files| - 1]) then [files[|files| - 1].name] else []
  }

  predicate UniqueNames(files: seq<DirEntry>) {
    forall i, j :: 0 <= i < j < |files| ==> files[i].name != files[j].name
  }

  lemma {:induction false} DeviceNamesOf(vfio: bool, files: seq<DirEntry>, name: string)
    ensures name in DeviceNames(vfio, files) <==> exists f :: f in files && f.name == name && IsDevice(vfio, f)
  {
    if files != [] {
      DeviceNamesOf(vfio, files[..|files| - 1], name);
      assert files == files[..|files| - 1] + [files[|files| - 1]];
    }
  }

  /** The names of a listing, spelled out: files, not directories, of the pattern that the device directory asks for. */
  lemma DeviceNamesMean(vfio: bool, files: seq<DirEntry>, name: string)
    ensures name in DeviceNames(vfio, files) <==>
            && (exists f :: f in files && f.name == name && !f.isDir)
            && if vfio then name != "" && forall c :: c in name ==> '0' <= c <= '9'
               else |name| >= 5 && name[..5] == "accel" && forall c :: c in name[5..] ==> '0' <= c <= '9'
  {
    DeviceNamesOf(vfio, files, name);
    assert "accel" <= name <==> |name| >= 5 && name[..5] == "accel";
  }

  /** And in order: a longer listing only adds names behind. */
  lemma {:induction false} DeviceNamesConcat(vfio: bool, a: seq<DirEntry>, b: seq<DirEntry>)
    ensures DeviceNames(vfio, a + b) == DeviceNames(vfio, a) + DeviceNames(vfio, b)
  {
    if b == [] {
      assert a + b == a;
    } else {
      assert (a + b)[..|a + b| - 1] == a + b[..|b| - 1];
      DeviceNamesConcat(vfio, a, b[..|b| - 1]);
    }
  }

  /** Each device has an index below the count, and no two share one. */
  predicate IsBijection(devices: map<string, nat>, n: nat) {
    && |devices| == n
    && (forall d :: d in devices ==> devices[d] < n)
    && (forall d, e :: d in devices && e in devices && d != e ==> devices[d] != devices[e])
  }

  /** The map and the counter once the first `k` entries have been looked at. */
  ghost predicate Enumerated(vfio: bool, files: seq<DirEntry>, k: nat, devices: map<string, nat>, n: nat)
    requires k <= |files|
  {
    var names := DeviceNames(vfio, files[..k]);
    && n == |names| && IsBijection(devices, n) && (forall d :: d in devices <==> d in names)
    && forall i :: 0 <= i < n ==> devices[names[i]] == i
  }

  lemma BijectionExtends(devices: map<string, nat>, n: nat, d: string)
    requires IsBijection(devices, n) && d !in devices
    ensures IsBijection(devices[d := n], n + 1)
  {
    assert devices[d := n].Keys == devices.Keys + {d};
    assert |devices[d := n]| == |devices[d := n].Keys| && |devices| == |devices.Keys|;
  }

  lemma EnumerateStep(vfio: bool, files: seq<DirEntry>, k: nat, devices: map<string, nat>, n: nat)
    requires UniqueNames(files) && k < |files| && Enumerated(vfio, files, k, devices, n)
    ensures if IsDevice(vfio, files[k]) then Enumerated(vfio, files, k + 1, devices[files[k].name := n], n + 1)
            else Enumerated(vfio, files, k + 1, devices, n)
  {
    hide IsBijection;
    var names, name := DeviceNames(vfio, files[..k]), files[k].name;
    assert files[..k + 1][..k] == files[..k];
    if IsDevice(vfio, files[k]) {
      assert DeviceNames(vfio, files[..k + 1]) == names + [name];
      DeviceNamesOf(vfio, files[..k], name);
      assert name !in names;
      BijectionExtends(devices, n, name);
      hide DeviceNames, UniqueNames;
      assert forall d :: d in names + [name] <==> d in names || d == name;
    }
  }

  /**
   enumerateAllPossibleTpuDevices: it succeeds exactly when the listing shows as many devices as the node has
   chips; the map then holds exactly the listed devices, with indices a bijection onto 0..n-1.
   */
  method Enumerate(files: seq<DirEntry>, vfio: bool, chipCount: int) returns (r: Option<map<string, nat>>)
    requires UniqueNames(files)
    ensures r.Some? <==> |DeviceNames(vfio, files)| == chipCount
    ensures r.Some? ==> r.value.Keys == (set d | d in DeviceNames(vfio, files))
    ensures r.Some? ==> IsBijection(r.value, |r.value|) && |r.value| == chipCount
    ensures r.Some? ==> forall i :: 0 <= i < chipCount ==>
                          DeviceNames(vfio, files)[i] in r.value && r.value[DeviceNames(vfio, files)[i]] == i
  {
    var devices: map<string, nat> := map[];
    var n := 0;
    hide DeviceNames, UniqueNames, IsBijection;
    NothingEnumerated(vfio, files);
    for k := 0 to |files|
      invariant Enumerated(vfio, files, k, devices, n)
    {
      EnumerateStep(vfio, files, k, devices, n);
      if files[k].isDir {
        continue;
      }
      if IsDeviceName(vfio, files[k].name) {
        devices := devices[files[k].name := n];
        n := n + 1;
      }
    }
    assert files[..|files|] == files;
    BijectionCounts(devices, n);
    if n != chipCount {
      return None;
    }
    r := Some(devices);
  }

  lemma NothingEnumerated(vfio: bool, files: seq<DirEntry>)
    ensures Enumerated(vfio, files, 0, map[], 0)
  {
  }

  lemma BijectionCounts(devices: map<string, nat>, n: nat)
    requires IsBijection(devices, n)
    ensures |devices| == n
  {
  }

  lemma NamesArePlain(vfio: bool, name: string)
    requires IsDeviceName(vfio, name)
    ensures ClaimIds.DashFree(name) && Cdi.ValidEnding(name)
  {
    if !vfio {
      assert name == "accel" + name[5..];
    }
    assert name[|name| - 1] in name;
    forall k | 0 <= k < |name| ensures Cdi.IsAlphaNumeric(name[k]) {
      assert name[k] in if vfio || k < 5 then name else name[5..];
    }
  }

  /**
   What enumeration returns is what the claim machine asks of a node; its names hold no dash, so the ids of all
   claims resolve, and the CDI library accepts them.
   */
  lemma EnumeratedNodeIsValid(files: seq<DirEntry>, vfio: bool, devices: map<string, nat>, chipCount: int,
                              devDirectory: string, tpuGen: string, sharing: bool, env: seq<string>)
    requires devices.Keys == (set d | d in DeviceNames(vfio, files))
    requires IsBijection(devices, |devices|) && |devices| == chipCount && chipCount > 0
    ensures ClaimMachine.ValidNode(ClaimMachine.Node(chipCount, devices.Keys, devDirectory, tpuGen, sharing, env))
    ensures forall d :: d in devices ==> ClaimIds.DashFree(d) && Cdi.ValidEnding(d)
  {
    assert |devices.Keys| == |devices|;
    forall d | d in devices ensures ClaimIds.DashFree(d) && Cdi.ValidEnding(d) {
      DeviceNamesOf(vfio, files, d);
      NamesArePlain(vfio, d);
    }
  }

  // ----- hash

  const TWO_64: int := 0x1_0000_0000_0000_0000

  /** The int64 that an integer wraps to. */
  function Wrap(x: int): (w: int)
    ensures -TWO_64 / 2 <= w < TWO_64 / 2
  {
    var m := x % TWO_64;
    if m >= TWO_64 / 2 then m - TWO_64 else m
  }

  /** The base-31 polynomial of a string, without wrapping. */
  function Poly(s: string): nat {
    if s == [] then 0 else 31 * Poly(s[..|s| - 1]) + s[|s| - 1] as int
  }

  function Pow31(n: nat): nat {
    if n == 0 then 1 else 31 * Pow31(n - 1)
  }

  /** Numbers that differ by a multiple of 2^64 wrap alike, and only those. */
  lemma WrapCongruent(x: int, y: int)
    ensures Wrap(x) == Wrap(y) <==> (x - y) % TWO_64 == 0
  {
    var p, q := x / TWO_64, y / TWO_64;
    var a, b := x % TWO_64, y % TWO_64;
    assert x == TWO_64 * p + a && y == TWO_64 * q + b;
    assert x - y == TWO_64 * (p - q) + (a - b);
  }

  lemma WrapStep(x: int, c: int)
    ensures Wrap(31 * Wrap(x) + c) == Wrap(31 * x + c)
  {
    var k := (x - Wrap(x)) / TWO_64;
    assert x - Wrap(x) == TWO_64 * k;
    assert 31 * x + c - (31 * Wrap(x) + c) == TWO_64 * (31 * k);
    WrapCongruent(31 * x + c, 31 * Wrap(x) + c);
  }

  /** hash: a loop of wrapping int64 operations that computes the polynomial modulo 2^64. */
  method Hash(s: string) returns (h: int)
    ensures h == Wrap(Poly(s))
  {
    h := 0;
    for k := 0 to |s|
      invariant h == Wrap(Poly(s[..k]))
    {
      assert s[..k + 1][..k] == s[..k];
      WrapStep(Poly(s[..k]), s[k] as int);
      h := Wrap(31 * h + s[k] as int);
    }
    assert s[..|s|] == s;
  }

  lemma Regroup(x: int, y: int, z: int, c: int)
    ensures 31 * (x * y + z) + c == x * (31 * y) + (31 * z + c)
  {
    assert 31 * (x * y) == x * (31 * y);
  }

  lemma {:induction false} PolyConcat(a: string, b: string)
    ensures Poly(a + b) == Poly(a) * Pow31(|b|) + Poly(b)
  {
    if b == [] {
      assert a + b == a;
    } else {
      var init := b[..|b| - 1];
      assert (a + b)[..|a + b| - 1] == a + init;
      PolyConcat(a, init);
      Regroup(Poly(a), Pow31(|init|), Poly(init), b[|b| - 1] as int);
    }
  }

  /** What is hashed: characters weigh their codes, each 31 times less than the one before; and how it wraps. */
  lemma HashMeans(a: string, c: char, x: int)
    ensures Poly("") == 0 && Poly([c]) == c as int && Poly(a + [c]) == 31 * Poly(a) + c as int
    ensures -9223372036854775808 <= Wrap(x) <= 9223372036854775807 && (x - Wrap(x)) % 18446744073709551616 == 0
  {
    assert [c][..0] == "";
    assert (a + [c])[..|a|] == a;
    var k := WrapQuotient(x);
    assert x - Wrap(x) == 18446744073709551616 * k;
  }

  /** hash(a+b) is hash(a)·31^|b| + hash(b), wrapped. */
  lemma HashConcat(a: string, b: string)
    ensures Wrap(Poly(a + b)) == Wrap(Wrap(Poly(a)) * Pow31(|b|) + Wrap(Poly(b)))
  {
    PolyConcat(a, b);
    WrapAffine(Poly(a), Poly(b), Pow31(|b|));
  }

  lemma WrapQuotient(x: int) returns (k: int)
    ensures x == Wrap(x) + TWO_64 * k
  {
    k := (x - Wrap(x)) / TWO_64;
  }

  lemma WrapShift(x: int, t: int)
    ensures Wrap(x + TWO_64 * t) == Wrap(x)
  {
    WrapCongruent(x + TWO_64 * t, x);
  }

  lemma WrapAffine(x: int, y: int, p: int)
    ensures Wrap(x * p + y) == Wrap(Wrap(x) * p + Wrap(y))
  {
    var k := WrapQuotient(x);
    var j := WrapQuotient(y);
    hide Wrap;
    Expand(Wrap(x), Wrap(y), k, j, p, TWO_64);
    WrapShift(Wrap(x) * p + Wrap(y), k * p + j);
  }

  lemma Expand(x: int, y: int, k: int, j: int, p: int, m: int)
    ensures (x + m * k) * p + (y + m * j) - (x * p + y) == m * (k * p + j)
  {
    assert (x + m * k) * p == x * p + m * k * p;
    assert m * k * p == m * (k * p);
  }

  /** Digit strings of one length have polynomials close together, and equal only if they are equal. */
  lemma {:induction false} DigitPolysDiffer(d1: string, d2: string)
    requires |d1| == |d2| && AllDigits(d1) && AllDigits(d2)
    ensures 10 * (Poly(d1) - Poly(d2)) <= 3 * (Pow31(|d1|) - 1) && 10 * (Poly(d2) - Poly(d1)) <= 3 * (Pow31(|d1|) - 1)
    ensures Poly(d1) == Poly(d2) ==> d1 == d2
  {
    if d1 != [] {
      var i1, i2 := d1[..|d1| - 1], d2[..|d2| - 1];
      var c1, c2 := d1[|d1| - 1], d2[|d2| - 1];
      assert d1 == i1 + [c1] && d2 == i2 + [c2];
      assert c1 in d1 && c2 in d2;
      DigitPolysDiffer(i1, i2);
    }
  }

  lemma Pow31Of13()
    ensures Pow31(13) == 24417546297445042591
  {
    assert Pow31(4) == 923521;
    assert Pow31(8) == 31 * 31 * 31 * 31 * Pow31(4);
    assert Pow31(12) == 31 * 31 * 31 * 31 * Pow31(8);
  }

  lemma {:induction false} Pow31Grows(m: nat, n: nat)
    requires m <= n
    ensures Pow31(m) <= Pow31(n)
  {
    if m < n {
      Pow31Grows(m, n - 1);
    }
  }

  lemma CommonPrefix(seed: string, d1: string, d2: string)
    requires |d1| == |d2|
    ensures Poly(seed + d1) - Poly(seed + d2) == Poly(d1) - Poly(d2)
  {
    PolyConcat(seed, d1);
    PolyConcat(seed, d2);
  }

  /**
   Device names of one length that differ only in at most thirteen trailing digits get different hashes on one
   node.
   */
  lemma HashTellsDevicesApart(seed: string, d1: string, d2: string)
    requires |d1| == |d2| <= 13 && AllDigits(d1) && AllDigits(d2)
    ensures Wrap(Poly(seed + d1)) == Wrap(Poly(seed + d2)) <==> d1 == d2
  {
    CommonPrefix(seed, d1, d2);
    DigitPolysDiffer(d1, d2);
    hide Poly, Pow31;
    Pow31Grows(|d1|, 13);
    Pow31Of13();
    WrapCongruent(Poly(seed + d1), Poly(seed + d2));
    var diff := Poly(d1) - Poly(d2);
    assert -TWO_64 < diff < TWO_64;
    assert diff % TWO_64 == 0 ==> diff == 0;
  }

  /** The restriction to digits matters: two letters can trade places with two others anywhere in a name. */
  lemma LettersCollide(before: string, after: string)
    ensures Wrap(Poly(before + "Aa" + after)) == Wrap(Poly(before + "BB" + after))
  {
    PolyConcat(before + "Aa", after);
    PolyConcat(before + "BB", after);
    PolyConcat(before, "Aa");
    PolyConcat(before, "BB");
    assert "Aa"[..1] == "A" && "BB"[..1] == "B" && "A"[..0] == "" && "B"[..0] == "";
  }
}
