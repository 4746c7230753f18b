/**
 What the environment of a claim's containers is to be, twice: as InitEnvs in cmd/tpu-dra-kubeletplugin/util.go
 puts it together, and variable by variable in terms of the options alone.
 */
module EnvSpec {
  import opened Wrappers
  import opened Text
  import opened Topology
  import opened Accelerator

  /**
   The variables InitEnvs sets, grouped as it sets them; TPU_SKIP_MDS_QUERY and, on a podslice, ALT are constants.
   - controlUrl: VBAR_CONTROL_SERVICE_URL;
   - topology, acceleratorType: TPU_TOPOLOGY and TPU_ACCELERATOR_TYPE;
   - layout: what addPodsliceOrSliceEnvs adds;
   - singleHost: TPU_WORKER_ID=0 and TPU_WORKER_HOSTNAMES=localhost are set.
   */
  datatype Env = Env(controlUrl: Option<string>, topology: Option<string>, acceleratorType: Option<string>,
                     layout: Option<Layout>, singleHost: bool)

  /** ENABLE_ICI_RESILIENCY, (TPU_TOPOLOGY_)WRAP, (TPU_)HOST_BOUNDS and (TPU_)CHIPS_PER_HOST_BOUNDS. */
  datatype Layout = Layout(iciResiliency: Option<bool>, wrap: string, hostBounds: string, chipsPerHostBounds: string)

  /** The options InitEnvs is called with, as far as NewTPUManager sets them, and the address in $NODE_IP. */
  datatype Options = Options(accelerator: string, topology: string, chipCount: int, requested: int,
                             iciResiliency: string, nodeIp: string)

  predicate IsPodslice(accelerator: string) {
    HasSuffix(accelerator, "slice")
  }

  function ChipCount(count: string): Option<int> {
    var n := Atoi(count);
    if n.Some? && n.value > 0 then n else None
  }

  // ----- as it is put together

  predicate CubeOrLarger(dims: seq<int64>) {
    forall i :: 0 <= i < |dims| ==> dims[i] >= 4
  }

  /** v3, v4 and v5p wrap around every dimension or none. */
  predicate WrapsWhole(gen: string) {
    gen == "v3" || gen == "v4" || gen == "v4lite" || gen == "v5p"
  }

  /** In which dimensions the interconnect wraps around. */
  function WrapFlags(gen: string, dims: seq<int64>): seq<bool> {
    if WrapsWhole(gen) then [CubeOrLarger(dims), CubeOrLarger(dims), CubeOrLarger(dims)]
    else seq(3, i => 0 <= i < |dims| && dims[i] == 16)
  }

  function BoolText(b: bool): string {
    if b then "true" else "false"
  }

  function WrapText(flags: seq<bool>): string {
    Join(seq(|flags|, i requires 0 <= i < |flags| => BoolText(flags[i])), ',')
  }

  lemma JoinThree(a: string, b: string, c: string)
    ensures Join([a, b, c], ',') == a + "," + b + "," + c
  {
    assert [a, b, c][1..] == [b, c] && [b, c][1..] == [c];
    assert Join([b, c], ',') == b + [','] + c;
    assert Join([a, b, c], ',') == a + [','] + (b + [','] + c);
  }

  /** One core per chip for the lite generations and v6e, two for the others. */
  function CoresPerChip(gen: string): int {
    if Contains(gen, "lite") || Contains(gen, "v6e") then 1 else 2
  }

  /** When InitEnvs succeeds. */
  predicate Accepts(opts: Options) {
    && AcceleratorGen(opts.accelerator).Some?
    && (opts.topology != "" ==>
          && ParseTopology(opts.topology).Some?
          && Product(ParseTopology(opts.topology).value) <= MAX_TOTAL_CHIPS as int
          && (IsPodslice(opts.accelerator) ==> Tray(opts.requested).Some?))
  }

  /** ICI resiliency is on for v4 and v5p topologies from a cube on, unless a label turns it off. */
  function Resiliency(gen: string, ici: string, dims: seq<int64>): Option<bool> {
    if (HasPrefix(gen, "v4") || HasPrefix(gen, "v5p")) && CubeOrLarger(dims) then Some(Lower(ici) != "false") else None
  }

  /** The layout of a podslice. */
  function LayoutOf(gen: string, ici: string, requested: int, dims: seq<int64>): Layout
    requires |dims| == 3 && Tray(requested).Some?
  {
    Layout(Resiliency(gen, ici, dims), WrapText(WrapFlags(gen, dims)),
           Join(PrintBounds(HostBounds(requested, dims).value), ','), Join(PrintBounds(Tray(requested).value), ','))
  }

  /** The `<generation>-<cores>` type. */
  function AcceleratorType(gen: string, totalChips: nat): string {
    gen + "-" + Decimal(CoresPerChip(gen) * totalChips)
  }

  lemma AcceptedPositive(topology: string)
    requires ParseTopology(topology).Some?
    ensures AllPositive(ParseTopology(topology).value) && |ParseTopology(topology).value| == 3
  {
    ParseThenPrint(topology);
  }

  /** Everything InitEnvs sets. */
  function Environment(gen: string, opts: Options): Env
    requires opts.topology != "" ==>
               ParseTopology(opts.topology).Some? && (IsPodslice(opts.accelerator) ==> Tray(opts.requested).Some?)
  {
    var url := if opts.nodeIp != "" then Some(opts.nodeIp + ":8353") else None;
    if opts.topology == "" then Env(url, None, None, None, opts.chipCount == 1) else
    AcceptedPositive(opts.topology);
    var dims := ParseTopology(opts.topology).value;
    ProductPositive(dims);
    var layout := if IsPodslice(opts.accelerator)
                  then Some(LayoutOf(gen, opts.iciResiliency, opts.requested, dims)) else None;
    Env(url, Some(opts.topology), Some(AcceleratorType(gen, Product(dims))), layout, opts.chipCount == Product(dims))
  }

  // ----- variable by variable

  predicate EndsInSlice(accelerator: string) {
    |accelerator| >= 5 && accelerator[|accelerator| - 5..] == "slice"
  }

  predicate SameButCase(s: string, lower: string) {
    && |s| == |lower|
    && forall k :: 0 <= k < |s| ==> s[k] == lower[k] || ('A' <= s[k] <= 'Z' && s[k] as int + 32 == lower[k] as int)
  }

  function Chips(dims: seq<int64>): int
    requires |dims| == 3
  {
    dims[0] as int * dims[1] as int * dims[2] as int
  }

  /** When InitEnvs succeeds. */
  ghost predicate Welcome(opts: Options) {
    && (exists gen :: Listed(opts.accelerator, gen))
    && (opts.topology != "" ==>
          && (exists dims :: Dimensions(opts.topology, dims) && Chips(dims) <= 1048576)
          && (EndsInSlice(opts.accelerator) ==> opts.requested in {1, 2, 4, 8}))
  }

  /** The variables of a podslice with these dimensions. */
  ghost predicate DescribesSlice(gen: string, dims: seq<int64>, requested: int, ici: string, layout: Layout)
    requires |dims| == 3
  {
    var cube := dims[0] >= 4 && dims[1] >= 4 && dims[2] >= 4;
    && layout.iciResiliency == (if gen in {"v4", "v4lite", "v5p"} && cube then Some(!SameButCase(ici, "false"))
                                else None)
    && layout.wrap == (if gen in {"v3", "v4", "v4lite", "v5p"}
                       then if cube then "true,true,true" else "false,false,false"
                       else (if dims[0] == 16 then "true" else "false") + ","
                            + (if dims[1] == 16 then "true" else "false") + ","
                            + (if dims[2] == 16 then "true" else "false"))
    && BoundsText(requested, dims, layout.hostBounds)
    && layout.chipsPerHostBounds == (if requested == 1 then "1,1,1" else if requested == 2 then "1,2,1"
                                     else if requested == 4 then "2,2,1" else "2,4,1")
  }

  /** The environment for this generation and, if there is a topology, these dimensions. */
  ghost predicate Describes(opts: Options, gen: string, dims: seq<int64>, envs: Env)
    requires opts.topology != "" ==> |dims| == 3
  {
    && envs.controlUrl == (if opts.nodeIp != "" then Some(opts.nodeIp + ":8353") else None)
    && (opts.topology == "" ==> envs == Env(envs.controlUrl, None, None, None, opts.chipCount == 1))
    && (opts.topology != "" ==>
          && envs.topology == Some(opts.topology)
          && envs.acceleratorType
             == Some(gen + "-" + FormatInt(if gen in {"v4lite", "v5lite", "v5litepod", "v6e"} then Chips(dims)
                                           else 2 * Chips(dims)))
          && envs.singleHost == (opts.chipCount == Chips(dims))
          && (envs.layout.Some? <==> EndsInSlice(opts.accelerator))
          && (envs.layout.Some? ==> DescribesSlice(gen, dims, opts.requested, opts.iciResiliency, envs.layout.value)))
  }

  /** The environment is as described, for the generation listed and the dimensions written in the options. */
  ghost predicate Described(opts: Options, envs: Env) {
    forall gen, dims :: Listed(opts.accelerator, gen) && (opts.topology != "" ==> Dimensions(opts.topology, dims)) ==>
                          Describes(opts, gen, dims, envs)
  }

  lemma CoresMeans(gen: string)
    requires IsKnown(gen)
    ensures CoresPerChip(gen) == if gen in {"v4lite", "v5lite", "v5litepod", "v6e"} then 1 else 2
  {
    if gen in {"v4lite", "v5lite", "v5litepod"} {
      assert gen == gen[..2] + "lite" + gen[6..];
      ContainsPiece(gen[..2], "lite", gen[6..]);
    } else if gen == "v6e" {
      assert gen == "" + "v6e" + "";
      ContainsPiece("", "v6e", "");
    } else {
      LacksChar(gen, "lite", 'l');
      LacksChar(gen, "v6e", '6');
    }
  }

  lemma LowerMeans(ici: string)
    ensures Lower(ici) == "false" <==> SameButCase(ici, "false")
  {
    if SameButCase(ici, "false") {
      assert forall k :: 0 <= k < 5 ==> Lower(ici)[k] == "false"[k];
    } else if |ici| == 5 {
      assert forall k :: 0 <= k < 5 ==> Lower(ici)[k] == LowerChar(ici[k]);
    }
  }

  lemma WrapMeans(flags: seq<bool>)
    requires |flags| == 3
    ensures WrapText(flags) == BoolText(flags[0]) + "," + BoolText(flags[1]) + "," + BoolText(flags[2])
  {
    JoinThree(BoolText(flags[0]), BoolText(flags[1]), BoolText(flags[2]));
    assert seq(3, i requires 0 <= i < 3 => BoolText(flags[i]))
        == [BoolText(flags[0]), BoolText(flags[1]), BoolText(flags[2])];
  }

  lemma TrayPrinted(chipCount: int)
    requires Tray(chipCount).Some?
    ensures Join(PrintBounds(Tray(chipCount).value), ',')
            == if chipCount == 1 then "1,1,1" else if chipCount == 2 then "1,2,1"
               else if chipCount == 4 then "2,2,1" else "2,4,1"
  {
    var tray := Tray(chipCount).value;
    var a, b, c := [DigitChar(tray[0] as nat)], [DigitChar(tray[1] as nat)], [DigitChar(tray[2] as nat)];
    assert PrintBounds(tray) == [a, b, c];
    JoinThree(a, b, c);
  }

  lemma LayoutMeans(gen: string, dims: seq<int64>, chipCount: int, ici: string)
    requires IsKnown(gen) && |dims| == 3 && Tray(chipCount).Some?
    ensures DescribesSlice(gen, dims, chipCount, ici, LayoutOf(gen, ici, chipCount, dims))
  {
    LowerMeans(ici);
    WrapOf(gen, dims);
    BoundsReadBack(chipCount, dims);
    TrayPrinted(chipCount);
    ResiliencyMeans(gen, ici, dims);
    CubeMeans(dims);
    TrayMeans(chipCount);
    hide BoundsText, Join, PrintBounds, HostBounds, SameButCase, Lower, WrapText, WrapFlags, Resiliency, CubeOrLarger;
    hide Tray, IsKnown;
  }

  lemma CubeMeans(dims: seq<int64>)
    requires |dims| == 3
    ensures CubeOrLarger(dims) <==> dims[0] >= 4 && dims[1] >= 4 && dims[2] >= 4
  {
  }

  lemma WrapOf(gen: string, dims: seq<int64>)
    requires IsKnown(gen) && |dims| == 3
    ensures WrapText(WrapFlags(gen, dims))
            == if gen in {"v3", "v4", "v4lite", "v5p"}
               then if CubeOrLarger(dims) then "true,true,true" else "false,false,false"
               else BoolText(dims[0] == 16) + "," + BoolText(dims[1] == 16) + "," + BoolText(dims[2] == 16)
  {
    var cube := CubeOrLarger(dims);
    WrapMeans(WrapFlags(gen, dims));
    AllAlike(cube);
    hide WrapText, CubeOrLarger, BoolText;
    if gen in {"v3", "v4", "v4lite", "v5p"} {
      assert WrapFlags(gen, dims) == [cube, cube, cube];
    } else {
      assert WrapFlags(gen, dims) == [dims[0] == 16, dims[1] == 16, dims[2] == 16];
    }
  }

  lemma AllAlike(b: bool)
    ensures BoolText(b) + "," + BoolText(b) + "," + BoolText(b) == if b then "true,true,true" else "false,false,false"
  {
    if b {
      assert "true" + "," + "true" + "," + "true" == "true,true,true";
    } else {
      assert "false" + "," + "false" + "," + "false" == "false,false,false";
    }
  }

  lemma ResiliencyMeans(gen: string, ici: string, dims: seq<int64>)
    requires IsKnown(gen)
    ensures Resiliency(gen, ici, dims)
            == if gen in {"v4", "v4lite", "v5p"} && CubeOrLarger(dims) then Some(Lower(ici) != "false") else None
  {
    if gen in {"v4", "v4lite", "v5p"} {
      assert gen[..2] == "v4" || gen == "v5p";
    } else {
      assert |gen| < 3 || gen[2] != 'p';
      assert gen[1] != '4';
    }
  }

  lemma EnvironmentDescribes(opts: Options, gen: string, dims: seq<int64>)
    requires IsKnown(gen)
    requires opts.topology != "" ==>
               && ParseTopology(opts.topology) == Some(dims)
               && (IsPodslice(opts.accelerator) ==> Tray(opts.requested).Some?)
    ensures opts.topology != "" ==> |dims| == 3
    ensures Describes(opts, gen, dims, Environment(gen, opts))
  {
    CoresMeans(gen);
    if opts.topology != "" {
      AcceptedPositive(opts.topology);
      Product3(dims);
      ProductPositive(dims);
      if IsPodslice(opts.accelerator) {
        LayoutMeans(gen, dims, opts.requested, opts.iciResiliency);
      }
    }
    hide DescribesSlice, LayoutOf, CoresPerChip, ParseTopology, Atoi, Decimal, Tray, Product, IsKnown;
  }

  /** The environment InitEnvs puts together is the one described. */
  lemma EnvironmentMeans(opts: Options)
    requires Accepts(opts)
    ensures Described(opts, Environment(AcceleratorGen(opts.accelerator).value, opts))
  {
    var envs := Environment(AcceleratorGen(opts.accelerator).value, opts);
    forall gen, dims | Listed(opts.accelerator, gen) && (opts.topology != "" ==> Dimensions(opts.topology, dims))
      ensures Describes(opts, gen, dims, envs)
    {
      GenerationListed(opts.accelerator);
      ValidGenerations(gen);
      ParseMeans(opts.topology, dims);
      hide Describes, Listed, Environment, ParseTopology, Dimensions, Tray;
      EnvironmentDescribes(opts, gen, dims);
    }
  }

  /** InitEnvs accepts exactly the options it should. */
  lemma AcceptsMeans(opts: Options)
    ensures Accepts(opts) <==> Welcome(opts)
  {
    GenerationListed(opts.accelerator);
    TrayMeans(opts.requested);
    WithinCap(opts.topology);
    hide Dimensions, ParseTopology, Listed, AcceleratorGen, Tray, Product;
  }

  lemma WithinCap(topology: string)
    ensures (exists dims :: Dimensions(topology, dims) && Chips(dims) <= 1048576)
            <==> ParseTopology(topology).Some? && Product(ParseTopology(topology).value) <= MAX_TOTAL_CHIPS as int
  {
    var parsed := ParseTopology(topology);
    if parsed.Some? {
      AcceptedPositive(topology);
      Product3(parsed.value);
      ParseMeans(topology, parsed.value);
    }
    forall dims | Dimensions(topology, dims) ensures parsed == Some(dims) {
      ParseMeans(topology, dims);
    }
    hide Dimensions, ParseTopology, Product;
  }

  lemma GenerationListed(accelerator: string)
    ensures AcceleratorGen(accelerator).Some? <==> exists gen :: Listed(accelerator, gen)
    ensures forall gen :: Listed(accelerator, gen) <==> AcceleratorGen(accelerator) == Some(gen)
  {
    forall gen ensures Listed(accelerator, gen) <==> AcceleratorGen(accelerator) == Some(gen) {
      AcceptedLabels(accelerator, gen);
    }
  }
}
