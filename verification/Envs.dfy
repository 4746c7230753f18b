/**
 The environment a claim's containers get (InitEnvs in cmd/tpu-dra-kubeletplugin/util.go), as NewTPUManager
 asks for it: no sub-slice, no visible chips, no NUMA nodes.
 */
module Envs {
  import opened Wrappers
  import opened Text
  import opened Topology
  import opened Accelerator
  import opened EnvSpec

  // ----- wrap

  predicate WrapsEach(gen: string) {
    gen == "v5lite" || gen == "v5litepod" || gen == "v6e"
  }

  /** A fourth dimension of 16 would index past the three flags. */
  predicate FitsFlags(dims: seq<int64>) {
    forall i :: 3 <= i < |dims| ==> dims[i] != 16
  }

  /**
   wrap: from a cube on for v3, v4 and v5p, in each dimension of 16 for the others; it fails only for a
   generation AcceleratorGen never returns.
   */
  method Wrap(gen: string, dims: seq<int64>) returns (r: Option<string>)
    requires WrapsEach(gen) ==> FitsFlags(dims)
    ensures r.Some? <==> IsKnown(gen)
    ensures r.Some? ==> r.value == WrapText(WrapFlags(gen, dims))
    ensures r.Some? && |dims| == 3 ==>
              var cube := dims[0] >= 4 && dims[1] >= 4 && dims[2] >= 4;
              r.value == if gen in {"v3", "v4", "v4lite", "v5p"}
                         then if cube then "true,true,true" else "false,false,false"
                         else BoolText(dims[0] == 16) + "," + BoolText(dims[1] == 16) + "," + BoolText(dims[2] == 16)
  {
    if IsKnown(gen) && |dims| == 3 {
      WrapOf(gen, dims);
      CubeMeans(dims);
    }
    hide WrapText, CubeOrLarger, BoolText;
    if WrapsWhole(gen) {
      var text := WrapVersion(dims);
      return Some(text);
    }
    if WrapsEach(gen) {
      var text := WrapLitePod(dims);
      return Some(text);
    }
    r := None;
  }

  method WrapVersion(dims: seq<int64>) returns (text: string)
    ensures var cube := CubeOrLarger(dims); text == WrapText([cube, cube, cube])
  {
    var cube := true;
    for i := 0 to |dims|
      invariant cube <==> CubeOrLarger(dims[..i])
    {
      if dims[i] < 4 {
        cube := false;
      }
    }
    assert dims[..|dims|] == dims;
    text := if cube then "true,true,true" else "false,false,false";
    var t := BoolText(cube);
    JoinThree(t, t, t);
    assert seq(3, i requires 0 <= i < 3 => BoolText([cube, cube, cube][i])) == [t, t, t];
  }

  method WrapLitePod(dims: seq<int64>) returns (text: string)
    requires FitsFlags(dims)
    ensures text == WrapText(seq(3, i => 0 <= i < |dims| && dims[i] == 16))
  {
    var val := ["false", "false", "false"];
    for i := 0 to |dims|
      invariant |val| == 3
      invariant forall k :: 0 <= k < 3 ==> val[k] == BoolText(k < i && dims[k] == 16)
    {
      if dims[i] == 16 {
        val := val[i := "true"];
      }
    }
    ghost var flags := seq(3, i => 0 <= i < |dims| && dims[i] == 16);
    assert val == seq(3, i requires 0 <= i < 3 => BoolText(flags[i]));
    text := Join(val, ',');
  }

  /** addPodsliceOrSliceEnvs, on the environment built so far. */
  method AddPodsliceEnvs(gen: string, ici: string, requested: int, dims: seq<int64>, envs: Env) returns (r: Option<Env>)
    ensures r.Some? <==> |dims| == 3 && Tray(requested).Some? && IsKnown(gen)
    ensures r.Some? ==> r.value == envs.(layout := Some(LayoutOf(gen, ici, requested, dims)))
    ensures r.Some? ==> DescribesSlice(gen, dims, requested, ici, r.value.layout.value)
  {
    if |dims| == 3 && Tray(requested).Some? && IsKnown(gen) {
      LayoutMeans(gen, dims, requested, ici);
    }
    hide DescribesSlice;
    hide WrapText, WrapFlags, PrintBounds, Join;
    var hostBounds := CalculateHostBounds(requested, dims);
    if hostBounds == None {
      return None;
    }
    var chips := ChipsPerHostBounds(requested);
    var wrap := Wrap(gen, dims);
    if wrap == None {
      return None;
    }
    var resiliency := None;
    if HasPrefix(gen, "v4") || HasPrefix(gen, "v5p") {
      if CubeOrLarger(dims) {
        resiliency := Some(true);
        if Lower(ici) == "false" {
          resiliency := Some(false);
        }
      }
    }
    r := Some(envs.(layout := Some(Layout(resiliency, wrap.value, hostBounds.value, chips.value))));
  }

  /** getChipsPerHostBounds: the tray of the chip count, printed. */
  method ChipsPerHostBounds(requested: int) returns (r: Option<string>)
    ensures r == if Tray(requested).Some? then Some(Join(PrintBounds(Tray(requested).value), ',')) else None
  {
    var tray := Tray(requested);
    if tray == None {
      return None;
    }
    var parts: seq<string> := [];
    for k := 0 to |tray.value|
      invariant |parts| == k
      invariant forall i :: 0 <= i < k ==> parts[i] == FormatInt(tray.value[i] as int)
    {
      parts := parts + [FormatInt(tray.value[k] as int)];
    }
    assert parts == PrintBounds(tray.value);
    r := Some(Join(parts, ','));
  }

  method NumCores(gen: string, dims: seq<int64>) returns (cores: Option<nat>)
    ensures cores.Some? <==> TotalChips(dims).Some?
    ensures cores.Some? ==> cores.value == CoresPerChip(gen) * Product(dims)
  {
    var totalChips := CalculateTotalChips(dims);
    if totalChips == None {
      return None;
    }
    ProductPositive(dims);
    var chips := totalChips.value as int;
    cores := Some(if Contains(gen, "lite") || Contains(gen, "v6e") then chips else chips * 2);
  }

  /**
   InitEnvs succeeds exactly for a listed accelerator whose topology, if it is given, has dimensions within the
   chip cap and, on a podslice, chips that fill a tray; then every variable is as described.
   */
  method InitEnvs(opts: Options) returns (r: Option<Env>)
    ensures r.Some? <==> Welcome(opts)
    ensures r.Some? ==> Described(opts, r.value)
    ensures r == if Accepts(opts) then Some(Environment(AcceleratorGen(opts.accelerator).value, opts)) else None
  {
    AcceptsMeans(opts);
    if Accepts(opts) {
      EnvironmentMeans(opts);
    }
    hide Welcome, Described;
    r := BuildEnvs(opts);
  }

  /** The steps of InitEnvs. */
  method BuildEnvs(opts: Options) returns (r: Option<Env>)
    ensures r == if Accepts(opts) then Some(Environment(AcceleratorGen(opts.accelerator).value, opts)) else None
  {
    var gen := AcceleratorGen(opts.accelerator);
    if gen == None {
      return None;
    }
    ValidGenerations(gen.value);
    var dims: seq<int64> := [];
    assert Product(dims) == 1;
    hide AcceleratorGen, ParseTopology, IsPodslice, Tray, IsKnown, Product, LayoutOf, Decimal, CoresPerChip;
    var envs := Env(None, None, None, None, false);
    if opts.topology != "" {
      var parsed := GetTopologyDims(opts.topology);
      if parsed == None {
        return None;
      }
      AcceptedPositive(opts.topology);
      dims := parsed.value;
      var cores := NumCores(gen.value, dims);
      if cores == None {
        return None;
      }
      envs := envs.(topology := Some(opts.topology), acceleratorType := Some(gen.value + "-" + Decimal(cores.value)));
    }
    if opts.nodeIp != "" {
      envs := envs.(controlUrl := Some(opts.nodeIp + ":8353"));
    }
    if IsPodslice(opts.accelerator) && opts.topology != "" {
      var added := AddPodsliceEnvs(gen.value, opts.iciResiliency, opts.requested, dims, envs);
      if added == None {
        return None;
      }
      envs := added.value;
    }
    var totalChips := CalculateTotalChips(dims);
    if totalChips == None {
      return None;
    }
    if opts.chipCount == totalChips.value as int {
      envs := envs.(singleHost := true);
    }
    r := Some(envs);
  }

  // ----- two answers to "single host"

  datatype Labels = Labels(accelerator: string, chipCount: string, topology: string)

  /** isSingleHostNode, which decides whether the chips may be shared. */
  function IsSingleHostNode(labels: Labels): bool {
    if !IsPodslice(labels.accelerator) then true
    else if labels.topology == "" then false
    else if ParseTopology(labels.topology).None? then false
    else if ChipCount(labels.chipCount).None? then false
    else IsSingleHost(ChipCount(labels.chipCount).value, ParseTopology(labels.topology).value) == Some(true)
  }

  /**
   NewTPUManager, as far as its environment goes: when it gives one and every variable of it, from the labels, the
   resiliency label and the node's address. The worker id says "single host" exactly when isSingleHostNode does,
   except in two families: a podslice of one chip with no topology, and any other device that gets no worker id.
   */
  method NewTpuManager(labels: Labels, ici: string, nodeIp: string) returns (envs: Option<Env>)
    ensures envs.Some? <==> exists n ::
                              && Atoi(labels.chipCount) == Some(n) && n > 0
                              && Welcome(Options(labels.accelerator, labels.topology, n, n, ici, nodeIp))
    ensures envs.Some? ==> forall n :: Atoi(labels.chipCount) == Some(n) ==>
                             Described(Options(labels.accelerator, labels.topology, n, n, ici, nodeIp), envs.value)
    ensures envs.Some? ==>
              (envs.value.singleHost == IsSingleHostNode(labels) <==>
               if EndsInSlice(labels.accelerator) then labels.topology != "" || Atoi(labels.chipCount) != Some(1)
               else envs.value.singleHost)
  {
    hide Described, Welcome;
    var chipCount := ChipCount(labels.chipCount);
    if chipCount == None {
      return None;
    }
    envs := InitEnvs(Options(labels.accelerator, labels.topology, chipCount.value, chipCount.value, ici, nodeIp));
    if envs != None && labels.topology != "" {
      AcceptedPositive(labels.topology);
    }
  }

  /**
   A node is single-host if and only if it is no podslice, or its labels give a chip count and dimensions within
   the cap that multiply to it; labels that are missing or cannot be read make a podslice multi-host.
   */
  lemma SingleHostNodeMeans(labels: Labels)
    ensures IsSingleHostNode(labels) <==>
            || !EndsInSlice(labels.accelerator)
            || (exists dims :: Dimensions(labels.topology, dims) && 0 < Chips(dims) <= 1048576
                               && Atoi(labels.chipCount) == Some(Chips(dims)))
  {
    var parsed := ParseTopology(labels.topology);
    forall dims ensures Dimensions(labels.topology, dims) <==> parsed == Some(dims) {
      ParseMeans(labels.topology, dims);
    }
    if parsed.Some? {
      AcceptedPositive(labels.topology);
      Product3(parsed.value);
      ProductPositive(parsed.value);
    }
    NoTopology();
    hide Dimensions, ParseTopology, Atoi, Product;
  }

  lemma NoTopology()
    ensures ParseTopology("") == None
  {
    assert Split("", 'x') == [""];
  }

  /**
   completeLabelsFromHardware: labels win over what the host shows. A topology it infers describes one host, so
   it makes a podslice single-host exactly when the chip count the node ends up with is the one observed.
   */
  method CompleteLabelsFromHardware(labels: Labels, observed: nat) returns (completed: Labels)
    ensures completed.accelerator == labels.accelerator
    ensures completed.chipCount == if labels.chipCount == "" then Decimal(observed) else labels.chipCount
    ensures completed.topology == if labels.topology != "" then labels.topology
                                  else if observed == 1 then "1x1" else if observed == 2 then "1x2"
                                  else if observed == 4 then "2x2" else if observed == 8 then "2x4" else ""
    ensures labels.topology == "" && Tray(observed).Some? ==>
              && ParseTopology(completed.topology) == Tray(observed)
              && (IsSingleHostNode(completed) <==>
                  !IsPodslice(labels.accelerator) || ChipCount(completed.chipCount) == Some(observed))
  {
    completed := labels;
    if completed.chipCount == "" {
      completed := completed.(chipCount := Decimal(observed));
    }
    if completed.topology == "" {
      var topology := SingleHostTopology(observed);
      if topology != "" {
        completed := completed.(topology := topology);
      }
    }
  }
}
