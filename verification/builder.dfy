/** The graph builder (`create_modules`, easydet/model/module/layer.py):
    it walks the layer records in order, gives every record one module,
    keeps the running list of output channel counts, collects the layers
    whose outputs later layers read, numbers the detection heads and turns
    the collected indices into a boolean "routed" mask. */
module Builder {

  import opened Common
  import opened Records
  import opened Units

  /** The exceptions that stop a build. */
  datatype BuildError =
    | EmptyConfig              // the record list is empty: pop(0) fails
    | MissingChannels          // the first record carries no `channels`
    | UnboundFilters(layer: nat) // a layer reuses `filters` before any layer set it
    | FilterIndex(layer: nat)  // a route reference outside the channel-count list
    | AnchorIndex(layer: nat)  // a yolo mask entry outside the anchor table
    | NoLayers                 // no layer record follows the hyper-parameters
    | RoutIndex(ref: int)      // a routed index outside the mask

  /** The warnings a build reports and survives. */
  datatype Diagnostic =
    | UnrecognizedLayer(layer: nat, typeName: string)
    | BiasInitSkipped(layer: nat)

  /** The builder's loop variables after some number of layers: the module
      list, `output_filters`, `routs`, `yolo_index`, the last value given
      to `filters` (none before the first assignment) and the warnings. */
  datatype BuildState = BuildState(modules: seq<Module>, outputFilters: seq<int>,
                                   routs: seq<int>, yoloIndex: int,
                                   filters: Option<int>, diagnostics: seq<Diagnostic>)

  /** What a successful build returns: the module list and the routed mask,
      plus the warnings it reported. */
  datatype Built = Built(modules: seq<Module>, routs: seq<bool>, diagnostics: seq<Diagnostic>)

  function Initial(channels: int): BuildState {
    BuildState([], [channels], [], -1, None, [])
  }

  /** The units of a convolutional layer whose predecessor has `previous`
      output channels. */
  function ConvUnits(b: Block, previous: int): (r: seq<Unit>)
    requires b.Convolutional?
    ensures |r| == 1 + (if b.batchNormalize then 1 else 0) + (if ActivationFor(b.activation).Some? then 1 else 0)
    ensures r[0].Conv2d? && r[0].outChannels == b.filters && r[0].bias == !b.batchNormalize
    ensures r[0].inChannels == if b.inFeatures.Some? then b.inFeatures.value else previous
    ensures r[0].padding == if b.pad then (b.size - 1) / 2 else 0
    ensures forall j :: 1 <= j < |r| ==> !r[j].Conv2d?
    ensures b.batchNormalize ==> r[1] == BatchNorm2d(b.filters)
    ensures ActivationFor(b.activation).Some? ==> r[|r| - 1] == Act(ActivationFor(b.activation).value)
  {
    var conv := Conv2d(b.inFeatures.GetOr(previous), b.filters, b.size, b.strides,
                       if b.pad then (b.size - 1) / 2 else 0, b.convGroups.GetOr(1),
                       !b.batchNormalize);
    var norm := if b.batchNormalize then [BatchNorm2d(b.filters)] else [];
    var act := match ActivationFor(b.activation)
               case Some(a) => [Act(a)]
               case None => [];
    [conv] + norm + act
  }

  /** A max-pool layer; the kernel-2 stride-1 case pads one zero column and
      row on the right and bottom first. */
  function MaxPoolModule(size: int, stride: int): (r: Module)
    ensures r.Sequential? <==> size == 2 && stride == 1
    ensures r.Sequential? ==> r.units == [ZeroPad2d(0, 1, 0, 1), MaxPool2d(size, stride, (size - 1) / 2)]
    ensures r.Single? ==> r.unit == MaxPool2d(size, stride, (size - 1) / 2)
  {
    var pool := MaxPool2d(size, stride, (size - 1) / 2);
    if size == 2 && stride == 1 then Sequential([ZeroPad2d(0, 1, 0, 1), pool])
    else Single(pool)
  }

  function DenseUnits(bn: bool, fin: int, fout: int): seq<Unit> {
    [Linear(fin, fout, !bn)] + if bn then [BatchNorm2d(fout)] else []
  }

  /** The position of `output_filters` a route reference reads: one past
      a positive reference, the reference itself otherwise. */
  function RouteSlot(ref: int): int {
    if ref > 0 then ref + 1 else ref
  }

  /** A route's channel count: the sum of `output_filters[ref + 1]` for a
      positive reference and `output_filters[ref]` (Python indexing)
      otherwise; none when one of them is out of range. */
  function RouteFilters(outputFilters: seq<int>, refs: seq<int>): (r: Option<int>)
    ensures r.Some? <==> forall m :: 0 <= m < |refs| ==> PyIndex(|outputFilters|, RouteSlot(refs[m])).Some?
  {
    if refs == [] then Some(0)
    else
      match PyIndex(|outputFilters|, RouteSlot(refs[0]))
      case None => None
      case Some(j) =>
        match RouteFilters(outputFilters, refs[1..])
        case None => None
        case Some(s) => Some(outputFilters[j] + s)
  }

  /** The references of layer `i` made absolute. */
  function NormalizeAll(i: int, refs: seq<int>): (r: seq<int>)
    ensures |r| == |refs|
    ensures forall m :: 0 <= m < |refs| ==> r[m] == Normalize(i, refs[m])
  {
    seq(|refs|, m requires 0 <= m < |refs| => Normalize(i, refs[m]))
  }

  /** The anchor table rows a yolo record's mask selects (numpy indexing). */
  function SelectAnchors(anchors: seq<Anchor>, mask: seq<int>): (r: Option<seq<Anchor>>)
    ensures r.Some? <==> forall m :: m in mask ==> PyIndex(|anchors|, m).Some?
    ensures r.Some? ==> |r.value| == |mask|
    ensures r.Some? ==> forall m :: 0 <= m < |mask| ==> r.value[m] == anchors[PyIndex(|anchors|, mask[m]).value]
  {
    if mask == [] then Some([])
    else
      match PyIndex(|anchors|, mask[0])
      case None => None
      case Some(j) =>
        match SelectAnchors(anchors, mask[1..])
        case None => None
        case Some(rest) => Some([anchors[j]] + rest)
  }

  /** The module whose bias the yolo layer initialises: `from[yolo_index]`
      when the record has `from`, else the previous module (-1). */
  function BiasInitTarget(from: Option<seq<int>>, yoloIndex: int, modules: seq<Module>): Option<nat> {
    var j := match from
             case None => Some(-1)
             case Some(refs) =>
               match PyIndex(|refs|, yoloIndex)
               case None => None
               case Some(p) => Some(refs[p]);
    match j
    case None => None
    case Some(target) => PyIndex(|modules|, target)
  }

  /** The length of a unit's bias vector, when it has one. */
  function BiasLength(u: Unit): Option<int> {
    match u
    case Conv2d(_, out, _, _, _, _, bias) => if bias then Some(out) else None
    case Linear(_, out, bias) => if bias then Some(out) else None
    case BatchNorm2d(f) => Some(f)
    case _ => None
  }

  /** Where the bias initialisation block after a head raises, in the
      order its statements run; the builder catches it and prints a warning. */
  datatype BiasInitStop =
    | LogDomain        // `math.log` of a non-positive number: no classes
    | NoTarget         // `from[yolo_index]` or `module_list[j]` out of range
    | NotIndexable     // the target is not a non-empty container
    | NoBias           // its first unit has no bias vector
    | BadView          // the first `no * na` entries do not form `na` rows with an objectness column
    | LeafViewInPlace  // `bias[:, 4] += ...` updates a view of a parameter that requires grad

  /** The checks before the update itself: the first one that fails, if any. */
  function BiasInitChecks(cfg: HeadConfig, from: Option<seq<int>>, modules: seq<Module>): Option<BiasInitStop> {
    if cfg.nc < 1 then Some(LogDomain)
    else
      match BiasInitTarget(from, cfg.index, modules)
      case None => Some(NoTarget)
      case Some(j) =>
        if !modules[j].Sequential? || |modules[j].units| == 0 then Some(NotIndexable)
        else
          match BiasLength(modules[j].units[0])
          case None => Some(NoBias)
          case Some(len) =>
            var na := cfg.NumAnchors();
            var taken := if len < cfg.NumOutputs() * na then len else cfg.NumOutputs() * na;
            if na > 0 && taken % na == 0 && taken / na > 4 then None else Some(BadView)
  }

  /** The block as written: when every check passes, the in-place update
      of a view of the bias parameter is rejected by autograd (default
      grad mode), so the block always raises. */
  function BiasInitAsWritten(cfg: HeadConfig, from: Option<seq<int>>, modules: seq<Module>): BiasInitStop {
    BiasInitChecks(cfg, from, modules).GetOr(LeafViewInPlace)
  }

  /** Whether the bias initialisation, with its update made outside
      autograd as evidently intended, runs to the end. It does exactly when
      the block as written gets as far as the update. Otherwise the builder
      only reports a warning. */
  function BiasInitApplies(cfg: HeadConfig, from: Option<seq<int>>, modules: seq<Module>): (r: bool)
    ensures r <==> BiasInitAsWritten(cfg, from, modules) == LeafViewInPlace
  {
    BiasInitChecks(cfg, from, modules).None?
  }

  /** Appends a module and its channel count; a layer type that sets no
      `filters` reuses the variable's last value, which does not exist
      before the first layer that sets it. */
  function Register(st: BuildState, i: nat, m: Module, filters: Option<int>): Result<BuildState, BuildError> {
    match filters
    case None => Err(UnboundFilters(i))
    case Some(f) =>
      Ok(st.(modules := st.modules + [m], outputFilters := st.outputFilters + [f], filters := filters))
  }

  /** One iteration of the builder's loop, for layer `i`. */
  function Step(st: BuildState, i: nat, b: Block, imageSize: (int, int)): (r: Result<BuildState, BuildError>)
    requires st.outputFilters != []
    ensures r.Ok? ==> |r.value.modules| == |st.modules| + 1
    ensures r.Ok? ==> |r.value.outputFilters| == |st.outputFilters| + 1
    ensures r.Ok? ==> r.value.outputFilters[0] == st.outputFilters[0]
    ensures r.Ok? ==> r.value.filters == Some(Last(r.value.outputFilters))
  {
    match b
    case Convolutional(bn, _, f, _, _, _, _, _) =>
      Register(st.(routs := st.routs + (if bn then [] else [i])), i,
               Sequential(ConvUnits(b, Last(st.outputFilters))), Some(f))
    case MaxPool(size, stride) =>
      Register(st, i, MaxPoolModule(size, stride), st.filters)
    case AvgPool(size, stride) =>
      Register(st, i, Sequential([AvgPool2d(size, stride, (size - 1) / 2)]), st.filters)
    case SeModule(c) =>
      Register(st, i, Sequential([SqueezeExcite(c)]), st.filters)
    case Shuffle(g) =>
      Register(st, i, Sequential([ShuffleBlock(g)]), st.filters)
    case Dense(bn, fin, fout) =>
      Register(st, i, Sequential(DenseUnits(bn, fin, fout)), st.filters)
    case Upsample(s) =>
      Register(st, i, Single(Upsampler(s)), st.filters)
    case Route(layers) =>
      (match RouteFilters(st.outputFilters, layers)
       case None => Err(FilterIndex(i))
       case Some(f) =>
         Register(st.(routs := st.routs + NormalizeAll(i, layers)), i, Sequential([]), Some(f)))
    case Shortcut(from, w) =>
      Register(st.(routs := st.routs + NormalizeAll(i, from)), i, FeatureFusion(from, w),
               Some(Last(st.outputFilters)))
    case Yolo(anchors, mask, classes, from) =>
      (match SelectAnchors(anchors, mask)
       case None => Err(AnchorIndex(i))
       case Some(sel) =>
         var cfg := HeadConfig(sel, classes, imageSize, st.yoloIndex + 1, from.GetOr([]));
         var warn := if BiasInitApplies(cfg, from, st.modules) then [] else [BiasInitSkipped(i)];
         Register(st.(yoloIndex := st.yoloIndex + 1, diagnostics := st.diagnostics + warn), i,
                  YoloHead(cfg), st.filters))
    case Net(_) =>
      Register(st.(diagnostics := st.diagnostics + [UnrecognizedLayer(i, "net")]), i,
               Sequential([]), st.filters)
    case Unrecognized(name) =>
      Register(st.(diagnostics := st.diagnostics + [UnrecognizedLayer(i, name)]), i,
               Sequential([]), st.filters)
  }

  /** The builder's state after the first `k` layer records. */
  function BuildPrefix(channels: int, layers: seq<Block>, imageSize: (int, int), k: nat)
    : (r: Result<BuildState, BuildError>)
    requires k <= |layers|
    ensures r.Ok? ==> |r.value.modules| == k && |r.value.outputFilters| == k + 1
    ensures r.Ok? ==> r.value.outputFilters[0] == channels
    ensures r.Ok? && k > 0 ==> r.value.filters == Some(Last(r.value.outputFilters))
  {
    if k == 0 then Ok(Initial(channels))
    else
      var st :- BuildPrefix(channels, layers, imageSize, k - 1);
      Step(st, k - 1, layers[k - 1], imageSize)
  }

  /** `routs_binary[r] = True` for every collected index, in order. */
  function MarkRouts(mask: seq<bool>, routs: seq<int>): (r: Result<seq<bool>, BuildError>)
    decreases routs
    ensures r.Ok? ==> |r.value| == |mask|
    ensures r.Ok? <==> forall x :: x in routs ==> PyIndex(|mask|, x).Some?
    ensures r.Ok? ==> forall j :: 0 <= j < |mask| ==>
      (r.value[j] <==> mask[j] || exists x :: x in routs && PyIndex(|mask|, x) == Some(j))
  {
    if routs == [] then Ok(mask)
    else
      match PyIndex(|mask|, routs[0])
      case None => Err(RoutIndex(routs[0]))
      case Some(j) => MarkRouts(mask[j := true], routs[1..])
  }

  function AllFalse(n: nat): (r: seq<bool>)
    ensures |r| == n && forall j :: 0 <= j < n ==> !r[j]
  {
    seq(n, _ => false)
  }

  /** The builder after the hyper-parameter record is gone. */
  function BuildLayersSpec(channels: int, layers: seq<Block>, imageSize: (int, int))
    : (r: Result<Built, BuildError>)
    ensures r.Ok? ==> |layers| > 0 && |r.value.modules| == |layers| && |r.value.routs| == |layers|
    ensures r.Ok? <==>
              && BuildPrefix(channels, layers, imageSize, |layers|).Ok?
              && |layers| > 0
              && forall x :: x in BuildPrefix(channels, layers, imageSize, |layers|).value.routs ==>
                               PyIndex(|layers|, x).Some?
  {
    var st :- BuildPrefix(channels, layers, imageSize, |layers|);
    if |layers| == 0 then Err(NoLayers)
    else
      var mask :- MarkRouts(AllFalse(|layers|), st.routs);
      Ok(Built(st.modules, mask, st.diagnostics))
  }

  /** The whole of `create_modules` on the record list it is given. */
  function Build(blocks: seq<Block>, imageSize: (int, int)): (r: Result<Built, BuildError>)
    ensures r.Ok? ==> |blocks| >= 2 && blocks[0].Net?
    ensures r.Ok? ==> |r.value.modules| == |blocks| - 1 && |r.value.routs| == |blocks| - 1
  {
    if blocks == [] then Err(EmptyConfig)
    else if !blocks[0].Net? then Err(MissingChannels)
    else BuildLayersSpec(blocks[0].channels, blocks[1..], imageSize)
  }

  /** A failed prefix fails the whole build with the same error. */
  lemma {:induction false} ErrorPersists(channels: int, layers: seq<Block>, imageSize: (int, int), k: nat, n: nat)
    requires k <= n <= |layers|
    requires BuildPrefix(channels, layers, imageSize, k).Err?
    ensures BuildPrefix(channels, layers, imageSize, n) == BuildPrefix(channels, layers, imageSize, k)
  {
    if n > k {
      ErrorPersists(channels, layers, imageSize, k, n - 1);
    }
  }

  /** The caller's record list, which the builder shortens in place. */
  class BlockList {
    var blocks: seq<Block>

    constructor (blocks: seq<Block>)
      ensures this.blocks == blocks
    {
      this.blocks := blocks;
    }

    /** `list.pop(0)`: none (an IndexError) on an empty list. */
    method PopFront() returns (r: Option<Block>)
      modifies this
      ensures old(blocks) == [] ==> r == None && blocks == []
      ensures old(blocks) != [] ==> r == Some(old(blocks)[0]) && blocks == old(blocks)[1..]
    {
      if blocks == [] {
        r := None;
      } else {
        r := Some(blocks[0]);
        blocks := blocks[1..];
      }
    }
  }

  /** `create_modules`: pops the hyper-parameter record from the caller's
      list, then builds from the rest. */
  method CreateModules(defs: BlockList, imageSize: (int, int)) returns (r: Result<Built, BuildError>)
    modifies defs
    ensures defs.blocks == if old(defs.blocks) == [] then [] else old(defs.blocks)[1..]
    ensures r == Build(old(defs.blocks), imageSize)
  {
    var hyper := defs.PopFront();
    if hyper.None? {
      return Err(EmptyConfig);
    }
    if !hyper.value.Net? {
      return Err(MissingChannels);
    }
    r := BuildLayers(hyper.value.channels, defs.blocks, imageSize);
  }

  /** The body of the builder's loop for layer `i`: the branch on the
      record's type, then appending the module and its output filters. */
  method LayerStep(st: BuildState, i: nat, b: Block, imageSize: (int, int))
    returns (r: Result<BuildState, BuildError>)
    requires st.outputFilters != []
    ensures r == Step(st, i, b, imageSize)
  {
    var routs := st.routs;
    var yoloIndex := st.yoloIndex;
    var filters := st.filters;
    var diagnostics := st.diagnostics;
    var m: Module;
    match b {
    case Convolutional(bn, _, f, _, _, _, _, _) =>
      m := Sequential(ConvUnits(b, st.outputFilters[|st.outputFilters| - 1]));
      routs := routs + (if bn then [] else [i]);
      filters := Some(f);
    case MaxPool(size, stride) =>
      m := MaxPoolModule(size, stride);
    case AvgPool(size, stride) =>
      m := Sequential([AvgPool2d(size, stride, (size - 1) / 2)]);
    case SeModule(c) =>
      m := Sequential([SqueezeExcite(c)]);
    case Shuffle(g) =>
      m := Sequential([ShuffleBlock(g)]);
    case Dense(bn, fin, fout) =>
      m := Sequential(DenseUnits(bn, fin, fout));
    case Upsample(s) =>
      m := Single(Upsampler(s));
    case Route(refs) =>
      var sum := RouteFilters(st.outputFilters, refs);
      if sum.None? {
        return Err(FilterIndex(i));
      }
      filters := sum;
      routs := routs + NormalizeAll(i, refs);
      m := Sequential([]);
    case Shortcut(from, w) =>
      filters := Some(st.outputFilters[|st.outputFilters| - 1]);
      routs := routs + NormalizeAll(i, from);
      m := FeatureFusion(from, w);
    case Yolo(anchors, mask, classes, from) =>
      yoloIndex := yoloIndex + 1;
      var sel := SelectAnchors(anchors, mask);
      if sel.None? {
        return Err(AnchorIndex(i));
      }
      var cfg := HeadConfig(sel.value, classes, imageSize, yoloIndex, from.GetOr([]));
      diagnostics := diagnostics + (if BiasInitApplies(cfg, from, st.modules) then [] else [BiasInitSkipped(i)]);
      m := YoloHead(cfg);
    case Net(_) =>
      diagnostics := diagnostics + [UnrecognizedLayer(i, "net")];
      m := Sequential([]);
    case Unrecognized(name) =>
      diagnostics := diagnostics + [UnrecognizedLayer(i, name)];
      m := Sequential([]);
    }
    if filters.None? {
      return Err(UnboundFilters(i));
    }
    return Ok(BuildState(st.modules + [m], st.outputFilters + [filters.value], routs, yoloIndex, filters, diagnostics));
  }

  /** The builder's loop over the layer records, then the mask loop. */
  method BuildLayers(channels: int, layers: seq<Block>, imageSize: (int, int))
    returns (r: Result<Built, BuildError>)
    ensures r == BuildLayersSpec(channels, layers, imageSize)
  {
    var st := Initial(channels);
    for i := 0 to |layers|
      invariant BuildPrefix(channels, layers, imageSize, i) == Ok(st)
    {
      var next := LayerStep(st, i, layers[i], imageSize);
      if next.Err? {
        ErrorPersists(channels, layers, imageSize, i + 1, |layers|);
        return Err(next.error);
      }
      st := next.value;
    }
    if |layers| == 0 {
      return Err(NoLayers);
    }
    var mask := MarkRouted(|layers|, st.routs);
    if mask.Err? {
      return Err(mask.error);
    }
    return Ok(Built(st.modules, mask.value, st.diagnostics));
  }

  /** `routs_binary = [False] * n` followed by `routs_binary[r] = True` for
      every collected index `r`, in order. */
  method MarkRouted(n: nat, routs: seq<int>) returns (r: Result<seq<bool>, BuildError>)
    ensures r == MarkRouts(AllFalse(n), routs)
  {
    var mask := AllFalse(n);
    for k := 0 to |routs|
      invariant |mask| == n
      invariant MarkRouts(AllFalse(n), routs) == MarkRouts(mask, routs[k..])
    {
      var j := PyIndex(|mask|, routs[k]);
      if j.None? {
        return Err(RoutIndex(routs[k]));
      }
      mask := mask[j.value := true];
    }
    return Ok(mask);
  }
}
