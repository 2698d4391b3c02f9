/** The network object (`Darknet`): construction through the graph builder,
    the executor that runs the module list over an output history
    (`forward`), and the normalisation folding pass (`fuse`).

    Tensors are symbolic: a tensor is its shape together with how it was
    made. The numeric kernels (convolution stacks, resampling, pooling,
    the weighted shortcut sum and the detection heads) are parameters of
    the executor; only the routing between them is modelled. */
module Graph {

  import opened Common
  import opened Records
  import opened Units
  import opened Builder
  import opened BuilderProperties
  import opened Fusion

  /** (batch, channels, height, width). */
  datatype Shape = Shape(batch: nat, channels: nat, height: nat, width: nat)

  /** A tensor: the output of a kernel (an opaque value), a channel-wise
      concatenation of parts, or a source resampled to half its height and
      width. */
  datatype Tensor =
    | Value(shape: Shape, id: int)
    | Joined(shape: Shape, parts: seq<Tensor>)
    | Halved(shape: Shape, source: Tensor)

  /** An entry of the output history: a kept tensor, or the empty list that
      stands in for the output of a layer nobody routes from. */
  datatype Entry = Placeholder | Held(tensor: Tensor)

  datatype ExecError =
    /** a kernel was handed the placeholder instead of a tensor */
    | NotATensor(layer: nat)
    /** a route read a history position that does not exist */
    | RouteIndex(layer: nat)
    /** a multi-reference route could not concatenate even after halving */
    | ConcatFailed(layer: nat)

  /** The numeric behaviour of the modules, which the model does not
      interpret: the call of a convolution, upsample or max-pool module; the
      call of a shortcut's fusion module with the history; the call of a
      detection head with the input's height and width and the history. */
  datatype Kernels<Y> = Kernels(
    apply: (Module, Tensor) -> Tensor,
    fusion: (Module, Tensor, seq<Entry>) -> Tensor,
    head: (Module, Tensor, (nat, nat), seq<Entry>) -> Y)

  /** Height and width of the network input, as passed to every head. */
  function ImageSize(t: Tensor): (nat, nat) {
    (t.shape.height, t.shape.width)
  }

  /** Nearest-neighbour resampling with scale factor one half. */
  function Halve(t: Tensor): (r: Tensor)
    ensures r.shape.batch == t.shape.batch && r.shape.channels == t.shape.channels
    ensures r.shape.height == t.shape.height / 2 && r.shape.width == t.shape.width / 2
    ensures r.Halved? && r.source == t
  {
    Halved(Shape(t.shape.batch, t.shape.channels, t.shape.height / 2, t.shape.width / 2), t)
  }

  function Channels(ts: seq<Tensor>): nat {
    if ts == [] then 0 else ts[0].shape.channels + Channels(ts[1..])
  }

  predicate SameExtent(a: Shape, b: Shape) {
    a.batch == b.batch && a.height == b.height && a.width == b.width
  }

  /** Concatenation along the channel axis: it fails on an empty list and
      when two parts differ in batch size, height or width. */
  function CatChannels(ts: seq<Tensor>): (r: Option<Tensor>)
    ensures r.Some? <==> ts != [] && forall m :: 0 <= m < |ts| ==> SameExtent(ts[m].shape, ts[0].shape)
    ensures r.Some? ==> r.value.Joined? && r.value.parts == ts && r.value.shape.channels == Channels(ts)
    ensures r.Some? ==> forall m :: 0 <= m < |ts| ==> SameExtent(r.value.shape, ts[m].shape)
  {
    if ts != [] && forall m :: 0 <= m < |ts| ==> SameExtent(ts[m].shape, ts[0].shape)
    then Some(Joined(Shape(ts[0].shape.batch, Channels(ts), ts[0].shape.height, ts[0].shape.width), ts))
    else None
  }

  /** Reading `out[r]` for every reference succeeds and yields tensors. */
  predicate Gatherable(out: seq<Entry>, refs: seq<int>) {
    forall r :: r in refs ==> PyIndex(|out|, r).Some? && out[PyIndex(|out|, r).value].Held?
  }

  function Gather(out: seq<Entry>, refs: seq<int>): (ts: seq<Tensor>)
    requires Gatherable(out, refs)
    ensures |ts| == |refs|
    ensures forall m :: 0 <= m < |refs| ==> Held(ts[m]) == out[PyIndex(|out|, refs[m]).value]
  {
    seq(|refs|, m requires 0 <= m < |refs| => out[PyIndex(|out|, refs[m]).value].tensor)
  }

  /** The concatenation a multi-reference route attempts. */
  function Join(out: seq<Entry>, refs: seq<int>): (r: Option<Tensor>)
    ensures r.Some? <==> Gatherable(out, refs) && CatChannels(Gather(out, refs)).Some?
    ensures r.Some? ==> r.value.Joined? && r.value.parts == Gather(out, refs)
  {
    if Gatherable(out, refs) then CatChannels(Gather(out, refs)) else None
  }

  /** The history with entry `j` replaced by its half-size resampling
      (`out[j] = F.interpolate(out[j], scale_factor=0.5)`). */
  function HalveAt(out: seq<Entry>, j: nat): (r: seq<Entry>)
    requires j < |out| && out[j].Held?
    ensures |r| == |out| && r[j] == Held(Halve(out[j].tensor))
    ensures forall k :: 0 <= k < |out| && k != j ==> r[k] == out[k]
  {
    out[j := Held(Halve(out[j].tensor))]
  }

  /** What a route leaves behind: the new current value and the history,
      which the reorganisation fallback may have changed. */
  datatype Routed = Routed(x: Entry, out: seq<Entry>)

  /** A route at layer `i`. A single reference selects a history entry
      (which may be a placeholder). Several references are concatenated;
      when that fails, the entry named by the second reference is replaced
      in the history by its half-size resampling and the concatenation is
      tried once more. */
  function RouteStep(i: nat, out: seq<Entry>, refs: seq<int>): (r: Result<Routed, ExecError>)
    ensures |refs| == 1 ==> (r.Ok? <==> PyIndex(|out|, refs[0]).Some?)
    ensures |refs| == 1 && r.Ok? ==> r.value == Routed(out[PyIndex(|out|, refs[0]).value], out)
    ensures |refs| != 1 && Join(out, refs).Some? ==> r == Ok(Routed(Held(Join(out, refs).value), out))
    ensures r.Ok? ==> |refs| == 1 || r.value.x.Held?
    ensures r.Ok? && |refs| != 1 ==> Join(r.value.out, refs) == Some(r.value.x.tensor)
    ensures |refs| != 1 && Join(out, refs).None? ==>
      (r.Ok? <==> && |refs| >= 2 && PyIndex(|out|, refs[1]).Some?
                  && out[PyIndex(|out|, refs[1]).value].Held?
                  && Join(HalveAt(out, PyIndex(|out|, refs[1]).value), refs).Some?)
    ensures |refs| != 1 && Join(out, refs).None? && r.Ok? ==>
      r.value.out == HalveAt(out, PyIndex(|out|, refs[1]).value)
    ensures r.Ok? ==> |r.value.out| == |out|
    ensures r.Ok? ==> forall j :: 0 <= j < |out| ==> (r.value.out[j].Held? <==> out[j].Held?)
    ensures r.Ok? ==> forall j :: 0 <= j < |out| && r.value.out[j] != out[j] ==>
      |refs| >= 2 && PyIndex(|out|, refs[1]) == Some(j) && r.value.out[j] == Held(Halve(out[j].tensor))
    ensures r.Err? && r.error.NotATensor? ==>
      |refs| >= 2 && PyIndex(|out|, refs[1]).Some? && out[PyIndex(|out|, refs[1]).value].Placeholder?
  {
    if |refs| == 1 then
      match PyIndex(|out|, refs[0])
      case None => Err(RouteIndex(i))
      case Some(j) => Ok(Routed(out[j], out))
    else
      match Join(out, refs)
      case Some(t) => Ok(Routed(Held(t), out))
      case None =>
        if |refs| < 2 then Err(RouteIndex(i))
        else
          match PyIndex(|out|, refs[1])
          case None => Err(RouteIndex(i))
          case Some(j) =>
            if out[j].Placeholder? then Err(NotATensor(i))
            else
              var out' := HalveAt(out, j);
              match Join(out', refs)
              case None => Err(ConcatFailed(i))
              case Some(t) => Ok(Routed(Held(t), out'))
  }

  /** The route branch of the forward loop: try the concatenation, and on
      failure halve the second referenced history entry in place and try
      once more. */
  method RouteLayer(i: nat, out: seq<Entry>, refs: seq<int>) returns (r: Result<Routed, ExecError>)
    ensures r == RouteStep(i, out, refs)
  {
    if |refs| == 1 {
      var j := PyIndex(|out|, refs[0]);
      if j.None? {
        return Err(RouteIndex(i));
      }
      return Ok(Routed(out[j.value], out));
    }
    var joined := Join(out, refs);
    if joined.Some? {
      return Ok(Routed(Held(joined.value), out));
    }
    if |refs| < 2 {
      return Err(RouteIndex(i));
    }
    var j := PyIndex(|out|, refs[1]);
    if j.None? {
      return Err(RouteIndex(i));
    }
    if out[j.value].Placeholder? {
      return Err(NotATensor(i));
    }
    var halved := out[j.value := Held(Halve(out[j.value].tensor))];
    joined := Join(halved, refs);
    if joined.None? {
      return Err(ConcatFailed(i));
    }
    r := Ok(Routed(Held(joined.value), halved));
  }

  /** The executor's state: the current value `x`, the history `out` and
      the head outputs collected so far. */
  datatype ExecState<Y> = ExecState(x: Entry, out: seq<Entry>, yoloOut: seq<Y>)

  /** The layer types whose module is simply called on `x`. */
  predicate UsesKernel(b: Block) {
    b.Convolutional? || b.Upsample? || b.MaxPool?
  }

  /** One iteration of the executor for layer `i` with record `b`, module
      `m` and routed flag `routed`: the layer's effect, then the history
      entry, which keeps `x` only for a routed layer. */
  function ExecStep<Y>(ks: Kernels<Y>, i: nat, b: Block, m: Module, routed: bool,
                       imageSize: (nat, nat), st: ExecState<Y>): (r: Result<ExecState<Y>, ExecError>)
    ensures r.Ok? ==> |r.value.out| == |st.out| + 1
    ensures r.Ok? ==> r.value.out[|st.out|] == if routed then r.value.x else Placeholder
    ensures r.Ok? ==> forall j :: 0 <= j < |st.out| ==> (r.value.out[j].Held? <==> st.out[j].Held?)
    ensures r.Ok? && b.Yolo? ==>
      st.x.Held? && r.value.yoloOut == st.yoloOut + [ks.head(m, st.x.tensor, imageSize, st.out)]
    ensures r.Ok? && !b.Yolo? ==> r.value.yoloOut == st.yoloOut
    ensures r.Ok? && !UsesKernel(b) && !b.Shortcut? && !b.Route? ==> r.value.x == st.x
    ensures r.Ok? && !b.Route? ==> forall j :: 0 <= j < |st.out| ==> r.value.out[j] == st.out[j]
    ensures (UsesKernel(b) || b.Shortcut? || b.Yolo?) ==> (r.Err? <==> st.x.Placeholder?)
    ensures r.Ok? && UsesKernel(b) ==> r.value.x == Held(ks.apply(m, st.x.tensor))
    ensures r.Ok? && b.Shortcut? ==> r.value.x == Held(ks.fusion(m, st.x.tensor, st.out))
  {
    var after :-
      if UsesKernel(b) || b.Shortcut? || b.Yolo? then
        match st.x
        case Placeholder => Err(NotATensor(i))
        case Held(t) =>
          if UsesKernel(b) then Ok(st.(x := Held(ks.apply(m, t))))
          else if b.Shortcut? then Ok(st.(x := Held(ks.fusion(m, t, st.out))))
          else Ok(st.(yoloOut := st.yoloOut + [ks.head(m, t, imageSize, st.out)]))
      else if b.Route? then
        var rt :- RouteStep(i, st.out, b.layers);
        Ok(st.(x := rt.x, out := rt.out))
      else Ok(st);
    Ok(after.(out := after.out + [if routed then after.x else Placeholder]))
  }

  /** The executor after the first `n` layers, starting from `input`. */
  function ExecPrefix<Y>(ks: Kernels<Y>, defs: seq<Block>, modules: seq<Module>, routs: seq<bool>,
                         input: Tensor, n: nat): (r: Result<ExecState<Y>, ExecError>)
    requires |modules| == |defs| && |routs| == |defs| && n <= |defs|
    ensures r.Ok? ==> |r.value.out| == n
  {
    if n == 0 then Ok(ExecState(Held(input), [], []))
    else
      var st :- ExecPrefix(ks, defs, modules, routs, input, n - 1);
      ExecStep(ks, n - 1, defs[n - 1], modules[n - 1], routs[n - 1], ImageSize(input), st)
  }

  /** The whole forward pass: the head outputs in layer order. */
  function Run<Y>(ks: Kernels<Y>, defs: seq<Block>, modules: seq<Module>, routs: seq<bool>,
                  input: Tensor): (r: Result<seq<Y>, ExecError>)
    requires |modules| == |defs| && |routs| == |defs|
    ensures r.Ok? <==> ExecPrefix(ks, defs, modules, routs, input, |defs|).Ok?
    ensures r.Ok? ==> |r.value| == |GetYoloLayers(defs)|
  {
    var st :- ExecPrefix(ks, defs, modules, routs, input, |defs|);
    YoloCount(ks, defs, modules, routs, input, |defs|);
    assert defs[..|defs|] == defs;
    Ok(st.yoloOut)
  }

  lemma {:induction false} ExecErrorPersists<Y>(ks: Kernels<Y>, defs: seq<Block>, modules: seq<Module>,
                                                routs: seq<bool>, input: Tensor, k: nat, n: nat)
    requires |modules| == |defs| && |routs| == |defs| && k <= n <= |defs|
    requires ExecPrefix(ks, defs, modules, routs, input, k).Err?
    ensures ExecPrefix(ks, defs, modules, routs, input, n) == ExecPrefix(ks, defs, modules, routs, input, k)
    decreases n - k
  {
    if k < n {
      ExecErrStep(ks, defs, modules, routs, input, k);
      ExecErrorPersists(ks, defs, modules, routs, input, k + 1, n);
    }
  }

  /** A failed prefix stays failed, with the same error, one layer later. */
  lemma ExecErrStep<Y>(ks: Kernels<Y>, defs: seq<Block>, modules: seq<Module>,
                       routs: seq<bool>, input: Tensor, n: nat)
    requires |modules| == |defs| && |routs| == |defs| && n < |defs|
    requires ExecPrefix(ks, defs, modules, routs, input, n).Err?
    ensures ExecPrefix(ks, defs, modules, routs, input, n + 1) == ExecPrefix(ks, defs, modules, routs, input, n)
  {
  }

  /** A run that gets through `n` layers got through every shorter prefix,
      and whether a history entry holds a tensor never changes afterwards. */
  lemma {:induction false} ExecStable<Y>(ks: Kernels<Y>, defs: seq<Block>, modules: seq<Module>,
                                         routs: seq<bool>, input: Tensor, k: nat, n: nat)
    requires |modules| == |defs| && |routs| == |defs| && k <= n <= |defs|
    requires ExecPrefix(ks, defs, modules, routs, input, n).Ok?
    ensures ExecPrefix(ks, defs, modules, routs, input, k).Ok?
    ensures var a := ExecPrefix(ks, defs, modules, routs, input, k).value;
            var b := ExecPrefix(ks, defs, modules, routs, input, n).value;
      forall j :: 0 <= j < k ==> (a.out[j].Held? <==> b.out[j].Held?)
  {
    ExecOkBefore(ks, defs, modules, routs, input, k, n);
    forall j | 0 <= j < k
      ensures ExecPrefix(ks, defs, modules, routs, input, k).value.out[j].Held? <==>
              ExecPrefix(ks, defs, modules, routs, input, n).value.out[j].Held?
    {
      ExecStableAt(ks, defs, modules, routs, input, k, n, j);
    }
  }

  /** A run that gets through `n` layers got through every shorter prefix. */
  lemma {:induction false} ExecOkBefore<Y>(ks: Kernels<Y>, defs: seq<Block>, modules: seq<Module>,
                                           routs: seq<bool>, input: Tensor, k: nat, n: nat)
    requires |modules| == |defs| && |routs| == |defs| && k <= n <= |defs|
    requires ExecPrefix(ks, defs, modules, routs, input, n).Ok?
    ensures ExecPrefix(ks, defs, modules, routs, input, k).Ok?
  {
    if k < n {
      ExecGrow(ks, defs, modules, routs, input, n - 1);
      ExecOkBefore(ks, defs, modules, routs, input, k, n - 1);
    }
  }

  /** `ExecStable` for one history entry `j`. */
  lemma {:induction false} ExecStableAt<Y>(ks: Kernels<Y>, defs: seq<Block>, modules: seq<Module>,
                                           routs: seq<bool>, input: Tensor, k: nat, n: nat, j: nat)
    requires |modules| == |defs| && |routs| == |defs| && j < k <= n <= |defs|
    requires ExecPrefix(ks, defs, modules, routs, input, n).Ok?
    ensures ExecPrefix(ks, defs, modules, routs, input, k).Ok?
    ensures ExecPrefix(ks, defs, modules, routs, input, k).value.out[j].Held? <==>
            ExecPrefix(ks, defs, modules, routs, input, n).value.out[j].Held?
  {
    if k < n {
      ExecGrow(ks, defs, modules, routs, input, n - 1);
      ExecStableAt(ks, defs, modules, routs, input, k, n - 1, j);
    }
  }

  /** One more layer keeps the earlier history entries held or not. */
  lemma ExecGrow<Y>(ks: Kernels<Y>, defs: seq<Block>, modules: seq<Module>,
                    routs: seq<bool>, input: Tensor, n: nat)
    requires |modules| == |defs| && |routs| == |defs| && n < |defs|
    requires ExecPrefix(ks, defs, modules, routs, input, n + 1).Ok?
    ensures ExecPrefix(ks, defs, modules, routs, input, n).Ok?
    ensures var a := ExecPrefix(ks, defs, modules, routs, input, n).value;
            var b := ExecPrefix(ks, defs, modules, routs, input, n + 1).value;
      forall j :: 0 <= j < n ==> (a.out[j].Held? <==> b.out[j].Held?)
  {
    var prev := ExecPrefix(ks, defs, modules, routs, input, n);
    assert prev.Ok?;
    assert ExecPrefix(ks, defs, modules, routs, input, n + 1) ==
           ExecStep(ks, n, defs[n], modules[n], routs[n], ImageSize(input), prev.value);
  }

  /** The history after layer `j` ends in `x` when layer `j` is routed and
      in a placeholder otherwise; later in the run that entry holds a
      tensor exactly when it did then. */
  lemma History<Y>(ks: Kernels<Y>, defs: seq<Block>, modules: seq<Module>, routs: seq<bool>,
                   input: Tensor, n: nat)
    requires |modules| == |defs| && |routs| == |defs| && n <= |defs|
    requires ExecPrefix(ks, defs, modules, routs, input, n).Ok?
    ensures forall j :: 0 <= j < n ==>
      && ExecPrefix(ks, defs, modules, routs, input, j + 1).Ok?
      && var after := ExecPrefix(ks, defs, modules, routs, input, j + 1).value;
         && after.out[j] == (if routs[j] then after.x else Placeholder)
         && (ExecPrefix(ks, defs, modules, routs, input, n).value.out[j].Held? <==> routs[j] && after.x.Held?)
  {
    forall j | 0 <= j < n
      ensures ExecPrefix(ks, defs, modules, routs, input, j + 1).Ok?
      ensures var after := ExecPrefix(ks, defs, modules, routs, input, j + 1).value;
         && after.out[j] == (if routs[j] then after.x else Placeholder)
         && (ExecPrefix(ks, defs, modules, routs, input, n).value.out[j].Held? <==> routs[j] && after.x.Held?)
    {
      HistoryAt(ks, defs, modules, routs, input, j, n);
    }
  }

  /** `History` for one layer `j`. */
  lemma HistoryAt<Y>(ks: Kernels<Y>, defs: seq<Block>, modules: seq<Module>, routs: seq<bool>,
                     input: Tensor, j: nat, n: nat)
    requires |modules| == |defs| && |routs| == |defs| && j < n <= |defs|
    requires ExecPrefix(ks, defs, modules, routs, input, n).Ok?
    ensures ExecPrefix(ks, defs, modules, routs, input, j + 1).Ok?
    ensures var after := ExecPrefix(ks, defs, modules, routs, input, j + 1).value;
      && after.out[j] == (if routs[j] then after.x else Placeholder)
      && (ExecPrefix(ks, defs, modules, routs, input, n).value.out[j].Held? <==> routs[j] && after.x.Held?)
  {
    ExecStableAt(ks, defs, modules, routs, input, j + 1, n, j);
    var prev := ExecPrefix(ks, defs, modules, routs, input, j);
    assert prev.Ok?;
    assert ExecPrefix(ks, defs, modules, routs, input, j + 1) ==
           ExecStep(ks, j, defs[j], modules[j], routs[j], ImageSize(input), prev.value);
  }

  /** One layer's contribution to the head outputs: a yolo layer appends
      the head applied to the value and history reaching it, any other
      layer appends nothing. */
  lemma YoloStep<Y>(ks: Kernels<Y>, defs: seq<Block>, modules: seq<Module>, routs: seq<bool>,
                    input: Tensor, n: nat)
    requires |modules| == |defs| && |routs| == |defs| && 0 < n <= |defs|
    requires ExecPrefix(ks, defs, modules, routs, input, n).Ok?
    ensures ExecPrefix(ks, defs, modules, routs, input, n - 1).Ok?
    ensures var prev := ExecPrefix(ks, defs, modules, routs, input, n - 1).value;
            var cur := ExecPrefix(ks, defs, modules, routs, input, n).value;
      && (defs[n - 1].Yolo? ==>
            prev.x.Held? &&
            cur.yoloOut == prev.yoloOut + [ks.head(modules[n - 1], prev.x.tensor, ImageSize(input), prev.out)])
      && (!defs[n - 1].Yolo? ==> cur.yoloOut == prev.yoloOut)
  {
    var prev := ExecPrefix(ks, defs, modules, routs, input, n - 1);
    assert prev.Ok?;
    assert ExecPrefix(ks, defs, modules, routs, input, n) ==
           ExecStep(ks, n - 1, defs[n - 1], modules[n - 1], routs[n - 1], ImageSize(input), prev.value);
  }

  /** One head output per yolo record, in layer order: output `m` is the
      head of the `m`-th yolo record applied to the value and history that
      reach it. */
  lemma YoloOutputs<Y>(ks: Kernels<Y>, defs: seq<Block>, modules: seq<Module>,
                       routs: seq<bool>, input: Tensor, n: nat)
    requires |modules| == |defs| && |routs| == |defs| && n <= |defs|
    requires ExecPrefix(ks, defs, modules, routs, input, n).Ok?
    ensures var ys := GetYoloLayers(defs[..n]);
            var out := ExecPrefix(ks, defs, modules, routs, input, n).value.yoloOut;
      && |out| == |ys|
      && forall m :: 0 <= m < |ys| ==>
           && ys[m] < n
           && ExecPrefix(ks, defs, modules, routs, input, ys[m]).Ok?
           && var st := ExecPrefix(ks, defs, modules, routs, input, ys[m]).value;
              st.x.Held? && out[m] == ks.head(modules[ys[m]], st.x.tensor, ImageSize(input), st.out)
  {
    YoloCount(ks, defs, modules, routs, input, n);
    var ys := GetYoloLayers(defs[..n]);
    forall m | 0 <= m < |ys|
      ensures ys[m] < n
      ensures ExecPrefix(ks, defs, modules, routs, input, ys[m]).Ok?
      ensures var st := ExecPrefix(ks, defs, modules, routs, input, ys[m]).value;
              var out := ExecPrefix(ks, defs, modules, routs, input, n).value.yoloOut;
              st.x.Held? && out[m] == ks.head(modules[ys[m]], st.x.tensor, ImageSize(input), st.out)
    {
      YoloRank(defs[..n], m);
      assert defs[..n][..ys[m]] == defs[..ys[m]];
      YoloOutputAt(ks, defs, modules, routs, input, n, ys[m]);
      YoloCount(ks, defs, modules, routs, input, ys[m]);
    }
  }

  /** The run yields as many head outputs as there are yolo records. */
  lemma {:induction false} YoloCount<Y>(ks: Kernels<Y>, defs: seq<Block>, modules: seq<Module>,
                                        routs: seq<bool>, input: Tensor, n: nat)
    requires |modules| == |defs| && |routs| == |defs| && n <= |defs|
    requires ExecPrefix(ks, defs, modules, routs, input, n).Ok?
    ensures |ExecPrefix(ks, defs, modules, routs, input, n).value.yoloOut| == |GetYoloLayers(defs[..n])|
  {
    if n == 0 {
      assert defs[..0] == [];
    } else {
      YoloStep(ks, defs, modules, routs, input, n);
      YoloCount(ks, defs, modules, routs, input, n - 1);
      YoloLayersOfPrefix(defs, n - 1);
      var prev := ExecPrefix(ks, defs, modules, routs, input, n - 1).value.yoloOut;
      var cur := ExecPrefix(ks, defs, modules, routs, input, n).value.yoloOut;
      assert |cur| == |prev| + (if defs[n - 1].Yolo? then 1 else 0);
    }
  }

  /** The yolo layer `k` contributes the head output at position
      `|yoloOut|` of the state reaching it, and later layers keep it. */
  lemma {:induction false} YoloOutputAt<Y>(ks: Kernels<Y>, defs: seq<Block>, modules: seq<Module>,
                                           routs: seq<bool>, input: Tensor, n: nat, k: nat)
    requires |modules| == |defs| && |routs| == |defs| && k < n <= |defs| && defs[k].Yolo?
    requires ExecPrefix(ks, defs, modules, routs, input, n).Ok?
    ensures ExecPrefix(ks, defs, modules, routs, input, k).Ok?
    ensures var st := ExecPrefix(ks, defs, modules, routs, input, k).value;
            var out := ExecPrefix(ks, defs, modules, routs, input, n).value.yoloOut;
      && |st.yoloOut| < |out|
      && st.x.Held? && out[|st.yoloOut|] == ks.head(modules[k], st.x.tensor, ImageSize(input), st.out)
  {
    YoloStep(ks, defs, modules, routs, input, n);
    if k < n - 1 {
      YoloOutputAt(ks, defs, modules, routs, input, n - 1, k);
      var st := ExecPrefix(ks, defs, modules, routs, input, k).value;
      var out0 := ExecPrefix(ks, defs, modules, routs, input, n - 1).value.yoloOut;
      var out := ExecPrefix(ks, defs, modules, routs, input, n).value.yoloOut;
      assert out[|st.yoloOut|] == out0[|st.yoloOut|];
    }
  }

  /** One layer keeps the executor's state well formed: when `x` is a
      tensor, the history holds a tensor exactly at the routed positions,
      and a route only reads routed positions, the next state is again of
      that form and the layer does not fail for want of a tensor. */
  lemma RoutedStep<Y>(ks: Kernels<Y>, i: nat, b: Block, m: Module, imageSize: (nat, nat),
                      st: ExecState<Y>, routs: seq<bool>)
    requires |st.out| == i && i < |routs|
    requires st.x.Held? && forall j :: 0 <= j < i ==> (st.out[j].Held? <==> routs[j])
    requires b.Route? ==> forall r :: r in b.layers && PyIndex(i, r).Some? ==> routs[PyIndex(i, r).value]
    ensures var r := ExecStep(ks, i, b, m, routs[i], imageSize, st);
      && (r.Ok? ==> r.value.x.Held? && forall j :: 0 <= j <= i ==> (r.value.out[j].Held? <==> routs[j]))
      && (r.Err? ==> !r.error.NotATensor?)
  {
    if b.Route? {
      if |b.layers| == 1 {
        assert b.layers[0] in b.layers;
      } else if |b.layers| >= 2 {
        assert b.layers[1] in b.layers;
      }
    }
  }

  /** When every route reads only routed layers (what the builder
      guarantees), the current value is always a tensor, the history holds
      a tensor exactly at the routed layers, and no layer is ever handed a
      placeholder. */
  lemma {:induction false} RoutedHeld<Y>(ks: Kernels<Y>, defs: seq<Block>, modules: seq<Module>,
                                         routs: seq<bool>, input: Tensor, n: nat)
    requires |modules| == |defs| && |routs| == |defs| && n <= |defs|
    requires RouteReadsRouted(defs, routs)
    ensures var r := ExecPrefix(ks, defs, modules, routs, input, n);
      && (r.Ok? ==> r.value.x.Held? && forall j :: 0 <= j < n ==> (r.value.out[j].Held? <==> routs[j]))
      && (r.Err? ==> !r.error.NotATensor?)
  {
    if n > 0 {
      RoutedHeld(ks, defs, modules, routs, input, n - 1);
      var prev := ExecPrefix(ks, defs, modules, routs, input, n - 1);
      if prev.Ok? {
        RoutedStep(ks, n - 1, defs[n - 1], modules[n - 1], ImageSize(input), prev.value, routs);
      }
    }
  }

  /** In the module list the builder produces, a batch normalisation can
      only be the second unit of a container. */
  lemma BuiltNormPlacement(channels: int, layers: seq<Block>, imageSize: (int, int), k: nat)
    requires BuildPrefix(channels, layers, imageSize, |layers|).Ok?
    requires k < |layers|
    ensures var m := BuildPrefix(channels, layers, imageSize, |layers|).value.modules[k];
      m.Sequential? ==> NormAtMostSecond(m.units)
  {
    ModuleSettled(channels, layers, imageSize, k);
    var prev := BuildPrefix(channels, layers, imageSize, k).value;
    StepModule(prev, k, layers[k], imageSize);
  }



  /** After the folding pass, a module list from the builder has no batch
      normalisation left in any container, and a second pass changes
      nothing. */
  lemma FuseBuilt(blocks: seq<Block>, imageSize: (int, int))
    requires Build(blocks, imageSize).Ok?
    ensures var ms := Build(blocks, imageSize).value.modules;
      && (forall k :: 0 <= k < |ms| && ms[k].Sequential? ==> NormFree(FuseAll(ms)[k].units))
      && FuseAll(FuseAll(ms)) == FuseAll(ms)
  {
    var layers := blocks[1..];
    var channels := blocks[0].channels;
    var ms := Build(blocks, imageSize).value.modules;
    assert ms == BuildPrefix(channels, layers, imageSize, |layers|).value.modules;
    forall k | 0 <= k < |ms|
      ensures ms[k].Sequential? ==> NormFree(FuseAll(ms)[k].units)
      ensures FuseModule(FuseModule(ms[k])) == FuseModule(ms[k])
    {
      BuiltNormPlacement(channels, layers, imageSize, k);
      if ms[k].Sequential? {
        FuseLeavesNoNorm(ms[k].units);
      }
    }
  }

  /** The body of the forward loop for layer `i`, on the current tensor
      (held, as it always is between layers) and the recorded outputs. */
  method LayerForward<Y>(ks: Kernels<Y>, i: nat, b: Block, m: Module, routed: bool,
                         imageSize: (nat, nat), st: ExecState<Y>) returns (r: Result<ExecState<Y>, ExecError>)
    requires st.x.Held?
    ensures r == ExecStep(ks, i, b, m, routed, imageSize, st)
  {
    var x := st.x;
    var out := st.out;
    var yoloOut := st.yoloOut;
    if UsesKernel(b) {
      x := Held(ks.apply(m, x.tensor));
    } else if b.Shortcut? {
      x := Held(ks.fusion(m, x.tensor, out));
    } else if b.Yolo? {
      yoloOut := yoloOut + [ks.head(m, x.tensor, imageSize, out)];
    } else if b.Route? {
      var rt := RouteLayer(i, out, b.layers);
      if rt.Err? {
        return Err(rt.error);
      }
      x, out := rt.value.x, rt.value.out;
    }
    out := out + [if routed then x else Placeholder];
    return Ok(ExecState(x, out, yoloOut));
  }

  /** The network: the layer records left after the hyper-parameter record,
      the module list, the routed mask and the yolo record positions. */
  class Darknet {
    const defines: seq<Block>
    var moduleList: seq<Module>
    const routs: seq<bool>
    const yoloLayers: seq<nat>

    predicate Valid()
      reads this
    {
      && |moduleList| == |defines|
      && |routs| == |defines|
      && yoloLayers == GetYoloLayers(defines)
      && RouteReadsRouted(defines, routs)
    }

    constructor FromBuilt(defines: seq<Block>, built: Built)
      requires |built.modules| == |defines| && |built.routs| == |defines|
      requires RouteReadsRouted(defines, built.routs)
      ensures Valid()
      ensures this.defines == defines && moduleList == built.modules && routs == built.routs
    {
      this.defines := defines;
      moduleList := built.modules;
      routs := built.routs;
      yoloLayers := GetYoloLayers(defines);
    }

    /** Construction: the builder consumes the hyper-parameter record from
        the caller's list, and the network keeps the rest. */
    static method Create(config: BlockList, imageSize: (int, int)) returns (r: Result<Darknet, BuildError>)
      modifies config
      ensures config.blocks == if old(config.blocks) == [] then [] else old(config.blocks)[1..]
      ensures r.Ok? <==> Build(old(config.blocks), imageSize).Ok?
      ensures r.Ok? ==> var built := Build(old(config.blocks), imageSize).value;
        && fresh(r.value) && r.value.Valid()
        && r.value.defines == config.blocks
        && r.value.moduleList == built.modules && r.value.routs == built.routs
    {
      ghost var blocks := config.blocks;
      var built := CreateModules(config, imageSize);
      if built.Err? {
        return Err(built.error);
      }
      BuiltRoutesReadRouted(blocks[0].channels, blocks[1..], imageSize);
      var net := new Darknet.FromBuilt(config.blocks, built.value);
      r := Ok(net);
    }

    /** The forward pass: head outputs in layer order, one per yolo record.
        A network from the builder never hands a kernel the placeholder. */
    method Forward<Y>(input: Tensor, ks: Kernels<Y>) returns (r: Result<seq<Y>, ExecError>)
      requires Valid()
      ensures r == Run(ks, defines, moduleList, routs, input)
      ensures r.Ok? ==> |r.value| == |yoloLayers|
      ensures r.Err? ==> !r.error.NotATensor?
    {
      var st := ExecState(Held(input), [], []);
      var imageSize := ImageSize(input);
      for i := 0 to |defines|
        invariant ExecPrefix(ks, defines, moduleList, routs, input, i) == Ok(st)
      {
        RoutedHeld(ks, defines, moduleList, routs, input, i);
        var next := LayerForward(ks, i, defines[i], moduleList[i], routs[i], imageSize, st);
        if next.Err? {
          ExecErrorPersists(ks, defines, moduleList, routs, input, i + 1, |defines|);
          RoutedHeld(ks, defines, moduleList, routs, input, i + 1);
          return Err(next.error);
        }
        st := next.value;
      }
      r := Ok(st.yoloOut);
      YoloOutputs(ks, defines, moduleList, routs, input, |defines|);
      assert defines[..|defines|] == defines;
    }

    /** The folding pass: every sequential container is rewritten on its
        own and the list keeps its length. */
    method Fuse()
      requires Valid()
      modifies this
      ensures Valid()
      ensures moduleList == FuseAll(old(moduleList))
    {
      var ms := moduleList;
      var fused: seq<Module> := [];
      for k := 0 to |ms|
        invariant |fused| == k
        invariant forall j :: 0 <= j < k ==> fused[j] == FuseModule(ms[j])
      {
        var a := FuseEntry(ms[k]);
        fused := fused + [a];
      }
      moduleList := fused;
    }
  }
}
