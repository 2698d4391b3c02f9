/** What the graph builder guarantees about the module list, the channel
    counts, the routed mask and the head numbering it produces. */
module BuilderProperties {

  import opened Common
  import opened Records
  import opened Units
  import opened Builder

  /** The indices layer `i` adds to `routs`: its own index for a
      convolution without batch normalisation, its normalised references
      for a route or shortcut. */
  function Contribution(i: nat, b: Block): seq<int> {
    match b
    case Convolutional(bn, _, _, _, _, _, _, _) => if bn then [] else [i]
    case Route(layers) => NormalizeAll(i, layers)
    case Shortcut(from, _) => NormalizeAll(i, from)
    case _ => []
  }

  /** The channel count a layer declares, given the counts before it: its
      `filters` for a convolution, the route sum for a route, and the
      previous count for every other type. */
  function LayerChannels(b: Block, outputFilters: seq<int>): int
    requires outputFilters != []
  {
    match b
    case Convolutional(_, _, f, _, _, _, _, _) => f
    case Route(refs) => RouteFilters(outputFilters, refs).GetOr(0)
    case _ => Last(outputFilters)
  }

  /** Layer `i` of a mask of length `n` is marked because of the record `b`
      at position `i`: a convolution without batch normalisation marks
      itself, a route or shortcut marks its normalised references. */
  predicate Marks(n: nat, i: nat, b: Block, j: nat) {
    || (b.Convolutional? && !b.batchNormalize && j == i)
    || exists r :: r in Refs(b) && PyIndex(n, Normalize(i, r)) == Some(j)
  }

  /** One successful step appends one module and one channel count, extends
      `routs` by the layer's contribution and counts yolo layers. */
  lemma StepShape(st: BuildState, i: nat, b: Block, imageSize: (int, int))
    requires st.outputFilters != []
    requires st.filters.None? || st.filters == Some(Last(st.outputFilters))
    requires Step(st, i, b, imageSize).Ok?
    ensures var st' := Step(st, i, b, imageSize).value;
      && |st'.modules| == |st.modules| + 1 && st'.modules[..|st.modules|] == st.modules
      && st'.outputFilters == st.outputFilters + [LayerChannels(b, st.outputFilters)]
      && st'.routs == st.routs + Contribution(i, b)
      && st'.yoloIndex == st.yoloIndex + (if b.Yolo? then 1 else 0)
  {
    var st' := Step(st, i, b, imageSize).value;
    assert st'.modules[..|st.modules|] == st.modules;
    match b
    case Convolutional(_, _, _, _, _, _, _, _) =>
    case Route(_) =>
    case Shortcut(_, _) =>
    case Yolo(_, _, _, _) =>
      assert st.filters.Some?;
    case _ =>
      assert st.filters.Some?;
  }

  /** The state after `k` layers is the prefix of the state after `n`. */
  lemma {:induction false} PrefixStable(channels: int, layers: seq<Block>, imageSize: (int, int), k: nat, n: nat)
    requires k <= n <= |layers|
    requires BuildPrefix(channels, layers, imageSize, n).Ok?
    ensures BuildPrefix(channels, layers, imageSize, k).Ok?
    ensures var a := BuildPrefix(channels, layers, imageSize, k).value;
            var b := BuildPrefix(channels, layers, imageSize, n).value;
            a.modules == b.modules[..k] && a.outputFilters == b.outputFilters[..k + 1]
  {
    if k < n {
      PrefixGrow(channels, layers, imageSize, n - 1);
      PrefixStable(channels, layers, imageSize, k, n - 1);
      var a := BuildPrefix(channels, layers, imageSize, k).value;
      var c := BuildPrefix(channels, layers, imageSize, n - 1).value;
      var b := BuildPrefix(channels, layers, imageSize, n).value;
      SliceOfSlice(a.modules, c.modules, b.modules, k, n - 1);
      SliceOfSlice(a.outputFilters, c.outputFilters, b.outputFilters, k + 1, n);
    }
  }

  /** One more layer keeps the modules and channel counts built so far. */
  lemma PrefixGrow(channels: int, layers: seq<Block>, imageSize: (int, int), k: nat)
    requires k < |layers|
    requires BuildPrefix(channels, layers, imageSize, k + 1).Ok?
    ensures BuildPrefix(channels, layers, imageSize, k).Ok?
    ensures var a := BuildPrefix(channels, layers, imageSize, k).value;
            var b := BuildPrefix(channels, layers, imageSize, k + 1).value;
            a.modules == b.modules[..k] && a.outputFilters == b.outputFilters[..k + 1]
  {
    PrefixStep(channels, layers, imageSize, k);
    var a := BuildPrefix(channels, layers, imageSize, k).value;
    StepShape(a, k, layers[k], imageSize);
  }

  /** `output_filters` starts with the input channel count and grows by
      exactly one entry per layer: a convolution's `filters`, a route's
      sum, and the previous entry for every other layer type. The first
      layer must be one that sets `filters`. */
  lemma OutputFilters(channels: int, layers: seq<Block>, imageSize: (int, int))
    requires BuildPrefix(channels, layers, imageSize, |layers|).Ok?
    ensures var of := BuildPrefix(channels, layers, imageSize, |layers|).value.outputFilters;
      && |of| == |layers| + 1
      && of[0] == channels
      && forall k :: 0 <= k < |layers| ==> of[k + 1] == LayerChannels(layers[k], of[..k + 1])
    ensures |layers| > 0 ==> layers[0].Convolutional? || layers[0].Route? || layers[0].Shortcut?
  {
    var of := BuildPrefix(channels, layers, imageSize, |layers|).value.outputFilters;
    forall k | 0 <= k < |layers|
      ensures of[k + 1] == LayerChannels(layers[k], of[..k + 1])
    {
      OutputFilterAt(channels, layers, imageSize, k);
    }
    if |layers| > 0 {
      PrefixStable(channels, layers, imageSize, 1, |layers|);
      FirstLayer(channels, layers, imageSize);
    }
  }

  /** Unfolds one step of the builder. */
  lemma PrefixStep(channels: int, layers: seq<Block>, imageSize: (int, int), k: nat)
    requires k < |layers|
    requires BuildPrefix(channels, layers, imageSize, k + 1).Ok?
    ensures BuildPrefix(channels, layers, imageSize, k).Ok?
    ensures BuildPrefix(channels, layers, imageSize, k + 1) ==
            Step(BuildPrefix(channels, layers, imageSize, k).value, k, layers[k], imageSize)
    ensures var st := BuildPrefix(channels, layers, imageSize, k).value;
            st.filters.None? || st.filters == Some(Last(st.outputFilters))
  {
    if k == 0 {
      assert BuildPrefix(channels, layers, imageSize, 0) == Ok(Initial(channels));
    }
  }

  lemma FirstLayer(channels: int, layers: seq<Block>, imageSize: (int, int))
    requires 0 < |layers|
    requires BuildPrefix(channels, layers, imageSize, 1).Ok?
    ensures layers[0].Convolutional? || layers[0].Route? || layers[0].Shortcut?
  {
    PrefixStep(channels, layers, imageSize, 0);
  }

  /** The final module and channel counts at layer `k` are the ones the
      step for layer `k` produced from the state before it. */
  lemma ModuleSettled(channels: int, layers: seq<Block>, imageSize: (int, int), k: nat)
    requires k < |layers|
    requires BuildPrefix(channels, layers, imageSize, |layers|).Ok?
    ensures BuildPrefix(channels, layers, imageSize, k).Ok?
    ensures var prev := BuildPrefix(channels, layers, imageSize, k).value;
            var fin := BuildPrefix(channels, layers, imageSize, |layers|).value;
      && (prev.filters.None? || prev.filters == Some(Last(prev.outputFilters)))
      && Step(prev, k, layers[k], imageSize).Ok?
      && |prev.modules| == k
      && fin.modules[k] == Step(prev, k, layers[k], imageSize).value.modules[k]
      && fin.outputFilters[..k + 2] == Step(prev, k, layers[k], imageSize).value.outputFilters
      && prev.outputFilters == fin.outputFilters[..k + 1]
  {
    PrefixStable(channels, layers, imageSize, k + 1, |layers|);
    PrefixGrow(channels, layers, imageSize, k);
    PrefixStep(channels, layers, imageSize, k);
    var fin := BuildPrefix(channels, layers, imageSize, |layers|).value;
    var next := BuildPrefix(channels, layers, imageSize, k + 1).value;
    var prev := BuildPrefix(channels, layers, imageSize, k).value;
    SliceOfSlice(prev.outputFilters, next.outputFilters, fin.outputFilters, k + 1, k + 2);
    assert next.modules[k] == fin.modules[..k + 1][k];
  }

  lemma OutputFilterAt(channels: int, layers: seq<Block>, imageSize: (int, int), k: nat)
    requires k < |layers|
    requires BuildPrefix(channels, layers, imageSize, |layers|).Ok?
    ensures var of := BuildPrefix(channels, layers, imageSize, |layers|).value.outputFilters;
            of[k + 1] == LayerChannels(layers[k], of[..k + 1])
  {
    ModuleSettled(channels, layers, imageSize, k);
    var prev := BuildPrefix(channels, layers, imageSize, k).value;
    var of := BuildPrefix(channels, layers, imageSize, |layers|).value.outputFilters;
    StepShape(prev, k, layers[k], imageSize);
    var next := Step(prev, k, layers[k], imageSize).value;
    assert of[k + 1] == of[..k + 2][k + 1] == next.outputFilters[k + 1];
  }


  /** The channel count a route declares, reference by reference: a
      reference other than 0 counts the output channels of the layer it
      normalises to (entry `Normalize(k, r) + 1`), while an absolute 0
      reads entry 0, the input channel count. */
  function RefChannels(outputFilters: seq<int>, k: nat, refs: seq<int>): int
    requires |outputFilters| == k + 1
    requires forall r :: r in refs ==> -(k as int) - 1 <= r <= 0 || 0 < r < k
  {
    if refs == [] then 0
    else
      var r := refs[0];
      assert r in refs;
      assert forall x :: x in refs[1..] ==> x in refs;
      var at := if r == 0 then 0 else Normalize(k, r) + 1;
      outputFilters[at] + RefChannels(outputFilters, k, refs[1..])
  }

  lemma {:induction false} RouteFiltersSum(outputFilters: seq<int>, k: nat, refs: seq<int>)
    requires |outputFilters| == k + 1
    requires RouteFilters(outputFilters, refs).Some?
    ensures forall r :: r in refs ==> -(k as int) - 1 <= r <= 0 || 0 < r < k
    ensures RouteFilters(outputFilters, refs) == Some(RefChannels(outputFilters, k, refs))
  {
    if refs != [] {
      RouteFiltersSum(outputFilters, k, refs[1..]);
      assert forall x :: x in refs ==> x == refs[0] || x in refs[1..];
    }
  }

  /** A route's declared channel count is the sum of the counts of the
      layers it references; a single `-1` reference repeats the previous
      entry, and a single absolute `0` reads the input channel count
      rather than layer 0's. */
  lemma RouteChannels(channels: int, layers: seq<Block>, imageSize: (int, int), k: nat)
    requires BuildPrefix(channels, layers, imageSize, |layers|).Ok?
    requires k < |layers| && layers[k].Route?
    ensures var of := BuildPrefix(channels, layers, imageSize, |layers|).value.outputFilters;
      && (forall r :: r in layers[k].layers ==> -(k as int) - 1 <= r <= 0 || 0 < r < k)
      && of[k + 1] == RefChannels(of[..k + 1], k, layers[k].layers)
      && (layers[k].layers == [-1] ==> of[k + 1] == of[k])
      && (layers[k].layers == [0] ==> of[k + 1] == channels)
  {
    ModuleSettled(channels, layers, imageSize, k);
    OutputFilterAt(channels, layers, imageSize, k);
    var of := BuildPrefix(channels, layers, imageSize, |layers|).value.outputFilters;
    var prev := BuildPrefix(channels, layers, imageSize, k).value;
    assert RouteFilters(prev.outputFilters, layers[k].layers).Some?;
    RouteFiltersSum(of[..k + 1], k, layers[k].layers);
    assert of[..k + 1][k] == of[k] && of[..k + 1][0] == of[0];
  }


  /** A convolution's module: a Conv2d whose input channels default to the
      previous count, whose padding is `(size - 1) // 2` when `pad` is set
      and 0 otherwise, and which has a bias exactly when batch
      normalisation is off; a BatchNorm2d follows exactly when it is on. */
  lemma ConvModule(channels: int, layers: seq<Block>, imageSize: (int, int), k: nat)
    requires BuildPrefix(channels, layers, imageSize, |layers|).Ok?
    requires k < |layers| && layers[k].Convolutional?
    ensures var st := BuildPrefix(channels, layers, imageSize, |layers|).value;
            var c := layers[k];
      && st.modules[k].Sequential?
      && |st.modules[k].units| >= 1
      && st.modules[k].units[0] ==
           Conv2d(c.inFeatures.GetOr(st.outputFilters[k]), c.filters, c.size, c.strides,
                  if c.pad then (c.size - 1) / 2 else 0, c.convGroups.GetOr(1), !c.batchNormalize)
      && (c.batchNormalize <==> |st.modules[k].units| >= 2 && st.modules[k].units[1] == BatchNorm2d(c.filters))
      && st.outputFilters[k + 1] == c.filters
  {
    ModuleSettled(channels, layers, imageSize, k);
    var prev := BuildPrefix(channels, layers, imageSize, k).value;
    var st := BuildPrefix(channels, layers, imageSize, |layers|).value;
    var next := Step(prev, k, layers[k], imageSize).value;
    assert next.modules == prev.modules + [Sequential(ConvUnits(layers[k], Last(prev.outputFilters)))];
    assert next.outputFilters == prev.outputFilters + [layers[k].filters];
    assert st.outputFilters[k] == Last(prev.outputFilters);
    assert st.outputFilters[k + 1] == next.outputFilters[k + 1];
  }


  /** The module one successful step appends, by record type. */
  lemma StepModule(st: BuildState, i: nat, b: Block, imageSize: (int, int))
    requires st.outputFilters != []
    requires Step(st, i, b, imageSize).Ok?
    ensures |Step(st, i, b, imageSize).value.modules| == |st.modules| + 1
    ensures var m := Step(st, i, b, imageSize).value.modules[|st.modules|];
      && (b.Convolutional? ==> m == Sequential(ConvUnits(b, Last(st.outputFilters))))
      && (b.Dense? ==> m == Sequential(DenseUnits(b.batchNormalize, b.denseIn, b.denseOut)))
      && (b.MaxPool? ==> m == MaxPoolModule(b.size, b.stride))
      && (b.AvgPool? ==> m == Sequential([AvgPool2d(b.size, b.stride, (b.size - 1) / 2)]))
      && (b.SeModule? ==> m == Sequential([SqueezeExcite(b.channels)]))
      && (b.Shuffle? ==> m == Sequential([ShuffleBlock(b.groups)]))
      && (b.Route? || b.Unrecognized? || b.Net? ==> m == Sequential([]))
      && (b.Shortcut? ==> m == FeatureFusion(b.from, b.weighted))
      && (b.Upsample? ==> m == Single(Upsampler(b.stride)))
      && (b.Yolo? ==> m.YoloHead?)
  {
    if b.Route? {
      assert RouteFilters(st.outputFilters, b.layers).Some?;
    }
    if b.Yolo? {
      assert SelectAnchors(b.anchors, b.mask).Some?;
    }
  }

  /** Every layer record gets a module: the kernel-2 stride-1 max-pool gets
      the right/bottom zero pad, a route and an unrecognized record get an
      empty container, a shortcut a fusion unit over its `from` list. */
  lemma LayerModules(channels: int, layers: seq<Block>, imageSize: (int, int), k: nat)
    requires BuildPrefix(channels, layers, imageSize, |layers|).Ok?
    requires k < |layers|
    ensures var m := BuildPrefix(channels, layers, imageSize, |layers|).value.modules[k];
      && (layers[k].MaxPool? ==>
            var p := MaxPool2d(layers[k].size, layers[k].stride, (layers[k].size - 1) / 2);
            m == if layers[k].size == 2 && layers[k].stride == 1
                 then Sequential([ZeroPad2d(0, 1, 0, 1), p]) else Single(p))
      && (layers[k].Route? || layers[k].Unrecognized? || layers[k].Net? ==> m == Sequential([]))
      && (layers[k].Shortcut? ==> m == FeatureFusion(layers[k].from, layers[k].weighted))
      && (layers[k].Upsample? ==> m == Single(Upsampler(layers[k].stride)))
      && (layers[k].Yolo? ==> m.YoloHead?)
  {
    ModuleSettled(channels, layers, imageSize, k);
    var prev := BuildPrefix(channels, layers, imageSize, k).value;
    StepModule(prev, k, layers[k], imageSize);
  }



  /** `routs` holds exactly the contributions of the layers seen so far. */
  lemma {:induction false} RoutsCollected(channels: int, layers: seq<Block>, imageSize: (int, int), k: nat)
    requires k <= |layers|
    requires BuildPrefix(channels, layers, imageSize, k).Ok?
    ensures forall x :: x in BuildPrefix(channels, layers, imageSize, k).value.routs <==>
                        exists i :: 0 <= i < k && x in Contribution(i, layers[i])
  {
    if k > 0 {
      PrefixStep(channels, layers, imageSize, k - 1);
      var prev := BuildPrefix(channels, layers, imageSize, k - 1).value;
      RoutsCollected(channels, layers, imageSize, k - 1);
      StepShape(prev, k - 1, layers[k - 1], imageSize);
      var r := BuildPrefix(channels, layers, imageSize, k).value.routs;
      var last := Contribution(k - 1, layers[k - 1]);
      assert r == prev.routs + last;
      forall x
        ensures x in r <==> exists i :: 0 <= i < k && x in Contribution(i, layers[i])
      {
        if x in last {
          assert 0 <= k - 1 < k && x in Contribution(k - 1, layers[k - 1]);
        } else if exists i :: 0 <= i < k && x in Contribution(i, layers[i]) {
          var i :| 0 <= i < k && x in Contribution(i, layers[i]);
          assert i < k - 1;
        }
      }
    }
  }


  /** A layer index occurs in a contribution exactly when the contributing
      record marks it. */
  lemma ContributionMarks(n: nat, i: nat, b: Block, j: nat)
    requires i < n && j < n
    ensures (exists x :: x in Contribution(i, b) && PyIndex(n, x) == Some(j)) <==> Marks(n, i, b, j)
  {
    match b
    case Route(refs) =>
      if exists x :: x in Contribution(i, b) && PyIndex(n, x) == Some(j) {
        var x :| x in Contribution(i, b) && PyIndex(n, x) == Some(j);
        var m :| 0 <= m < |refs| && NormalizeAll(i, refs)[m] == x;
        assert refs[m] in Refs(b);
      }
      if Marks(n, i, b, j) {
        var r :| r in Refs(b) && PyIndex(n, Normalize(i, r)) == Some(j);
        var m :| 0 <= m < |refs| && refs[m] == r;
        assert NormalizeAll(i, refs)[m] in Contribution(i, b);
      }
    case Shortcut(from, _) =>
      if exists x :: x in Contribution(i, b) && PyIndex(n, x) == Some(j) {
        var x :| x in Contribution(i, b) && PyIndex(n, x) == Some(j);
        var m :| 0 <= m < |from| && NormalizeAll(i, from)[m] == x;
        assert from[m] in Refs(b);
      }
      if Marks(n, i, b, j) {
        var r :| r in Refs(b) && PyIndex(n, Normalize(i, r)) == Some(j);
        var m :| 0 <= m < |from| && from[m] == r;
        assert NormalizeAll(i, from)[m] in Contribution(i, b);
      }
    case Convolutional(bn, _, _, _, _, _, _, _) =>
      if !bn && j == i {
        assert i in Contribution(i, b);
      }
    case _ =>
  }

  /** The routed mask has one entry per layer and is true exactly at the
      non-batch-normalised convolutions and at the (normalised) targets of
      route and shortcut references. */
  lemma RoutedMask(channels: int, layers: seq<Block>, imageSize: (int, int))
    requires BuildLayersSpec(channels, layers, imageSize).Ok?
    ensures var b := BuildLayersSpec(channels, layers, imageSize).value;
      && |b.routs| == |b.modules| == |layers|
      && forall j :: 0 <= j < |layers| ==>
           (b.routs[j] <==> exists i :: 0 <= i < |layers| && Marks(|layers|, i, layers[i], j))
  {
    var n := |layers|;
    var st := BuildPrefix(channels, layers, imageSize, n).value;
    var b := BuildLayersSpec(channels, layers, imageSize).value;
    RoutsCollected(channels, layers, imageSize, n);
    forall j | 0 <= j < n
      ensures b.routs[j] <==> exists i :: 0 <= i < n && Marks(n, i, layers[i], j)
    {
      assert b.routs[j] <==> exists x :: x in st.routs && PyIndex(n, x) == Some(j);
      if exists x :: x in st.routs && PyIndex(n, x) == Some(j) {
        var x :| x in st.routs && PyIndex(n, x) == Some(j);
        var i :| 0 <= i < n && x in Contribution(i, layers[i]);
        ContributionMarks(n, i, layers[i], j);
      }
      if exists i :: 0 <= i < n && Marks(n, i, layers[i], j) {
        var i :| 0 <= i < n && Marks(n, i, layers[i], j);
        ContributionMarks(n, i, layers[i], j);
        var x :| x in Contribution(i, layers[i]) && PyIndex(n, x) == Some(j);
        assert x in st.routs;
      }
    }
  }

  /** Every layer a route reads, resolved the way the executor resolves it
      (Python indexing into the `i` outputs before layer `i`), is routed. */
  predicate RouteReadsRouted(defs: seq<Block>, routs: seq<bool>)
    requires |routs| == |defs|
  {
    forall i, r :: 0 <= i < |defs| && defs[i].Route? && r in defs[i].layers && PyIndex(i, r).Some? ==>
      routs[PyIndex(i, r).value]
  }

  /** The builder marks every layer a route can read, so the executor never
      reads a placeholder through a route of a built graph. */
  lemma BuiltRoutesReadRouted(channels: int, layers: seq<Block>, imageSize: (int, int))
    requires BuildLayersSpec(channels, layers, imageSize).Ok?
    ensures RouteReadsRouted(layers, BuildLayersSpec(channels, layers, imageSize).value.routs)
  {
    var b := BuildLayersSpec(channels, layers, imageSize).value;
    var n := |layers|;
    RoutedMask(channels, layers, imageSize);
    forall i, r | 0 <= i < n && layers[i].Route? && r in layers[i].layers && PyIndex(i, r).Some?
      ensures b.routs[PyIndex(i, r).value]
    {
      var j := PyIndex(i, r).value;
      assert Normalize(i, r) == j;
      assert PyIndex(n, Normalize(i, r)) == Some(j);
      assert r in Refs(layers[i]);
      assert Marks(n, i, layers[i], j);
    }
  }

  /** The yolo index after `k` layers is one less than the number of yolo
      records among them. */
  lemma {:induction false} YoloIndexCounts(channels: int, layers: seq<Block>, imageSize: (int, int), k: nat)
    requires k <= |layers|
    requires BuildPrefix(channels, layers, imageSize, k).Ok?
    ensures BuildPrefix(channels, layers, imageSize, k).value.yoloIndex == |GetYoloLayers(layers[..k])| - 1
  {
    if k == 0 {
      assert layers[..0] == [];
    } else {
      PrefixStep(channels, layers, imageSize, k - 1);
      var prev := BuildPrefix(channels, layers, imageSize, k - 1).value;
      YoloIndexCounts(channels, layers, imageSize, k - 1);
      StepShape(prev, k - 1, layers[k - 1], imageSize);
      YoloLayersOfPrefix(layers, k - 1);
    }
  }

  /** The yolo positions of a prefix begin the yolo positions of the whole. */
  lemma {:induction false} YoloLayersPrefix(defs: seq<Block>, k: nat)
    requires k <= |defs|
    ensures |GetYoloLayers(defs[..k])| <= |GetYoloLayers(defs)|
    ensures GetYoloLayers(defs[..k]) == GetYoloLayers(defs)[..|GetYoloLayers(defs[..k])|]
  {
    if k < |defs| {
      YoloLayersPrefix(defs[..|defs| - 1], k);
      assert defs[..|defs| - 1][..k] == defs[..k];
    } else {
      assert defs[..k] == defs;
    }
  }

  /** The head a yolo record at position `k` gets. */
  lemma YoloHeadAt(channels: int, layers: seq<Block>, imageSize: (int, int), k: nat)
    requires BuildPrefix(channels, layers, imageSize, |layers|).Ok?
    requires k < |layers| && layers[k].Yolo?
    ensures var m := BuildPrefix(channels, layers, imageSize, |layers|).value.modules[k];
      && m.YoloHead?
      && m.head.index == |GetYoloLayers(layers[..k])|
      && m.head.NumAnchors() == |layers[k].mask|
      && m.head.nc == layers[k].classes
  {
    ModuleSettled(channels, layers, imageSize, k);
    YoloIndexCounts(channels, layers, imageSize, k);
    var prev := BuildPrefix(channels, layers, imageSize, k).value;
    var sel := SelectAnchors(layers[k].anchors, layers[k].mask);
    assert sel.Some?;
    assert Step(prev, k, layers[k], imageSize).value.modules[k] ==
      YoloHead(HeadConfig(sel.value, layers[k].classes, imageSize, prev.yoloIndex + 1,
                          layers[k].yoloFrom.GetOr([])));
  }


  /** Position `m` of a strictly increasing list is the number of yolo
      records before the record it names. */
  lemma YoloRank(defs: seq<Block>, m: nat)
    requires m < |GetYoloLayers(defs)|
    ensures |GetYoloLayers(defs[..GetYoloLayers(defs)[m]])| == m
  {
    var ys := GetYoloLayers(defs);
    var k := ys[m];
    YoloLayersOfPrefix(defs, k);
    YoloLayersPrefix(defs, k + 1);
    var before := GetYoloLayers(defs[..k]);
    assert ys[|before|] == k;
    forall a, c | 0 <= a < |ys| && 0 <= c < |ys| && a != c
      ensures ys[a] != ys[c]
    {
      if a < c { assert ys[a] < ys[c]; } else { assert ys[c] < ys[a]; }
    }
  }

  /** The m-th yolo record (in order) gets the head numbered m, with as many
      anchors as its mask selects and `nc + 5` outputs per anchor. */
  lemma YoloHeadsNumbered(channels: int, layers: seq<Block>, imageSize: (int, int))
    requires BuildPrefix(channels, layers, imageSize, |layers|).Ok?
    ensures var ys := GetYoloLayers(layers);
            var ms := BuildPrefix(channels, layers, imageSize, |layers|).value.modules;
      forall m :: 0 <= m < |ys| ==>
        && ms[ys[m]].YoloHead?
        && ms[ys[m]].head.index == m
        && ms[ys[m]].head.NumAnchors() == |layers[ys[m]].mask|
        && ms[ys[m]].head.nc == layers[ys[m]].classes
        && ms[ys[m]].head.NumOutputs() == layers[ys[m]].classes + 5
  {
    var ys := GetYoloLayers(layers);
    forall m | 0 <= m < |ys|
      ensures var h := BuildPrefix(channels, layers, imageSize, |layers|).value.modules[ys[m]];
              h.YoloHead? && h.head.index == m
    {
      YoloHeadAt(channels, layers, imageSize, ys[m]);
      YoloRank(layers, m);
    }
    forall m | 0 <= m < |ys|
      ensures var h := BuildPrefix(channels, layers, imageSize, |layers|).value.modules[ys[m]];
              h.YoloHead? && h.head.NumAnchors() == |layers[ys[m]].mask| && h.head.nc == layers[ys[m]].classes
    {
      YoloHeadAt(channels, layers, imageSize, ys[m]);
    }
  }

  /** A failed bias initialisation never stops the build: a yolo record
      fails the build only for a bad anchor mask or an unset `filters`. */
  lemma YoloFailures(channels: int, layers: seq<Block>, imageSize: (int, int), k: nat)
    requires k < |layers| && layers[k].Yolo?
    requires BuildPrefix(channels, layers, imageSize, k).Ok?
    ensures var r := BuildPrefix(channels, layers, imageSize, k + 1);
      r.Err? <==> (SelectAnchors(layers[k].anchors, layers[k].mask).None? || k == 0)
  {
    if k > 0 {
      assert BuildPrefix(channels, layers, imageSize, k).value.filters.Some?;
    }
  }

  /** On the usual configuration, where the head follows a biased
      convolution with `na * no` filters, the intended initialisation takes
      effect, while the block as written raises at the in-place update and
      only the warning is printed. */
  lemma BiasInitStandardHead(cfg: HeadConfig, modules: seq<Module>, conv: Unit, rest: seq<Unit>)
    requires cfg.nc >= 1 && |cfg.anchors| > 0
    requires modules != [] && Last(modules) == Sequential([conv] + rest)
    requires conv.Conv2d? && conv.bias && conv.outChannels == cfg.NumOutputs() * cfg.NumAnchors()
    ensures BiasInitApplies(cfg, None, modules)
    ensures BiasInitAsWritten(cfg, None, modules) == LeafViewInPlace
  {
    var na := cfg.NumAnchors();
    var no := cfg.NumOutputs();
    assert BiasInitTarget(None, cfg.index, modules) == Some(|modules| - 1);
    assert ([conv] + rest)[0] == conv;
    MulDiv(no, na);
  }

  /** `(q * d) / d == q` and `(q * d) % d == 0` for a positive `d`. */
  lemma MulDiv(q: nat, d: nat)
    requires d > 0
    ensures (q * d) % d == 0 && (q * d) / d == q
  {
    var n := q * d;
    var k := n / d;
    var m := n % d;
    assert n == k * d + m;
    if k < q {
      MulMono(1, q - k, d);
    }
  }
}
