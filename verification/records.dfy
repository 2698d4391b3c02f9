/** The ordered records of an architecture description, as the parser hands
    them to the graph builder: the first record holds the network's
    hyper-parameters, every later record describes one layer. */
module Records {

  import opened Common

  /** An anchor box template (width, height) in input pixels. */
  datatype Anchor = Anchor(w: int, h: int)

  /** A convolution's stride: one value, or a (stride_y, stride_x) pair when
      the record has no `stride` key. */
  datatype Stride = Stride(both: int) | StrideYX(y: int, x: int)

  /** One record. Optional keys of the description are `Option` fields;
      a record whose `type` the builder does not know is `Unrecognized`. */
  datatype Block =
    | Net(channels: int)
    | Convolutional(batchNormalize: bool, inFeatures: Option<int>, filters: int, size: int,
                    strides: Stride, convGroups: Option<int>, pad: bool, activation: string)
    | MaxPool(size: int, stride: int)
    | AvgPool(size: int, stride: int)
    | SeModule(channels: int)
    | Shuffle(groups: int)
    | Dense(batchNormalize: bool, denseIn: int, denseOut: int)
    | Upsample(stride: int)
    | Route(layers: seq<int>)
    | Shortcut(from: seq<int>, weighted: bool)
    | Yolo(anchors: seq<Anchor>, mask: seq<int>, classes: nat, yoloFrom: Option<seq<int>>)
    | Unrecognized(typeName: string)

  /** The back-references a route or shortcut record names (`layers` /
      `from`); no other record type contributes references to the builder. */
  function Refs(b: Block): seq<int> {
    match b
    case Route(layers) => layers
    case Shortcut(from, _) => from
    case _ => []
  }

  /** A back-reference made absolute: `-k` at layer `i` means `i - k`. */
  function Normalize(i: int, ref: int): int {
    if ref < 0 then i + ref else ref
  }

  /** The positions of the yolo records, in increasing order
      (the model's `get_yolo_layers`). */
  function GetYoloLayers(defs: seq<Block>): (r: seq<nat>)
    ensures forall m :: 0 <= m < |r| ==> r[m] < |defs| && defs[r[m]].Yolo?
    ensures forall m, n :: 0 <= m < n < |r| ==> r[m] < r[n]
    ensures forall i :: 0 <= i < |defs| && defs[i].Yolo? ==> i in r
  {
    if defs == [] then []
    else
      var front := GetYoloLayers(defs[..|defs| - 1]);
      assert forall i :: 0 <= i < |defs| - 1 ==> defs[..|defs| - 1][i] == defs[i];
      if Last(defs).Yolo? then front + [|defs| - 1] else front
  }

  /** Counting the yolo records of a prefix one at a time. */
  lemma {:induction false} YoloLayersOfPrefix(defs: seq<Block>, k: nat)
    requires k < |defs|
    ensures GetYoloLayers(defs[..k + 1]) ==
      GetYoloLayers(defs[..k]) + (if defs[k].Yolo? then [k] else [])
  {
    assert defs[..k + 1][..k] == defs[..k];
  }
}
