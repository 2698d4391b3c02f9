/** The executable units the graph builder produces. Their numeric
    behaviour (convolution, normalisation, activation, pooling, resampling)
    lies outside the model: a unit is only the record of how it was
    configured. */
module Units {

  import opened Common
  import opened Records

  /** The activations the builder selects by name. */
  datatype Activation = LeakyReLU | ReLU | ReLU6 | Swish | Mish | HSwish | HSigmoid

  /** The activation a convolution record's `activation` name selects; any
      other name (such as "linear") adds no activation. */
  function ActivationFor(name: string): (r: Option<Activation>)
    ensures r.Some? <==> name in ["leaky", "relu", "relu6", "swish", "mish", "hswish", "hsigmoid"]
    ensures r == Some(LeakyReLU) <==> name == "leaky"
  {
    if name == "leaky" then Some(LeakyReLU)
    else if name == "relu" then Some(ReLU)
    else if name == "relu6" then Some(ReLU6)
    else if name == "swish" then Some(Swish)
    else if name == "mish" then Some(Mish)
    else if name == "hswish" then Some(HSwish)
    else if name == "hsigmoid" then Some(HSigmoid)
    else None
  }

  datatype Unit =
    | Conv2d(inChannels: int, outChannels: int, kernel: int, strides: Stride,
             padding: int, groups: int, bias: bool)
    | BatchNorm2d(features: int)
    | Act(kind: Activation)
    | ZeroPad2d(left: int, right: int, top: int, bottom: int)
    | MaxPool2d(kernel: int, stride: int, padding: int)
    | AvgPool2d(kernel: int, stride: int, padding: int)
    | SqueezeExcite(channels: int)
    | ShuffleBlock(groups: int)
    | Linear(inFeatures: int, outFeatures: int, bias: bool)
    | Upsampler(scale: int)
    /** What folding a normalisation into the unit before it yields; the
        folding arithmetic itself is not modelled. */
    | FusedConvBn(conv: Unit, norm: Unit)

  /** The configuration a detection head is constructed with. */
  datatype HeadConfig = HeadConfig(anchors: seq<Anchor>, nc: nat, imageSize: (int, int),
                                   index: int, layers: seq<int>)
  {
    /** Number of anchors. */
    function NumAnchors(): nat { |anchors| }
    /** Outputs per anchor: four box parameters, objectness, one score per class. */
    function NumOutputs(): nat { nc + 5 }
  }

  /** One entry of the module list: a sequential container of units (the
      empty container stands for route and unrecognized layers), a bare
      unit, a feature-fusion (shortcut) unit, or a detection head. */
  datatype Module =
    | Sequential(units: seq<Unit>)
    | Single(unit: Unit)
    | FeatureFusion(layers: seq<int>, weightedFusion: bool)
    | YoloHead(head: HeadConfig)
}
