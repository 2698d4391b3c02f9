# Darknet graph builder, executor and YOLO head

This project models the core of the Darknet/YOLO model definition in
`easydet/model/module/layer.py`. The core has five parts:

- **The graph builder, `create_modules`.** It pops the hyper-parameter record
  and walks the layer records in order. For each record it builds one module
  and records one output channel count. It collects the indices of the layers
  that later layers read, numbers the YOLO heads, and finally turns the
  collected indices into a boolean "routed" mask.
- **The executor, `Darknet.forward`.** It runs the modules in order. Layers
  that carry a kernel (convolutional, upsample, maxpool) transform the current
  tensor. A shortcut fuses the current tensor with the history. A route either
  takes one earlier output or concatenates several along the channel axis. In
  the concatenating case, on failure it halves the second referenced output in
  place (the "reorg" fallback) and tries again. A YOLO layer appends the
  head's output to the result list. After every layer the history keeps the
  tensor only when that layer is routed, and a placeholder otherwise.
- **The fusion pass, `Darknet.fuse`.** In every sequential container it
  folds the first batch normalisation into the unit just before it. The units
  after the normalisation are kept.
- **The detection head, `YOLOLayer`.** Its counts are `na` anchors and
  `no = nc + 5` outputs per anchor. It caches the grid and rebuilds it exactly
  when the resolution changes. It reshapes a `(bs, na*no, ny, nx)` prediction
  map into `(bs, na, ny, nx, no)`. Outside training it also decodes the map and
  flattens it to `(bs, na*ny*nx, no)`.
- **`get_yolo_layers`.**

How each part is modelled:

- The builder is a step function over the loop variables, `Builder.Step` and
  `Builder.BuildPrefix`. Its loop is `Builder.BuildLayers`, proved equal to it.
  Every Python exception the builder can raise is an `Err` value, not a
  precondition: an empty configuration, missing channels, an unbound
  `filters`, an out-of-range route, mask or routed index, and no layers at all.
- The executor works over symbolic tensors that carry only their shape and how
  they were produced. The kernels, the feature fusion and the head call are
  function parameters (`Graph.Kernels`). `Graph.Darknet.Forward` is the loop,
  proved equal to the step function `Graph.ExecPrefix`.
- The head's tensors are nested sequences, and the element-wise box decoding
  is a function parameter. A `view` that raises gives `None`: the first
  view when the channel count does not fit, and the inference view
  `view(bs, -1, no)` on an empty batch. Joining the heads' outputs fails
  without heads or when their batch sizes or widths differ.

The code has these behaviours, and the model keeps each of them:

- A positive route reference `r` reads `output_filters[r + 1]`, but reference
  `0` reads `output_filters[0]`. That entry is the input channel count, not the
  count of layer 0 (`BuilderProperties.RouteChannels`).
- Layer types that do not assign `filters` reuse the last value assigned. When
  the first layer is of such a type, the build fails
  (`BuilderProperties.FirstLayer`).
- The fusion pass folds the normalisation at position `i` with the unit at
  Python index `i - 1`. That is the last unit when `i` is 0. The units before
  `i - 1` are dropped.
- The route fallback halves the second referenced output in place, in the
  history. Later layers see the halved tensor.

## Model

| member | source | states |
|---|---|---|
| Common.PyIndex | easydet/model/module/layer.py:184-186 | Python list indexing: defined exactly for `-len <= k < len`; non-negative `k` is `k` itself, negative `k` counts from the end |
| Records.GetYoloLayers | easydet/model/module/layer.py:354-356 | the result lists positions of yolo records only, in strictly increasing order, and lists every yolo record |
| Records.YoloLayersOfPrefix | easydet/model/module/layer.py:354-356 | extending the record list by one record extends the yolo positions by that record's index exactly when it is a yolo record |
| Builder.NormalizeAll | easydet/model/module/layer.py:136-137 | every route/shortcut reference is made absolute one by one (`i + r` for negative `r`), same length |
| Builder.SelectAnchors | easydet/model/module/layer.py:152 | `anchors[mask]` succeeds exactly when every mask entry is a valid Python index; then position `m` holds the anchor at Python index `mask[m]`, one per mask entry |
| Builder.RouteFilters | easydet/model/module/layer.py:135-136 | the route's channel sum succeeds exactly when every reference's slot of `output_filters` (one past a positive reference, the reference itself otherwise) is a valid Python index |
| Builder.ConvUnits | easydet/model/module/layer.py:47-83 | a convolutional record's container: one `Conv2d` first, with the record's filters, inherited input channels, `(size-1)//2` padding when padded and a bias iff not normalised; a `BatchNorm2d(filters)` second iff normalised; the named activation last when the name is known; no other convolution |
| Builder.MaxPoolModule | easydet/model/module/layer.py:85-94 | a max-pool record gives a bare `MaxPool2d` with `(size-1)//2` padding, except kernel 2 with stride 1, which gives a container that pads one zero column and row first |
| Units.ActivationFor | easydet/model/module/layer.py:70-83 | exactly the seven names `leaky`, `relu`, `relu6`, `swish`, `mish`, `hswish`, `hsigmoid` add an activation, and `leaky` selects the leaky ReLU |
| Builder.BiasInitApplies | easydet/model/module/layer.py:159-175 | the corrected bias initialisation takes effect exactly when the block as written gets as far as its in-place update, i.e. no earlier statement raises |
| BuilderProperties.BiasInitStandardHead | easydet/model/module/layer.py:159-175 | on a head that follows a biased convolution with `na * no` filters and at least one class, the corrected initialisation takes effect, while the block as written raises at `bias[:, 4] += ...` |
| Builder.BuildPrefix | easydet/model/module/layer.py:39-182 | after `k` layers, a successful build has `k` modules and `k + 1` channel counts, the first being the input channels, and `filters` holds the last count |
| Builder.Step | easydet/model/module/layer.py:44-182 | one successful loop iteration appends exactly one module and one channel count, keeps the input channel count first, and leaves `filters` equal to the count it appended |
| Builder.MarkRouts | easydet/model/module/layer.py:184-186 | the mask keeps its length; it succeeds exactly when every routed index is valid; entry `j` is true iff it was true before or some routed index addresses `j` |
| Builder.BuildLayersSpec | easydet/model/module/layer.py:39-187 | the build succeeds iff every layer builds, at least one layer exists and every collected routed index is a valid index; then module list and mask have one entry per layer |
| Builder.Build | easydet/model/module/layer.py:35-187 | success needs a hyper-parameter record followed by at least one layer; the module list and mask have one entry per layer record |
| Builder.ErrorPersists | easydet/model/module/layer.py:44-182 | once a layer raises, the build result stays that error whatever follows |
| Builder.BlockList.PopFront | easydet/model/module/layer.py:38 | `pop(0)` returns the first record and removes it from the caller's list; on an empty list it fails |
| Builder.CreateModules | easydet/model/module/layer.py:35-187 | the caller's record list loses its first record, and the result equals the build specification on the original list |
| Builder.BuildLayers | easydet/model/module/layer.py:39-187 | the builder loop computes exactly the build specification |
| Builder.LayerStep | easydet/model/module/layer.py:44-182 | the body of the builder loop for one record, with its branch per layer type, its raises and its two appends, computes exactly one step |
| Builder.MarkRouted | easydet/model/module/layer.py:184-187 | the marking loop computes the all-false mask marked at every routed index |
| BuilderProperties.StepShape | easydet/model/module/layer.py:180-182 | each successful layer step appends one module, keeps earlier modules, appends the layer's channel count, extends `routs` by the layer's contribution and counts yolo layers |
| BuilderProperties.PrefixStable | easydet/model/module/layer.py:44-182 | a longer successful build contains every shorter build's modules and channel counts as prefixes |
| BuilderProperties.PrefixGrow | easydet/model/module/layer.py:180-182 | a successful build of `k + 1` layers extends the build of `k` layers by one module and one channel count |
| BuilderProperties.ModuleSettled | easydet/model/module/layer.py:44-182 | in a successful build, module `k` and channel count `k + 1` are the ones the step for layer `k` produced from the build of the first `k` layers, and later layers do not change them |
| BuilderProperties.OutputFilters | easydet/model/module/layer.py:180-182 | channel count `k + 1` is layer `k`'s declared count given the counts before it; the first layer is a convolution, route or shortcut |
| BuilderProperties.PrefixStep | easydet/model/module/layer.py:44-182 | a successful build of `k + 1` layers is one step after a successful build of `k` |
| BuilderProperties.FirstLayer | easydet/model/module/layer.py:180-182 | a first layer of a type that sets no `filters` cannot build |
| BuilderProperties.OutputFilterAt | easydet/model/module/layer.py:180-182 | channel count `k + 1` is layer `k`'s declared count |
| BuilderProperties.RouteFiltersSum | easydet/model/module/layer.py:135-136 | when the route sum succeeds every reference lies in range, and the sum equals the per-reference channel count sum |
| BuilderProperties.RouteChannels | easydet/model/module/layer.py:133-138 | a route layer's channel count is the sum over its references; `[-1]` repeats the previous count and `[0]` gives the input channels |
| BuilderProperties.ConvModule | easydet/model/module/layer.py:47-82 | a convolution builds a container whose first unit is `Conv2d` with the record's parameters (inherited input channels, `(size-1)//2` padding when padded, bias iff no normalisation), a `BatchNorm2d(filters)` second iff normalised, and declares `filters` channels |
| BuilderProperties.StepModule | easydet/model/module/layer.py:47-178 | the module one step appends, by layer type: the convolution and dense containers, maxpool with its zero-pad case, average pool, squeeze-excite, shuffle, empty containers for route, `net` and unknown types, feature fusion, upsample and a yolo head |
| BuilderProperties.LayerModules | easydet/model/module/layer.py:85-178 | the module each of maxpool (with the zero-pad case), route, unrecognized, shortcut, upsample and yolo records builds |
| BuilderProperties.RoutsCollected | easydet/model/module/layer.py:41-147 | an index is collected iff some earlier layer contributes it: an unnormalised convolution its own index, a route or shortcut its absolute references |
| BuilderProperties.RoutedMask | easydet/model/module/layer.py:184-187 | mask entry `j` is true iff some layer marks `j` |
| BuilderProperties.ContributionMarks | easydet/model/module/layer.py:41-147 | a layer contributes an index addressing `j` exactly when it marks `j` |
| BuilderProperties.BuiltRoutesReadRouted | easydet/model/module/layer.py:133-138 | in a built network every earlier layer a route reads is routed |
| BuilderProperties.YoloIndexCounts | easydet/model/module/layer.py:150 | after `k` layers `yolo_index` is the number of yolo records among them minus one |
| BuilderProperties.YoloLayersPrefix | easydet/model/module/layer.py:354-356 | the yolo positions of a prefix are a prefix of the yolo positions |
| BuilderProperties.YoloHeadAt | easydet/model/module/layer.py:149-157 | the head built at a yolo record carries the number of yolo records before it, one anchor per mask entry and the record's class count |
| BuilderProperties.YoloRank | easydet/model/module/layer.py:354-356 | the `m`-th yolo position has exactly `m` yolo records before it |
| BuilderProperties.YoloHeadsNumbered | easydet/model/module/layer.py:149-157 | the `m`-th yolo layer's head has index `m`, `|mask|` anchors, the record's classes and `classes + 5` outputs |
| BuilderProperties.YoloFailures | easydet/model/module/layer.py:149-157 | a yolo layer fails to build iff some mask entry lies outside the anchor table or it is the first layer (its `filters` is unbound); the bias initialisation never stops the build |
| Fusion.FirstNorm | easydet/model/module/layer.py:248-250 | none iff the container has no normalisation; otherwise the position of one with none before it |
| Fusion.FuseAll | easydet/model/module/layer.py:242-257 | the new module list has the same length and each entry is the old entry rewritten on its own |
| Fusion.FusePair | easydet/model/module/layer.py:249-254 | `[conv, bn, rest...]` becomes `[fused(conv, bn), rest...]` |
| Fusion.FuseNormFree | easydet/model/module/layer.py:246-256 | a container without normalisation is unchanged |
| Fusion.FuseLeavesNoNorm | easydet/model/module/layer.py:242-257 | a container with a normalisation at most in second place has none after the pass, and a second pass changes nothing |
| Fusion.FirstNormAt | easydet/model/module/layer.py:248-255 | a normalisation with none before it is the one the pass stops at |
| Fusion.FuseSequential | easydet/model/module/layer.py:247-255 | the scan over one container computes the rewritten container |
| Fusion.FuseEntry | easydet/model/module/layer.py:246-256 | each list entry is rewritten as specified; non-sequential entries pass through |
| Graph.CatChannels | easydet/model/module/layer.py:225 | channel concatenation succeeds iff the list is non-empty and all parts agree in batch, height and width; the result has the summed channels and the parts' extent |
| Graph.Halve | easydet/model/module/layer.py:227 | `F.interpolate(..., scale_factor=0.5)` keeps batch and channels, halves height and width rounding down, and is derived from its source |
| Graph.HalveAt | easydet/model/module/layer.py:227 | the in-place assignment to `out[j]` keeps the history's length, stores the halved tensor at `j` and leaves every other entry as it was |
| Graph.Gather | easydet/model/module/layer.py:225 | `[out[i] for i in layers]` picks the history entry at each reference, in order |
| Graph.Join | easydet/model/module/layer.py:224-228 | the concatenation of the referenced history entries succeeds iff there is at least one reference, every reference is valid and holds a tensor, and the parts agree in extent; the result is made of exactly the gathered parts |
| Graph.RouteStep | easydet/model/module/layer.py:219-228 | one reference selects that entry (error iff out of range). With several, the new value is always the concatenation over the history the route leaves behind. When the first concatenation fails, the fallback succeeds iff the second reference is valid, holds a tensor and the concatenation over the history with that entry halved succeeds; that halved history is what remains. Nothing else in the history changes, and reading a placeholder is an error only through the second reference |
| Graph.RouteLayer | easydet/model/module/layer.py:219-228 | the route branch of the loop, with its single-reference case, its concatenation and its in-place halving fallback, computes exactly the route step |
| Graph.ExecStep | easydet/model/module/layer.py:213-231 | the history grows by one entry, the tensor if routed and a placeholder otherwise, and every layer but a route leaves the earlier entries as they were; a kernel layer makes the kernel applied to the current tensor current, a shortcut the fusion of the current tensor with the history; a yolo layer appends the head applied to the current tensor; kernel, shortcut and yolo layers fail iff the current value is a placeholder |
| Graph.ExecPrefix | easydet/model/module/layer.py:212-231 | after `n` layers the history has `n` entries |
| Graph.Run | easydet/model/module/layer.py:212-234 | the training-mode result: it succeeds exactly when every layer runs, and then holds one head output per yolo record |
| Graph.ExecErrorPersists | easydet/model/module/layer.py:212-231 | once a layer raises, the run stays that error |
| Graph.ExecStable | easydet/model/module/layer.py:212-231 | later layers never turn a history entry between tensor and placeholder |
| Graph.ExecGrow | easydet/model/module/layer.py:231 | one more layer does not turn an earlier history entry between tensor and placeholder |
| Graph.History | easydet/model/module/layer.py:231 | history entry `j` is layer `j`'s result if routed and a placeholder otherwise, and holds a tensor at the end iff layer `j` is routed and produced one |
| Graph.HistoryAt | easydet/model/module/layer.py:231 | the same for one history entry `j` |
| Graph.YoloOutputs | easydet/model/module/layer.py:229-230 | the run yields one head output per yolo layer, in order, each the head applied to the tensor reaching that layer and the history at that point |
| Graph.YoloStep | easydet/model/module/layer.py:229-230 | a yolo layer appends the head applied to the current tensor and the history so far; every other layer leaves the head outputs unchanged |
| Graph.YoloCount | easydet/model/module/layer.py:229-230 | after `n` layers there is one head output per yolo record among them |
| Graph.YoloOutputAt | easydet/model/module/layer.py:229-230 | the head output of the yolo layer at `k` sits at the position given by the number of head outputs before it, and is the head applied to the tensor reaching layer `k` |
| Graph.RoutedStep | easydet/model/module/layer.py:219-231 | when every route reads routed layers, a step keeps a tensor current, keeps history entries held exactly at routed layers, and never reads a placeholder |
| Graph.RoutedHeld | easydet/model/module/layer.py:219-231 | in such a network, execution never fails by reading a placeholder, and the history holds tensors exactly at routed layers |
| Graph.BuiltNormPlacement | easydet/model/module/layer.py:62-68 | every container the builder makes has a normalisation at most in second place |
| Graph.FuseBuilt | easydet/model/module/layer.py:242-257 | fusing a built module list leaves no normalisation in any container, and fusing twice equals fusing once |
| Graph.Darknet.FromBuilt | easydet/model/module/layer.py:193-199 | the network keeps the record list, the module list and the routed mask it was built with |
| Graph.Darknet.Create | easydet/model/module/layer.py:193-199 | construction succeeds iff the build does; then the network holds the built modules and mask, the remaining records and their yolo positions |
| Graph.Darknet.Forward | easydet/model/module/layer.py:208-240 | the forward loop computes exactly the specified run, returns one output per yolo layer and never fails by reading a placeholder |
| Graph.LayerForward | easydet/model/module/layer.py:214-231 | the body of the forward loop for one layer, on a held current tensor, computes exactly one execution step |
| Graph.Darknet.Fuse | easydet/model/module/layer.py:242-257 | the module list becomes the rewritten list and the network stays well formed |
| Head.Arrange | easydet/model/module/layer.py:321-322 | the view/permute result has shape `(bs, na, ny, nx, no)` |
| Head.ArrangeAt | easydet/model/module/layer.py:321-322 | element `[b][a][y][x][k]` of the arranged map is input element `[b][a*no + k][y][x]` |
| Head.UnarrangeAt | easydet/model/module/layer.py:321-322 | element `[b][c][y][x]` of the undone map is arranged element `[b][c / no][y][x][c % no]` |
| Head.Unarrange | easydet/model/module/layer.py:321-322 | the inverse rearrangement has shape `(bs, na*no, ny, nx)` |
| Head.ArrangeRoundTrip | easydet/model/module/layer.py:321-322 | undoing the rearrangement restores the prediction map |
| Head.UnarrangeRoundTrip | easydet/model/module/layer.py:321-322 | rearranging an undone map restores it, so the rearrangement is a bijection |
| Head.DecodeAll | easydet/model/module/layer.py:343-349 | decoding keeps the outer shape and decodes each cell with its anchor and grid position |
| Head.DecodeAt | easydet/model/module/layer.py:343-349 | the decoded map keeps its shape and each element is the decoding of the same element at its anchor, row, column and channel |
| Head.FlattenShape | easydet/model/module/layer.py:351 | the flattened map has shape `(bs, na*ny*nx, no)` |
| Head.Flatten | easydet/model/module/layer.py:351 | `view(bs, -1, no)` gives one entry per batch element (its shape and index map are `Head.FlattenShape` and `Head.FlattenAt`) |
| Head.FlattenAt | easydet/model/module/layer.py:351 | row `(a*ny + y)*nx + x` of the flattened map is cell `[a][y][x]` |
| Head.JoinDetections | easydet/model/module/layer.py:238-240 | `zip(*yolo_out)` and `torch.cat(io, 1)` succeed exactly when there is at least one head and all heads agree in batch size and width; the result has that batch size and width, and as many rows as all heads together |
| Head.JoinedShape | easydet/model/module/layer.py:238-240 | every joined batch entry has the rows of all heads, each of the common width |
| Head.JoinedAt | easydet/model/module/layer.py:240 | row `j` of head `h` lands in every batch entry right after the rows of heads `0..h-1` |
| Head.HeadResult | easydet/model/module/layer.py:321-351 | the first view succeeds iff the channel count is `na*no` or the map is empty; inference also needs `bs > 0` and `no > 0`, because `view(bs, -1, no)` cannot infer `-1` otherwise; training yields the `(bs, na, ny, nx, no)` map, inference also the `(bs, na*ny*nx, no)` decoded rows |
| Head.TrainingAt | easydet/model/module/layer.py:324-325 | in training the head returns the arranged map, element `[b][a][y][x][k]` being input `[b][a*no + k][y][x]` |
| Head.InferenceAt | easydet/model/module/layer.py:343-351 | in inference row `(a*ny + y)*nx + x`, column `k` of batch `b` is the decoding of input `[b][a*no + k][y][x]` |
| Head.YoloLayer.constructor | easydet/model/module/layer.py:264-274 | the head built from a builder configuration keeps its anchors, index and layers, with `nl = |layers|`, `na` and `no = nc + 5` the configuration's own counts, and an empty grid cache |
| Head.YoloLayer.CreateGrids | easydet/model/module/layer.py:312-318 | building the grid records its size `(nx, ny)` |
| Head.YoloLayer.Forward | easydet/model/module/layer.py:282-351 | the grid is rebuilt exactly when the map's `(nx, ny)` differs from the cached pair, the cache then holds the map's size, and the output is the head result for the map |

## Left out

- The numeric behaviour of every unit is not modelled. This covers
  convolution, normalisation, activations, pooling, upsampling,
  `SeModule`, `ShuffleBlock`, `WeightFeatureFusion` and
  `fuse_conv_and_bn`, which are not part of this model. The executor takes
  the kernels, the shortcut fusion and the head call as total function
  parameters, so they cannot fail inside the model.
- Only the list restructuring of the fusion pass is modelled. A folded
  pair becomes the record `FusedConvBn`, and the folded weights are not
  computed.
- The smart bias initialisation (layer.py:159-175) is floating-point
  arithmetic inside a `try`. It only reports a warning when it fails, so it
  never changes the build's outcome. The model keeps where the block raises
  (`Builder.BiasInitAsWritten`) and whether the corrected block takes
  effect (`Builder.BiasInitApplies`, see Findings), which is reported as a
  diagnostic. The bias values are not modelled, and neither is a caller
  that builds the network with autograd switched off.
- The box decoding (sigmoid, exponential, grid offsets, anchor sizes and
  stride, layer.py:344-349) is floating-point arithmetic. It is the
  parameter `decode`, applied element-wise with the anchor, row, column
  and channel.
- The ONNX export branches are left out (layer.py:124-128, 235-237,
  276-280, 309-310, 327-341). Because of that, the head's `img_size` is not
  stored by `Head.YoloLayer.constructor`.
- The ASFF branch (layer.py:283-307) is switched off by a constant in the
  code, so it is left out.
- `parse_model_config` is not part of this model. The configuration enters
  as a list of typed layer records. Tensor-shape validation done by torch
  modules (for example invalid kernel sizes) is not part of this model
  either.
- Printing, `info()`/`model_info`, and the `version`/`seen` header
  (layer.py:203-206) do not affect the network's structure.
- Head.YoloLayer.Forward: the grid tensors themselves are not modelled,
  only the cached size and the ghost count of rebuilds. The executor does
  not thread the heads' cache state: a head call is a function parameter.
- Graph.Darknet.Forward: the final unzipping and `torch.cat(io, 1)` of the
  inference outputs is modelled separately (`Head.JoinDetections`, over the
  heads' outputs and their shapes). It is not part of the run's result,
  which is the list of head outputs. The second returned value, `p`, is the
  tuple of the heads' arranged maps, passed through unchanged.
- The training loop and the loss are not part of this model.

## Findings

| source | as written | input that shows it | evidently intended | confidence | as-written member | corrected member |
|---|---|---|---|---|---|---|
| easydet/model/module/layer.py:166-169 | `bias` is a view of the convolution's bias parameter, which requires grad, and `bias[:, 4] += ...` runs outside `torch.no_grad()`, so autograd rejects the in-place update; the `except` prints the warning and the initialisation never takes effect | a yolov3 head: three anchors and 80 classes after a convolution with 255 filters and no batch normalisation, so the convolution has a bias | the objectness and class biases are set, e.g. by updating `bias.data` or under `torch.no_grad()` | not executed; high (autograd refuses in-place updates of views of leaf tensors that require grad) | Builder.BiasInitAsWritten, shown by BuilderProperties.BiasInitStandardHead | Builder.BiasInitApplies, proved to take effect by BuilderProperties.BiasInitStandardHead |
