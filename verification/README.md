# Bounding-box delta decoding (`delta2bbox`) in Dafny

This project models the two `delta2bbox` rewrites in mmdeploy's
`mmdet/core/bbox/coder/delta_xywh_bbox_coder.py`. One is the default-backend
decoder `delta2bbox`; the other is the ncnn-backend decoder
`delta2bbox_ncnn`.

Each decoder turns a reference box (a roi `x1, y1, x2, y2`) and a row of
`4 * K` regression deltas into a row of `4 * K` box coordinates. Group `k` of
the row holds `dx, dy, dw, dh`, and the decoder processes it as follows:

- it denormalises the group with the tiled `means` and `stds`;
- it shifts the roi centre by the roi size times `(dx, dy)`;
- it scales the roi size by `exp` of `(dw, dh)`, after the numerical-safety
  clamps (`max_ratio`, and `ctr_clamp` when `add_ctr_clamp` is set);
- it turns the result back into corners;
- it optionally clips the corners to the image border;
- it writes the group back at entries `4k .. 4k+3`.

The model works on one roi and its delta row, over `real`. The modules are:

- `Layout` covers the flat row layout: tiling a four-tuple, the stride-4
  split `row[j::4]`, and `torch.stack(..., -1).view(...)`. It includes their
  round trips.
- `Boxes` covers boxes, deltas, centre/size form, the keyword arguments, and
  the border-clipping routine. The clipping routine is a parameter.
- `ExpLaws` states the three facts the decoder needs of `exp`: `exp(0) = 1`,
  positivity, and strict monotonicity. `exp` is passed in as a function.
- `Clamping` models `torch.clamp` on one value.
- `Elementwise` covers per-entry tensor arithmetic with torch broadcasting of
  one-entry columns, plus `expand_as`.
- `GroupDecode` covers the decoder's arithmetic on one roi and one delta
  group. The row decoders model the same arithmetic separately, one tensor
  operation at a time on whole columns (`dx_width = pw * dx`, the clamps,
  `gw = pw * dw.exp()`, `gx = px + dx_width`, the corners). They are proved to
  agree with `GroupDecode` at every entry.
- `Decoder` covers `delta2bbox`.
- `DecoderNcnn` covers `delta2bbox_ncnn`, and proves that it returns the same
  row as `delta2bbox`.

In `delta2bbox_ncnn`, the guard before expanding `ph` tests `px`'s last
dimension (line 120). Both `px` and `ph` start as width-one slices. However,
`px` has already been expanded to the K entries of `dx` at line 115, so the
guard is false exactly when K = 4. In that case `ph` stays one entry wide, and
torch broadcasting in `ph * dy` and `ph * dh.exp()` spreads it over the four
groups. `RoiColumnsNcnn` models the guard as written, and its contract records
that the height column is one entry wide exactly when K = 4.
`VariantsAgree` proves the two decoders nonetheless return the same row for
every K, without clipping and with any clipping routine that acts on each roi
row alone. The guard therefore does not change any output.

## Model

| member | source | states |
|---|---|---|
| Clamping.Clamp | mmdeploy/mmdet/core/bbox/coder/delta_xywh_bbox_coder.py:43-50 | `torch.clamp(x, min=lo, max=hi)` lands in `[lo, hi]` when that range is non-empty; it leaves a value already inside unchanged; it sends values at or beyond either bound to that bound; every value becomes `hi` when `lo > hi` |
| Clamping.ClampMax | mmdeploy/mmdet/core/bbox/coder/delta_xywh_bbox_coder.py:46-47 | `torch.clamp(x, max=hi)` never exceeds `hi`, keeps values below it, and caps larger ones at `hi` |
| Boxes.CenterSizeOf | mmdeploy/mmdet/core/bbox/coder/delta_xywh_bbox_coder.py:30-37 | the roi centre and size give back the roi's corners: `cx -/+ w/2` are `x1` and `x2`, likewise for y |
| Boxes.CornersOf | mmdeploy/mmdet/core/bbox/coder/delta_xywh_bbox_coder.py:58-61 | the corners built from a centre and size have that width, height and midpoint, and are ordered whenever the size is non-negative |
| Boxes.CornersOfCenterSize | mmdeploy/mmdet/core/bbox/coder/delta_xywh_bbox_coder.py:30-61 | corners to centre/size and back is the identity |
| Boxes.CenterSizeOfCorners | mmdeploy/mmdet/core/bbox/coder/delta_xywh_bbox_coder.py:55-61 | centre/size to corners and back is the identity |
| Boxes.DefaultConfig | mmdeploy/mmdet/core/bbox/coder/delta_xywh_bbox_coder.py:13-19 | the keyword defaults never clip, since `max_shape` is `None`, and use the symmetric ratio clamp |
| Layout.Tile | mmdeploy/mmdet/core/bbox/coder/delta_xywh_bbox_coder.py:20-23 | `tensor(v).view(1, -1).repeat(1, K)` has `4K` entries, and entry `i` is `v[i % 4]` |
| Layout.Stride | mmdeploy/mmdet/core/bbox/coder/delta_xywh_bbox_coder.py:25-28 | the slice `s[start::4]` has one entry per index `start + 4t` below `|s|`, in order |
| Layout.Stack | mmdeploy/mmdet/core/bbox/coder/delta_xywh_bbox_coder.py:67 | stacking four columns on the last axis and flattening puts entry `k` of column `j` at flat index `4k + j` |
| Layout.SplitStrided | mmdeploy/mmdet/core/bbox/coder/delta_xywh_bbox_coder.py:25-28 | the four stride-4 slices of a `4K` row are K long each, and entry `k` of slice `j` is flat entry `4k + j` |
| Layout.SplitOfStack | mmdeploy/mmdet/core/bbox/coder/delta_xywh_bbox_coder.py:67 | splitting a stacked row by stride 4 gives back the four columns |
| Layout.StackOfSplit | mmdeploy/mmdet/core/bbox/coder/delta_xywh_bbox_coder.py:25-28 | stacking the stride-4 slices of a row gives back the row |
| GroupDecode.ClampStep | mmdeploy/mmdet/core/bbox/coder/delta_xywh_bbox_coder.py:42-50 | without `add_ctr_clamp`, the shifts pass unchanged and the log-scales land in `[-max_ratio, max_ratio]`, unchanged when already inside; with it, the log-scales are only capped at `max_ratio` and the shifts land in `[-ctr_clamp, ctr_clamp]` |
| GroupDecode.DefaultDenormalizedIdentity | mmdeploy/mmdet/core/bbox/coder/delta_xywh_bbox_coder.py:13-24 | the default `means` and `stds` leave the deltas unchanged |
| GroupDecode.DoublingGroup | mmdeploy/mmdet/core/bbox/coder/delta_xywh_bbox_coder.py:39-61 | log-scales `a` with `exp(a) = 2` inside the symmetric clamp, and zero shifts, double the roi about its centre |
| GroupDecode.DecodeGroupCenterSize | mmdeploy/mmdet/core/bbox/coder/delta_xywh_bbox_coder.py:52-61 | the decoded box has exactly the decoded centre `(gx, gy)` and size `(gw, gh)` |
| GroupDecode.DecodeGroupOrdered | mmdeploy/mmdet/core/bbox/coder/delta_xywh_bbox_coder.py:52-61 | a roi with `x1 <= x2` and `y1 <= y2` decodes to a box with the same property, for every delta group and configuration |
| GroupDecode.ZeroDeltaIdentity | mmdeploy/mmdet/core/bbox/coder/delta_xywh_bbox_coder.py:33-61 | zero deltas decode every roi to itself in both clamp modes, provided `ctr_clamp` admits a zero shift when it is on |
| GroupDecode.SizeSaturates | mmdeploy/mmdet/core/bbox/coder/delta_xywh_bbox_coder.py:49-53 | in the symmetric mode, every `dw >= max_ratio` gives width `pw * exp(max_ratio)` and every `dw <= -max_ratio` gives `pw * exp(-max_ratio)`; likewise for height |
| GroupDecode.DecodedCenter | mmdeploy/mmdet/core/bbox/coder/delta_xywh_bbox_coder.py:39-56 | the decoded centre is the roi centre moved by the clamped shifts `pw * dx` and `ph * dy`; in the symmetric mode the move is exactly `pw * dx` along x and `ph * dy` along y |
| GroupDecode.DecodedSize | mmdeploy/mmdet/core/bbox/coder/delta_xywh_bbox_coder.py:52-53 | the decoded width and height are the roi's, scaled by `exp` of the clamped log-scales |
| GroupDecode.SizeBounded | mmdeploy/mmdet/core/bbox/coder/delta_xywh_bbox_coder.py:49-53 | in the symmetric mode, a well-formed roi's decoded width lies between `pw * exp(-max_ratio)` and `pw * exp(max_ratio)`; likewise for height |
| GroupDecode.ScalesBetween | mmdeploy/mmdet/core/bbox/coder/delta_xywh_bbox_coder.py:49-53 | the roi size scaled by `exp` of a symmetric-clamped log-scale lies between the size scaled by `exp(-max_ratio)` and by `exp(max_ratio)` |
| GroupDecode.CenterShiftBounded | mmdeploy/mmdet/core/bbox/coder/delta_xywh_bbox_coder.py:43-56 | with `add_ctr_clamp`, the decoded centre lies within `ctr_clamp` of the roi centre in x and in y |
| GroupDecode.WidthMonotone | mmdeploy/mmdet/core/bbox/coder/delta_xywh_bbox_coder.py:46-52 | a larger `dw` never gives a narrower box; inside the clamp range, a strictly larger one gives a strictly wider box |
| GroupDecode.ScaleMonotone | mmdeploy/mmdet/core/bbox/coder/delta_xywh_bbox_coder.py:46-52 | the roi width scaled by `exp` of the clamped `dw` grows with `dw`, strictly inside the clamp range |
| Decoder.Denormalize | mmdeploy/mmdet/core/bbox/coder/delta_xywh_bbox_coder.py:20-24 | denormalising with the tiled `means` and `stds` sends flat entry `i` to `d[i] * stds[i % 4] + means[i % 4]` |
| Decoder.DenormalizeGroup | mmdeploy/mmdet/core/bbox/coder/delta_xywh_bbox_coder.py:20-24 | group `k` of the denormalised row is group `k` denormalised with the untiled four-entry `means` and `stds` |
| Decoder.SplitGroup | mmdeploy/mmdet/core/bbox/coder/delta_xywh_bbox_coder.py:25-28 | entry `k` of `dx, dy, dw, dh` is group `k` of the row |
| Decoder.RoiColumns | mmdeploy/mmdet/core/bbox/coder/delta_xywh_bbox_coder.py:30-37 | the expanded `px, py, pw, ph` have K entries, and each reads as the roi's centre and size |
| Decoder.ClampColumns | mmdeploy/mmdet/core/bbox/coder/delta_xywh_bbox_coder.py:42-50 | the column-wise clamps keep every column's length, and entry `k` of the clamped columns is the group clamp `ClampStep` of the four entries at `k` |
| Decoder.ShiftColumnsAt | mmdeploy/mmdet/core/bbox/coder/delta_xywh_bbox_coder.py:39-50 | entry `k` of `dx_width`, `dy_height`, `dw`, `dh` after the clamps is `ClampStep` of `pw * dx`, `ph * dy`, `dw`, `dh` read at `k`, with one-entry columns broadcast |
| Decoder.ScaleColumnsAt | mmdeploy/mmdet/core/bbox/coder/delta_xywh_bbox_coder.py:51-61 | entry `k` of the corners built from `gw`, `gh`, `gx`, `gy` is the box centred at the roi centre at `k` moved by the clamped shifts at `k`, with the roi size at `k` scaled by `exp` of the clamped log-scales at `k` |
| Decoder.DecodeColumnsAt | mmdeploy/mmdet/core/bbox/coder/delta_xywh_bbox_coder.py:39-61 | entry `k` of the column arithmetic, computed one tensor operation at a time, is the box the group decoder makes from the centre/size at `k` and the deltas at `k` |
| Decoder.Restack | mmdeploy/mmdet/core/bbox/coder/delta_xywh_bbox_coder.py:63-67 | the output row is `4K` long; without clipping, its stride-4 slices are the decoded corner columns |
| Decoder.Delta2Bbox | mmdeploy/mmdet/core/bbox/coder/delta_xywh_bbox_coder.py:10-68 | the output row is exactly as long as the delta row |
| Decoder.CornersGroupwise | mmdeploy/mmdet/core/bbox/coder/delta_xywh_bbox_coder.py:20-61 | entry `k` of the corner columns is the roi decoded with group `k` of the denormalised deltas |
| Decoder.RowDecodesGroupwise | mmdeploy/mmdet/core/bbox/coder/delta_xywh_bbox_coder.py:10-68 | without clipping, output entries `4k .. 4k+3` are the box the group decoder makes from the roi and delta group `k` |
| Decoder.RowLocality | mmdeploy/mmdet/core/bbox/coder/delta_xywh_bbox_coder.py:25-67 | output group `k` depends only on delta entries `4k .. 4k+3` and the roi |
| Decoder.ZeroRowGroup | mmdeploy/mmdet/core/bbox/coder/delta_xywh_bbox_coder.py:13-67 | with zero `means` and no clipping, every group of an all-zero delta row decodes to the roi |
| Decoder.ZeroRowDecodesToRoi | mmdeploy/mmdet/core/bbox/coder/delta_xywh_bbox_coder.py:13-67 | with zero `means` and no clipping, an all-zero delta row of K groups decodes to the roi repeated K times |
| Decoder.DefaultZeroRow | mmdeploy/mmdet/core/bbox/coder/delta_xywh_bbox_coder.py:10-68 | called with its keyword defaults (for any `max_ratio`), the decoder returns the roi once per group for an all-zero delta row |
| Decoder.RowOrdered | mmdeploy/mmdet/core/bbox/coder/delta_xywh_bbox_coder.py:52-67 | without clipping, a well-formed roi gives well-formed boxes in every output group |
| Decoder.DoublingExample | mmdeploy/mmdet/core/bbox/coder/delta_xywh_bbox_coder.py:10-68 | with the default `means` and `stds`, the one-group row `(0, 0, a, a)` with `exp(a) = 2` doubles the roi about its centre |
| DecoderNcnn.SplitNcnn | mmdeploy/mmdet/core/bbox/coder/delta_xywh_bbox_coder.py:91-100 | the width-one slices taken for a four-entry row equal the stride-4 split, so both branches agree with the default decoder's split |
| DecoderNcnn.RoiColumnsNcnn | mmdeploy/mmdet/core/bbox/coder/delta_xywh_bbox_coder.py:102-121 | after the conditional expansions, every centre/size column broadcasts to the K delta entries and reads as the roi's centre and size; the height column stays one wide exactly when K = 4 |
| DecoderNcnn.Delta2BboxNcnn | mmdeploy/mmdet/core/bbox/coder/delta_xywh_bbox_coder.py:74-152 | the ncnn output row is exactly as long as the delta row |
| DecoderNcnn.DecodeColumnsBroadcastInvariant | mmdeploy/mmdet/core/bbox/coder/delta_xywh_bbox_coder.py:123-145 | the column arithmetic gives the same corners for centre/size columns that are shaped differently but read alike at every broadcast entry |
| DecoderNcnn.VariantsAgree | mmdeploy/mmdet/core/bbox/coder/delta_xywh_bbox_coder.py:74-152 | `delta2bbox_ncnn` returns the same row as `delta2bbox` for every roi, every K (K = 1 and K = 4 included), every configuration, and, with clipping on, every shape-preserving clipping routine that acts on each roi row alone |
| DecoderNcnn.NcnnRowDecodesGroupwise | mmdeploy/mmdet/core/bbox/coder/delta_xywh_bbox_coder.py:74-152 | without clipping, output group `k` of the ncnn decoder is the roi decoded with delta group `k` |

## Left out

- Border clipping (`clip_bboxes`, lines 63-65 and 147-149) is not part of this model. It is a function parameter applied to the four corner columns of one roi row. The only thing required of it is that it returns columns as long as its input, since the final `.view(deltas.size())` fails otherwise.
- Decoder.Delta2Bbox: with border clipping on, only the row's length is stated, because the clipping routine is opaque. Without clipping, its content is stated by `RowDecodesGroupwise`, `ZeroRowDecodesToRoi` and `RowOrdered`.
- DecoderNcnn.Delta2BboxNcnn: likewise only the length; its content is stated by `VariantsAgree`.
- DecoderNcnn.VariantsAgree: with clipping on, the equivalence assumes that `clip_bboxes` acts on each roi row alone. The ncnn variant tiles `means` and `stds` to shape `(1, N, 4K)` (lines 84-89), so the corners it passes to `clip_bboxes` at line 149 can carry one more leading axis than the default variant's. The model has no such axis and cannot state that the clipping routine ignores it.
- `wh_ratio_clip` and `np.log` are not modelled: `max_ratio = |log(wh_ratio_clip)|` is taken as a given non-negative real.
- `exp` is a function parameter obeying `exp(0) = 1`, positivity and strict monotonicity. Its actual values are not modelled.
- Floating-point rounding is not modelled: all arithmetic is over exact reals.
- Leading (batch) dimensions are not modelled. Both decoders act on each roi row independently, so the model is one roi and its delta row.
- A mismatched last dimension is a torch error, not behaviour. A delta row whose length is not a multiple of four is therefore excluded by a precondition.
- Torch tensor mechanics are not modelled: `new_tensor`, `.data`, and the memory layout of `repeat` and `expand_as`. Only their values are modelled. The per-element tensor operations (`*`, `+`, `-`, `torch.clamp`, `.exp()`) are modelled as operations on whole columns, with one-entry columns broadcast.
- The `FUNCTION_REWRITER` registration, backend dispatch and the unused `ctx` argument are framework plumbing and are left out.
