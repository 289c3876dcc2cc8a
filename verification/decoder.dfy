/** The default decoder `delta2bbox` on one roi row.

A row of deltas of length `4 * K` is denormalised with the tiled `means`
and `stds`, split into its four coordinate columns, decoded column-wise
against the roi's centre and size broadcast to K entries, optionally
clipped to the image border, and stacked back into a row of `4 * K`.

The main theorem, `RowDecodesGroupwise`, states that without clipping the
row decoder is the group decoder of `GroupDecode` applied group by group:
entry `4 * k + j` of the output is coordinate `j` of the box decoded from
group `k` of the deltas.
 */
module Decoder {
  import opened Layout
  import opened Boxes
  import opened Elementwise
  import opened ExpLaws
  import opened GroupDecode

  /** Group `k` of a flat row, entries `4k .. 4k+3`. */
  function GroupAt(row: seq<real>, k: nat): Delta
    requires 4 * k + 3 < |row|
  {
    Delta(row[4 * k], row[4 * k + 1], row[4 * k + 2], row[4 * k + 3])
  }

  /** Group `k` of a flat output row, read as a box. */
  function RowBox(row: seq<real>, k: nat): Box
    requires 4 * k + 3 < |row|
  {
    Box(row[4 * k], row[4 * k + 1], row[4 * k + 2], row[4 * k + 3])
  }

  /** Entry `k` of four coordinate columns, read as deltas. */
  function DeltaAt(d: Columns, k: nat): Delta
    requires d.Uniform() && k < d.Width()
  {
    Delta(d.c0[k], d.c1[k], d.c2[k], d.c3[k])
  }

  /** Entry `k` of four corner columns, read as a box. */
  function BoxAt(b: Columns, k: nat): Box
    requires b.Uniform() && k < b.Width()
  {
    Box(b.c0[k], b.c1[k], b.c2[k], b.c3[k])
  }

  /** Every column of `p` broadcasts to `n` entries. */
  predicate FitsAll(p: Columns, n: nat) {
    Fits(p.c0, n) && Fits(p.c1, n) && Fits(p.c2, n) && Fits(p.c3, n)
  }

  /** Entry `k` of centre/size columns (px, py, pw, ph) once broadcast. */
  function CenterAt(p: Columns, k: nat): CenterSize
    requires (|p.c0| == 1 || k < |p.c0|) && (|p.c1| == 1 || k < |p.c1|)
    requires (|p.c2| == 1 || k < |p.c2|) && (|p.c3| == 1 || k < |p.c3|)
  {
    CenterSize(At(p.c0, k), At(p.c1, k), At(p.c2, k), At(p.c3, k))
  }

  /** `deltas * stds + means`, with the four-entry `means` and `stds`
      repeated once per group. */
  function Denormalize(deltas: seq<real>, cfg: DecodeConfig): (r: seq<real>)
    requires |deltas| % 4 == 0
    ensures |r| == |deltas|
    ensures forall i :: 0 <= i < |r| ==> r[i] == Denorm(deltas[i], cfg.stds.Seq()[i % 4], cfg.means.Seq()[i % 4])
  {
    var means := Tile(cfg.means.Seq(), |deltas| / 4);
    var stds := Tile(cfg.stds.Seq(), |deltas| / 4);
    seq(|deltas|, i requires 0 <= i < |deltas| => Denorm(deltas[i], stds[i], means[i]))
  }

  /** The roi's centre and size, each repeated to the K entries of the delta
      columns (`unsqueeze(-1).expand_as`). */
  function RoiColumns(roi: Box, d: Columns): (p: Columns)
    requires d.Uniform()
    ensures p.Uniform() && p.Width() == d.Width()
    ensures forall k :: 0 <= k < p.Width() ==> CenterAt(p, k) == CenterSizeOf(roi)
  {
    Columns(Repeat((roi.x1 + roi.x2) * 0.5, d.Width()), Repeat((roi.y1 + roi.y2) * 0.5, d.Width()),
            Repeat(roi.x2 - roi.x1, d.Width()), Repeat(roi.y2 - roi.y1, d.Width()))
  }

  /** The numerical-safety clamps on whole columns: with `add_ctr_clamp` the
      centre shifts `dx_width`, `dy_height` are clamped to `ctr_clamp` and the
      log-scales `dw`, `dh` capped at `max_ratio`; otherwise only the
      log-scales are clamped, on both sides. Entry by entry this is the group
      clamp `ClampStep`. */
  function ClampColumns(dxWidth: seq<real>, dyHeight: seq<real>, dw: seq<real>, dh: seq<real>, cfg: DecodeConfig): (r: Columns)
    ensures |r.c0| == |dxWidth| && |r.c1| == |dyHeight| && |r.c2| == |dw| && |r.c3| == |dh|
    ensures forall k :: 0 <= k < |dxWidth| && k < |dyHeight| && k < |dw| && k < |dh| ==>
              Clamped(r.c0[k], r.c1[k], r.c2[k], r.c3[k]) == ClampStep(dxWidth[k], dyHeight[k], dw[k], dh[k], cfg)
  {
    var c, m := cfg.ctrClamp, cfg.maxRatio;
    if cfg.addCtrClamp then
      Columns(ClampEach(dxWidth, -c, c), ClampEach(dyHeight, -c, c), ClampMaxEach(dw, m), ClampMaxEach(dh, m))
    else
      Columns(dxWidth, dyHeight, ClampEach(dw, -m, m), ClampEach(dh, -m, m))
  }

  /** Lines 39-50 on whole columns: the centre shifts `dx_width = pw * dx`,
      `dy_height = ph * dy`, then the clamps, giving the columns
      (dx_width, dy_height, dw, dh) after clamping. A one-entry column of the
      centre/size columns `p` broadcasts. */
  function ShiftColumns(p: Columns, d: Columns, cfg: DecodeConfig): (s: Columns)
    requires d.Uniform() && FitsAll(p, d.Width())
    ensures s.Uniform() && s.Width() == d.Width()
  {
    ClampColumns(Mul(p.c2, d.c0), Mul(p.c3, d.c1), d.c2, d.c3, cfg)
  }

  /** Lines 51-61 on whole columns: `gw = pw * dw.exp()`, `gh = ph * dh.exp()`,
      `gx = px + dx_width`, `gy = py + dy_height`, then the corners
      `gx -/+ gw * 0.5` and `gy -/+ gh * 0.5`, from the centre/size columns `p`
      and the clamped columns `s`. */
  function ScaleColumns(p: Columns, s: Columns, exp: real -> real): (b: Columns)
    requires s.Uniform() && FitsAll(p, s.Width())
    ensures b.Uniform() && b.Width() == s.Width()
  {
    var gw, gh := Mul(p.c2, ExpEach(s.c2, exp)), Mul(p.c3, ExpEach(s.c3, exp));
    var gx, gy := Add(p.c0, s.c0), Add(p.c1, s.c1);
    Columns(Sub(gx, Scale(gw, 0.5)), Sub(gy, Scale(gh, 0.5)), Add(gx, Scale(gw, 0.5)), Add(gy, Scale(gh, 0.5)))
  }

  /** The tensor arithmetic of the decoders (lines 39-61 and 123-145),
      operation by operation, on the centre/size columns `p` (px, py, pw, ph)
      and the delta columns `d` (dx, dy, dw, dh). */
  function DecodeColumns(p: Columns, d: Columns, cfg: DecodeConfig, exp: real -> real): (b: Columns)
    requires d.Uniform() && FitsAll(p, d.Width())
    ensures b.Uniform() && b.Width() == d.Width()
  {
    ScaleColumns(p, ShiftColumns(p, d, cfg), exp)
  }

  /** Entry `k` of the clamped shift columns is the group clamp applied to the
      shifts and log-scales at `k`. */
  lemma ShiftColumnsAt(p: Columns, d: Columns, cfg: DecodeConfig, k: nat)
    requires d.Uniform() && FitsAll(p, d.Width()) && k < d.Width()
    ensures Clamped(ShiftColumns(p, d, cfg).c0[k], ShiftColumns(p, d, cfg).c1[k], ShiftColumns(p, d, cfg).c2[k], ShiftColumns(p, d, cfg).c3[k])
            == ClampStep(Times(CenterAt(p, k).w, DeltaAt(d, k).dx), Times(CenterAt(p, k).h, DeltaAt(d, k).dy), DeltaAt(d, k).dw, DeltaAt(d, k).dh, cfg)
  {
  }

  /** Entry `k` of the corner columns is the box whose centre is the one at `k`
      shifted by the clamped shifts at `k`, and whose size is the one at `k`
      scaled by exp of the clamped log-scales at `k`. */
  lemma ScaleColumnsAt(p: Columns, s: Columns, exp: real -> real, k: nat)
    requires s.Uniform() && FitsAll(p, s.Width()) && k < s.Width()
    ensures BoxAt(ScaleColumns(p, s, exp), k) == CornersOf(ShiftScale(CenterAt(p, k), Clamped(s.c0[k], s.c1[k], s.c2[k], s.c3[k]), exp))
  {
  }

  /** Entry `k` of the operation-by-operation result is the box the group
      decoder makes from the centre/size at `k` and the deltas at `k`. */
  lemma DecodeColumnsAt(p: Columns, d: Columns, cfg: DecodeConfig, exp: real -> real, k: nat)
    requires d.Uniform() && FitsAll(p, d.Width()) && k < d.Width()
    ensures BoxAt(DecodeColumns(p, d, cfg, exp), k) == CornersOf(DecodeCenter(CenterAt(p, k), DeltaAt(d, k), cfg, exp))
  {
    ShiftColumnsAt(p, d, cfg, k);
    ScaleColumnsAt(p, ShiftColumns(p, d, cfg), exp, k);
  }

  /** The corner columns of the default variant before border clipping. */
  function Corners(roi: Box, deltas: seq<real>, cfg: DecodeConfig, exp: real -> real): (b: Columns)
    requires |deltas| % 4 == 0
    ensures b.Uniform() && b.Width() == |deltas| / 4
  {
    var d := SplitStrided(Denormalize(deltas, cfg));
    DecodeColumns(RoiColumns(roi, d), d, cfg, exp)
  }

  /** Optional border clipping, then `torch.stack(..., dim=-1).view(deltas.size())`. */
  function Restack(b: Columns, cfg: DecodeConfig, clip: ClipFn): (r: seq<real>)
    requires b.Uniform()
    requires Clips(cfg) ==> ShapePreserving(clip)
    ensures |r| == 4 * b.Width()
    ensures !Clips(cfg) ==> SplitStrided(r) == b
  {
    var out := if Clips(cfg) then clip(b, cfg.maxShape.value) else b;
    SplitOfStack(out);
    Stack(out)
  }

  /** `delta2bbox` on one roi and its row of `4 * K` deltas. */
  function Delta2Bbox(roi: Box, deltas: seq<real>, cfg: DecodeConfig, exp: real -> real, clip: ClipFn): (r: seq<real>)
    requires |deltas| % 4 == 0
    requires Clips(cfg) ==> ShapePreserving(clip)
    ensures |r| == |deltas|
  {
    Restack(Corners(roi, deltas, cfg, exp), cfg, clip)
  }

  /** Denormalisation acts group by group with the untiled four-entry `means`
      and `stds`. */
  lemma DenormalizeGroup(deltas: seq<real>, cfg: DecodeConfig, k: nat)
    requires |deltas| % 4 == 0 && 4 * k + 3 < |deltas|
    ensures GroupAt(Denormalize(deltas, cfg), k) == Denormalized(GroupAt(deltas, k), cfg)
  {
    var r := Denormalize(deltas, cfg);
    GroupOffsets(k);
    assert r[4 * k] == Denorm(deltas[4 * k], cfg.stds.dx, cfg.means.dx);
    assert r[4 * k + 1] == Denorm(deltas[4 * k + 1], cfg.stds.dy, cfg.means.dy);
    assert r[4 * k + 2] == Denorm(deltas[4 * k + 2], cfg.stds.dw, cfg.means.dw);
    assert r[4 * k + 3] == Denorm(deltas[4 * k + 3], cfg.stds.dh, cfg.means.dh);
  }

  /** The entries of group `k` sit at coordinates 0, 1, 2, 3. */
  lemma GroupOffsets(k: nat)
    ensures (4 * k) % 4 == 0 && (4 * k + 1) % 4 == 1 && (4 * k + 2) % 4 == 2 && (4 * k + 3) % 4 == 3
  {
  }

  /** Splitting a row by stride 4 puts group `k` at entry `k` of the columns. */
  lemma SplitGroup(row: seq<real>, k: nat)
    requires |row| % 4 == 0 && 4 * k + 3 < |row|
    ensures k < SplitStrided(row).Width() && DeltaAt(SplitStrided(row), k) == GroupAt(row, k)
  {
    var d := SplitStrided(row);
    assert d.Get(0)[k] == row[4 * k] && d.Get(1)[k] == row[4 * k + 1];
    assert d.Get(2)[k] == row[4 * k + 2] && d.Get(3)[k] == row[4 * k + 3];
  }

  /** Group `k` of the corner columns is the roi decoded with group `k` of the
      denormalised deltas. */
  lemma CornersGroupwise(roi: Box, deltas: seq<real>, cfg: DecodeConfig, exp: real -> real, k: nat)
    requires |deltas| % 4 == 0 && 4 * k + 3 < |deltas|
    ensures k < Corners(roi, deltas, cfg, exp).Width()
    ensures BoxAt(Corners(roi, deltas, cfg, exp), k) == DecodeGroup(roi, Denormalized(GroupAt(deltas, k), cfg), cfg, exp)
  {
    var denorm := Denormalize(deltas, cfg);
    var d := SplitStrided(denorm);
    SplitGroup(denorm, k);
    DenormalizeGroup(deltas, cfg, k);
    var p := RoiColumns(roi, d);
    DecodeColumnsAt(p, d, cfg, exp, k);
    assert CenterAt(p, k) == CenterSizeOf(roi);
  }

  /** Without border clipping, output group `k` (entries `4k .. 4k+3`, in the
      order x1, y1, x2, y2) is the box the group decoder makes from the roi and
      group `k` of the denormalised deltas. */
  lemma RowDecodesGroupwise(roi: Box, deltas: seq<real>, cfg: DecodeConfig, exp: real -> real, clip: ClipFn, k: nat)
    requires |deltas| % 4 == 0 && !Clips(cfg) && 4 * k + 3 < |deltas|
    ensures RowBox(Delta2Bbox(roi, deltas, cfg, exp, clip), k)
            == DecodeGroup(roi, Denormalized(GroupAt(deltas, k), cfg), cfg, exp)
  {
    var b := Corners(roi, deltas, cfg, exp);
    CornersGroupwise(roi, deltas, cfg, exp, k);
    var r := Stack(b);
    assert r[4 * k + 0] == b.Get(0)[k] && r[4 * k + 1] == b.Get(1)[k];
    assert r[4 * k + 2] == b.Get(2)[k] && r[4 * k + 3] == b.Get(3)[k];
  }

  /** Output group `k` depends only on delta group `k` and the roi: two delta
      rows that agree on entries `4k .. 4k+3` decode to the same entries
      `4k .. 4k+3`, whatever the other groups hold. */
  lemma RowLocality(roi: Box, deltas: seq<real>, other: seq<real>, cfg: DecodeConfig, exp: real -> real, clip: ClipFn, k: nat)
    requires |deltas| % 4 == 0 && |other| % 4 == 0 && !Clips(cfg)
    requires 4 * k + 3 < |deltas| && 4 * k + 3 < |other|
    requires deltas[4 * k .. 4 * k + 4] == other[4 * k .. 4 * k + 4]
    ensures RowBox(Delta2Bbox(roi, deltas, cfg, exp, clip), k) == RowBox(Delta2Bbox(roi, other, cfg, exp, clip), k)
  {
    assert GroupAt(deltas, k) == GroupAt(other, k) by {
      assert deltas[4 * k .. 4 * k + 4][0] == other[4 * k .. 4 * k + 4][0];
      assert deltas[4 * k .. 4 * k + 4][1] == other[4 * k .. 4 * k + 4][1];
      assert deltas[4 * k .. 4 * k + 4][2] == other[4 * k .. 4 * k + 4][2];
      assert deltas[4 * k .. 4 * k + 4][3] == other[4 * k .. 4 * k + 4][3];
    }
    RowDecodesGroupwise(roi, deltas, cfg, exp, clip, k);
    RowDecodesGroupwise(roi, other, cfg, exp, clip, k);
  }

  /** With zero `means`, every group of a row of zero deltas decodes, without
      clipping, to the roi itself (the centre clamp, if on, must admit a zero
      shift). */
  lemma ZeroRowGroup(roi: Box, n: nat, cfg: DecodeConfig, exp: real -> real, clip: ClipFn, k: nat)
    requires IsExp(exp) && cfg.means == Delta(0.0, 0.0, 0.0, 0.0) && !Clips(cfg)
    requires cfg.addCtrClamp ==> cfg.ctrClamp >= 0.0
    requires k < n
    ensures RowBox(Delta2Bbox(roi, Repeat(0.0, 4 * n), cfg, exp, clip), k) == roi
  {
    var zeros := Repeat(0.0, 4 * n);
    var zero := Delta(0.0, 0.0, 0.0, 0.0);
    assert GroupAt(zeros, k) == zero;
    assert Denormalized(zero, cfg) == zero;
    ZeroDeltaIdentity(roi, cfg, exp);
    RowDecodesGroupwise(roi, zeros, cfg, exp, clip, k);
  }

  /** Hence the whole row decodes to the roi repeated once per group. */
  lemma ZeroRowDecodesToRoi(roi: Box, n: nat, cfg: DecodeConfig, exp: real -> real, clip: ClipFn)
    requires IsExp(exp) && cfg.means == Delta(0.0, 0.0, 0.0, 0.0) && !Clips(cfg)
    requires cfg.addCtrClamp ==> cfg.ctrClamp >= 0.0
    ensures Delta2Bbox(roi, Repeat(0.0, 4 * n), cfg, exp, clip) == Tile(roi.Seq(), n)
  {
    var r := Delta2Bbox(roi, Repeat(0.0, 4 * n), cfg, exp, clip);
    forall k | 0 <= k < n
      ensures RowBox(r, k) == roi
    {
      ZeroRowGroup(roi, n, cfg, exp, clip, k);
    }
    RowOfEqualGroups(r, roi, n);
  }

  /** Called with its keyword defaults, the decoder returns the roi once per
      group for a row of zero deltas. */
  lemma DefaultZeroRow(roi: Box, n: nat, maxRatio: real, exp: real -> real, clip: ClipFn)
    requires IsExp(exp) && maxRatio >= 0.0
    ensures Delta2Bbox(roi, Repeat(0.0, 4 * n), DefaultConfig(maxRatio), exp, clip) == Tile(roi.Seq(), n)
  {
    ZeroRowDecodesToRoi(roi, n, DefaultConfig(maxRatio), exp, clip);
  }

  /** A row of `n` groups that all read as the box `v` is `v` tiled `n` times. */
  lemma RowOfEqualGroups(r: seq<real>, v: Box, n: nat)
    requires |r| == 4 * n
    requires forall k :: 0 <= k < n ==> RowBox(r, k) == v
    ensures r == Tile(v.Seq(), n)
  {
    var t := Tile(v.Seq(), n);
    forall i | 0 <= i < 4 * n
      ensures r[i] == t[i]
    {
      var k, j := i / 4, i % 4;
      assert i == 4 * k + j;
      assert RowBox(r, k) == v;
      assert j == 0 || j == 1 || j == 2 || j == 3;
    }
  }

  /** Without clipping, a roi with x1 <= x2 and y1 <= y2 decodes to boxes that
      have the same property, group by group. */
  lemma RowOrdered(roi: Box, deltas: seq<real>, cfg: DecodeConfig, exp: real -> real, clip: ClipFn, k: nat)
    requires IsExp(exp) && roi.x1 <= roi.x2 && roi.y1 <= roi.y2
    requires |deltas| % 4 == 0 && !Clips(cfg) && 4 * k + 3 < |deltas|
    ensures var b := RowBox(Delta2Bbox(roi, deltas, cfg, exp, clip), k);
            b.x1 <= b.x2 && b.y1 <= b.y2
  {
    DecodeGroupOrdered(roi, Denormalized(GroupAt(deltas, k), cfg), cfg, exp);
    RowDecodesGroupwise(roi, deltas, cfg, exp, clip, k);
  }

  /** With the default `means` and `stds` and the symmetric ratio clamp, a row
      of one group `(0, 0, a, a)` with `exp(a) = 2`, `a` within the clamp,
      doubles the roi about its centre: each corner moves out by half the
      roi's width or height. */
  lemma DoublingExample(roi: Box, cfg: DecodeConfig, exp: real -> real, a: real, clip: ClipFn)
    requires cfg.means == Delta(0.0, 0.0, 0.0, 0.0) && cfg.stds == Delta(1.0, 1.0, 1.0, 1.0)
    requires !Clips(cfg) && !cfg.addCtrClamp
    requires exp(a) == 2.0 && -cfg.maxRatio <= a <= cfg.maxRatio
    ensures |Delta2Bbox(roi, [0.0, 0.0, a, a], cfg, exp, clip)| == 4
    ensures RowBox(Delta2Bbox(roi, [0.0, 0.0, a, a], cfg, exp, clip), 0)
            == Box(roi.x1 - Width(roi) * 0.5, roi.y1 - Height(roi) * 0.5,
                   roi.x2 + Width(roi) * 0.5, roi.y2 + Height(roi) * 0.5)
  {
    var deltas := [0.0, 0.0, a, a];
    var g := Delta(0.0, 0.0, a, a);
    assert GroupAt(deltas, 0) == g;
    DefaultDenormalizedIdentity(g, cfg);
    DoublingGroup(roi, cfg, exp, a);
    RowDecodesGroupwise(roi, deltas, cfg, exp, clip, 0);
  }
}
