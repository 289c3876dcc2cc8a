/** The ncnn decoder `delta2bbox_ncnn` on one roi row.

It differs from the default decoder only in how the operands are shaped:
a row of exactly four deltas is cut with width-one slices instead of
stride-4 slices, and the roi's centre and size are kept as width-one
columns that are expanded to the delta columns only when their width is not
already 4. The height guard tests the centre column `px`, which by then has
been expanded to K entries, so for K = 4 the height column stays one entry
wide and is broadcast by the multiplications instead.

`VariantsAgree` states that none of this shows in the result: for every row
length, without border clipping or with a clipping routine applied to the
roi row's corner columns, the two decoders return the same row.
 */
module DecoderNcnn {
  import opened Layout
  import opened Boxes
  import opened Elementwise
  import opened GroupDecode
  import opened Decoder

  /** The ncnn split of the denormalised row: width-one slices `0:1`, `1:2`,
      `2:3`, `3:4` when the row holds exactly four entries, stride-4 slices
      otherwise. Either way it is the stride-4 split. */
  function SplitNcnn(denorm: seq<real>): (d: Columns)
    requires |denorm| % 4 == 0
    ensures d == SplitStrided(denorm)
  {
    if |denorm| == 4 then
      var d := Columns(denorm[0..1], denorm[1..2], denorm[2..3], denorm[3..4]);
      var s := SplitStrided(denorm);
      assert s.Get(0)[0] == denorm[0] && s.Get(1)[0] == denorm[1];
      assert s.Get(2)[0] == denorm[2] && s.Get(3)[0] == denorm[3];
      d
    else
      SplitStrided(denorm)
  }

  /** The roi's centre and size as the ncnn variant shapes them: computed on
      the width-one slices `roi[0:1]` .. `roi[3:4]`, then expanded to the
      delta columns unless already 4 wide. The last guard tests `px` after
      its own expansion, so the height column is expanded exactly when the
      row does not hold four groups. Every column broadcasts to the K entries
      of the deltas and reads as the roi's centre and size at each of them. */
  function RoiColumnsNcnn(roi: Box, d: Columns): (p: Columns)
    requires d.Uniform()
    ensures FitsAll(p, d.Width())
    ensures forall k :: 0 <= k < d.Width() ==> CenterAt(p, k) == CenterSizeOf(roi)
    ensures |p.c0| == |p.c1| == |p.c2| == d.Width()
    ensures |p.c3| == if d.Width() == 4 then 1 else d.Width()
  {
    var r := roi.Seq();
    var x1, y1, x2, y2 := r[0..1], r[1..2], r[2..3], r[3..4];
    var px0, py0 := Scale(Add(x1, x2), 0.5), Scale(Add(y1, y2), 0.5);
    var pw0, ph0 := Sub(x2, x1), Sub(y2, y1);
    assert |px0| == 1 && px0[0] == CenterSizeOf(roi).cx && |py0| == 1 && py0[0] == CenterSizeOf(roi).cy;
    assert |pw0| == 1 && pw0[0] == CenterSizeOf(roi).w && |ph0| == 1 && ph0[0] == CenterSizeOf(roi).h;
    var px := if |px0| != 4 then ExpandAs(px0, d.c0) else px0;
    var py := if |py0| != 4 then ExpandAs(py0, d.c1) else py0;
    var pw := if |pw0| != 4 then ExpandAs(pw0, d.c2) else pw0;
    var ph := if |px| != 4 then ExpandAs(ph0, d.c3) else ph0;
    Columns(px, py, pw, ph)
  }

  /** `delta2bbox_ncnn` on one roi and its row of `4 * K` deltas. */
  function Delta2BboxNcnn(roi: Box, deltas: seq<real>, cfg: DecodeConfig, exp: real -> real, clip: ClipFn): (r: seq<real>)
    requires |deltas| % 4 == 0
    requires Clips(cfg) ==> ShapePreserving(clip)
    ensures |r| == |deltas|
  {
    var d := SplitNcnn(Denormalize(deltas, cfg));
    Restack(DecodeColumns(RoiColumnsNcnn(roi, d), d, cfg, exp), cfg, clip)
  }

  /** Four corner columns of equal width are equal when they hold the same
      box at every entry. */
  lemma ColumnsExtensional(a: Columns, b: Columns)
    requires a.Uniform() && b.Uniform() && a.Width() == b.Width()
    requires forall k :: 0 <= k < a.Width() ==> BoxAt(a, k) == BoxAt(b, k)
    ensures a == b
  {
    assert a.c0 == b.c0 by {
      forall k | 0 <= k < a.Width() ensures a.c0[k] == b.c0[k] { assert BoxAt(a, k) == BoxAt(b, k); }
    }
    assert a.c1 == b.c1 by {
      forall k | 0 <= k < a.Width() ensures a.c1[k] == b.c1[k] { assert BoxAt(a, k) == BoxAt(b, k); }
    }
    assert a.c2 == b.c2 by {
      forall k | 0 <= k < a.Width() ensures a.c2[k] == b.c2[k] { assert BoxAt(a, k) == BoxAt(b, k); }
    }
    assert a.c3 == b.c3 by {
      forall k | 0 <= k < a.Width() ensures a.c3[k] == b.c3[k] { assert BoxAt(a, k) == BoxAt(b, k); }
    }
  }

  /** The column-wise arithmetic sees the centre/size columns only through
      their broadcast entries: columns shaped differently but reading the same
      at every entry decode alike. */
  lemma DecodeColumnsBroadcastInvariant(p: Columns, q: Columns, d: Columns, cfg: DecodeConfig, exp: real -> real)
    requires d.Uniform() && FitsAll(p, d.Width()) && FitsAll(q, d.Width())
    requires forall k :: 0 <= k < d.Width() ==> CenterAt(p, k) == CenterAt(q, k)
    ensures DecodeColumns(p, d, cfg, exp) == DecodeColumns(q, d, cfg, exp)
  {
    var a, b := DecodeColumns(p, d, cfg, exp), DecodeColumns(q, d, cfg, exp);
    forall k | 0 <= k < a.Width()
      ensures BoxAt(a, k) == BoxAt(b, k)
    {
      DecodeColumnsAt(p, d, cfg, exp, k);
      DecodeColumnsAt(q, d, cfg, exp, k);
      assert CenterAt(p, k) == CenterAt(q, k);
    }
    ColumnsExtensional(a, b);
  }

  /** The ncnn decoder and the default decoder return the same row for every
      roi, every row of `4 * K` deltas (K = 1 and K = 4 included), every
      configuration and every shape-preserving border-clipping routine on the
      roi row's corner columns. */
  lemma VariantsAgree(roi: Box, deltas: seq<real>, cfg: DecodeConfig, exp: real -> real, clip: ClipFn)
    requires |deltas| % 4 == 0
    requires Clips(cfg) ==> ShapePreserving(clip)
    ensures Delta2BboxNcnn(roi, deltas, cfg, exp, clip) == Delta2Bbox(roi, deltas, cfg, exp, clip)
  {
    var d := SplitStrided(Denormalize(deltas, cfg));
    var p, q := RoiColumnsNcnn(roi, d), RoiColumns(roi, d);
    forall k | 0 <= k < d.Width()
      ensures CenterAt(p, k) == CenterAt(q, k)
    {
      assert CenterAt(p, k) == CenterSizeOf(roi);
    }
    DecodeColumnsBroadcastInvariant(p, q, d, cfg, exp);
  }

  /** Consequently the ncnn decoder, too, decodes group by group: without
      clipping, output group `k` is the roi decoded with delta group `k`. */
  lemma NcnnRowDecodesGroupwise(roi: Box, deltas: seq<real>, cfg: DecodeConfig, exp: real -> real, clip: ClipFn, k: nat)
    requires |deltas| % 4 == 0 && !Clips(cfg) && 4 * k + 3 < |deltas|
    ensures RowBox(Delta2BboxNcnn(roi, deltas, cfg, exp, clip), k)
            == DecodeGroup(roi, Denormalized(GroupAt(deltas, k), cfg), cfg, exp)
  {
    VariantsAgree(roi, deltas, cfg, exp, clip);
    RowDecodesGroupwise(roi, deltas, cfg, exp, clip, k);
  }
}
