/** The decoder's arithmetic on one group of four deltas against one roi.

This is the reference the row-level decoders are proved against: what
one box comes out of one roi and one group of (denormalised) deltas.
 */
module GroupDecode {
  import opened Boxes
  import opened Clamping
  import opened ExpLaws
  import opened Elementwise

  /** The four quantities that leave the clamping step: the centre shifts in
      absolute units and the log-scale size changes. */
  datatype Clamped = Clamped(shiftX: real, shiftY: real, dw: real, dh: real)

  /** The numerical-safety clamps. With `addCtrClamp` the centre shifts are
      bounded by `ctrClamp` and the log-scales only from above; otherwise the
      shifts pass unchanged and the log-scales are bounded on both sides. */
  function ClampStep(shiftX: real, shiftY: real, dw: real, dh: real, cfg: DecodeConfig): (r: Clamped)
    ensures !cfg.addCtrClamp ==>
              && r.shiftX == shiftX && r.shiftY == shiftY
              && -cfg.maxRatio <= r.dw <= cfg.maxRatio && -cfg.maxRatio <= r.dh <= cfg.maxRatio
              && (-cfg.maxRatio <= dw <= cfg.maxRatio ==> r.dw == dw)
              && (-cfg.maxRatio <= dh <= cfg.maxRatio ==> r.dh == dh)
    ensures cfg.addCtrClamp ==>
              && r.dw <= cfg.maxRatio && r.dh <= cfg.maxRatio
              && (dw <= cfg.maxRatio ==> r.dw == dw) && (dh <= cfg.maxRatio ==> r.dh == dh)
              && (0.0 <= cfg.ctrClamp ==>
                    -cfg.ctrClamp <= r.shiftX <= cfg.ctrClamp && -cfg.ctrClamp <= r.shiftY <= cfg.ctrClamp)
              && (-cfg.ctrClamp <= shiftX <= cfg.ctrClamp ==> r.shiftX == shiftX)
              && (-cfg.ctrClamp <= shiftY <= cfg.ctrClamp ==> r.shiftY == shiftY)
  {
    var c, m := cfg.ctrClamp, cfg.maxRatio;
    if cfg.addCtrClamp then
      Clamped(Clamp(shiftX, -c, c), Clamp(shiftY, -c, c), ClampMax(dw, m), ClampMax(dh, m))
    else
      Clamped(shiftX, shiftY, Clamp(dw, -m, m), Clamp(dh, -m, m))
  }

  /** Denormalisation of one delta: `d * std + mean`. */
  function Denorm(d: real, std: real, mean: real): real {
    d * std + mean
  }

  /** Denormalisation of one group, coordinate by coordinate. */
  function Denormalized(g: Delta, cfg: DecodeConfig): Delta {
    Delta(Denorm(g.dx, cfg.stds.dx, cfg.means.dx), Denorm(g.dy, cfg.stds.dy, cfg.means.dy),
          Denorm(g.dw, cfg.stds.dw, cfg.means.dw), Denorm(g.dh, cfg.stds.dh, cfg.means.dh))
  }

  /** The centre moved by the shifts of `t` and the size scaled by exp of
      its log-scales. */
  function ShiftScale(p: CenterSize, t: Clamped, exp: real -> real): CenterSize {
    CenterSize(p.cx + t.shiftX, p.cy + t.shiftY, Times(p.w, exp(t.dw)), Times(p.h, exp(t.dh)))
  }


  /** The centre and size of the box decoded from a roi of centre and size `p`
      and denormalised deltas `g`: the centre shifted by the size times
      (dx, dy), the size scaled by exp of (dw, dh), all after the clamps. */
  function DecodeCenter(p: CenterSize, g: Delta, cfg: DecodeConfig, exp: real -> real): CenterSize {
    ShiftScale(p, ClampStep(Times(p.w, g.dx), Times(p.h, g.dy), g.dw, g.dh, cfg), exp)
  }

  /** The decoded box, before border clipping. */
  function DecodeGroup(roi: Box, g: Delta, cfg: DecodeConfig, exp: real -> real): Box {
    CornersOf(DecodeCenter(CenterSizeOf(roi), g, cfg, exp))
  }

  /** The default `means` (zeros) and `stds` (ones) leave deltas unchanged. */
  lemma DefaultDenormalizedIdentity(g: Delta, cfg: DecodeConfig)
    requires cfg.means == Delta(0.0, 0.0, 0.0, 0.0) && cfg.stds == Delta(1.0, 1.0, 1.0, 1.0)
    ensures Denormalized(g, cfg) == g
  {
  }

  /** With the symmetric ratio clamp, log-scale deltas `a` with `exp(a) = 2`,
      within the clamp, double a roi about its centre: each corner moves out
      by half the roi's width or height. */
  lemma DoublingGroup(roi: Box, cfg: DecodeConfig, exp: real -> real, a: real)
    requires exp(a) == 2.0 && !cfg.addCtrClamp && -cfg.maxRatio <= a <= cfg.maxRatio
    ensures DecodeGroup(roi, Delta(0.0, 0.0, a, a), cfg, exp)
            == Box(roi.x1 - Width(roi) * 0.5, roi.y1 - Height(roi) * 0.5,
                   roi.x2 + Width(roi) * 0.5, roi.y2 + Height(roi) * 0.5)
  {
    var p := CenterSizeOf(roi);
    var s := ClampStep(p.w * 0.0, p.h * 0.0, a, a, cfg);
    assert s == Clamped(0.0, 0.0, a, a);
    assert DecodeCenter(p, Delta(0.0, 0.0, a, a), cfg, exp) == CenterSize(p.cx, p.cy, p.w * 2.0, p.h * 2.0);
  }

  /** The decoded box has the decoded centre and size: the corner conversion
      loses nothing. */
  lemma DecodeGroupCenterSize(roi: Box, g: Delta, cfg: DecodeConfig, exp: real -> real)
    ensures CenterSizeOf(DecodeGroup(roi, g, cfg, exp)) == DecodeCenter(CenterSizeOf(roi), g, cfg, exp)
  {
    CenterSizeOfCorners(DecodeCenter(CenterSizeOf(roi), g, cfg, exp));
  }

  /** A well-formed roi decodes to a well-formed box: exp is positive, so the
      decoded width and height keep the sign of the roi's. */
  lemma DecodeGroupOrdered(roi: Box, g: Delta, cfg: DecodeConfig, exp: real -> real)
    requires IsExp(exp)
    requires roi.x1 <= roi.x2 && roi.y1 <= roi.y2
    ensures var b := DecodeGroup(roi, g, cfg, exp); b.x1 <= b.x2 && b.y1 <= b.y2
  {
    var p := CenterSizeOf(roi);
    var s := ClampStep(p.w * g.dx, p.h * g.dy, g.dw, g.dh, cfg);
    MulMonotone(p.w, 0.0, exp(s.dw));
    MulMonotone(p.h, 0.0, exp(s.dh));
  }

  /** Zero deltas decode every roi to itself, provided the centre clamp, if
      on, admits a zero shift. */
  lemma ZeroDeltaIdentity(roi: Box, cfg: DecodeConfig, exp: real -> real)
    requires IsExp(exp)
    requires cfg.addCtrClamp ==> cfg.ctrClamp >= 0.0
    ensures DecodeGroup(roi, Delta(0.0, 0.0, 0.0, 0.0), cfg, exp) == roi
  {
    var p := CenterSizeOf(roi);
    var s := ClampStep(p.w * 0.0, p.h * 0.0, 0.0, 0.0, cfg);
    assert s == Clamped(0.0, 0.0, 0.0, 0.0);
    assert DecodeCenter(p, Delta(0.0, 0.0, 0.0, 0.0), cfg, exp) == p;
    CornersOfCenterSize(roi);
  }

  /** In the symmetric mode the decoded width saturates: every `dw` at or above
      `maxRatio` gives width `pw * exp(maxRatio)`, every `dw` at or below
      `-maxRatio` gives `pw * exp(-maxRatio)`; likewise for the height. */
  lemma SizeSaturates(roi: Box, g: Delta, cfg: DecodeConfig, exp: real -> real)
    requires !cfg.addCtrClamp
    ensures var b, p := DecodeGroup(roi, g, cfg, exp), CenterSizeOf(roi);
            && (g.dw >= cfg.maxRatio ==> b.x2 - b.x1 == p.w * exp(cfg.maxRatio))
            && (g.dw <= -cfg.maxRatio ==> b.x2 - b.x1 == p.w * exp(-cfg.maxRatio))
            && (g.dh >= cfg.maxRatio ==> b.y2 - b.y1 == p.h * exp(cfg.maxRatio))
            && (g.dh <= -cfg.maxRatio ==> b.y2 - b.y1 == p.h * exp(-cfg.maxRatio))
  {
  }

  /** The decoded width and height are the roi's scaled by exp of the clamped
      log-scales. */
  lemma DecodedSize(roi: Box, g: Delta, cfg: DecodeConfig, exp: real -> real)
    ensures var s := ClampStep(Width(roi) * g.dx, Height(roi) * g.dy, g.dw, g.dh, cfg);
            && Width(DecodeGroup(roi, g, cfg, exp)) == Width(roi) * exp(s.dw)
            && Height(DecodeGroup(roi, g, cfg, exp)) == Height(roi) * exp(s.dh)
  {
  }

  /** The decoded centre is the roi centre moved by the clamped shifts: the
      roi width times `dx` along x and the roi height times `dy` along y. In the
      symmetric mode these shifts are not clamped at all. */
  lemma DecodedCenter(roi: Box, g: Delta, cfg: DecodeConfig, exp: real -> real)
    ensures var b := DecodeGroup(roi, g, cfg, exp);
            var s := ClampStep(Width(roi) * g.dx, Height(roi) * g.dy, g.dw, g.dh, cfg);
            && (b.x1 + b.x2) * 0.5 == (roi.x1 + roi.x2) * 0.5 + s.shiftX
            && (b.y1 + b.y2) * 0.5 == (roi.y1 + roi.y2) * 0.5 + s.shiftY
            && (!cfg.addCtrClamp ==> (b.x1 + b.x2) * 0.5 == (roi.x1 + roi.x2) * 0.5 + Width(roi) * g.dx)
            && (!cfg.addCtrClamp ==> (b.y1 + b.y2) * 0.5 == (roi.y1 + roi.y2) * 0.5 + Height(roi) * g.dy)
  {
    var p := CenterSizeOf(roi);
    assert p.w == Width(roi) && p.h == Height(roi);
    assert Times(p.w, g.dx) == Width(roi) * g.dx && Times(p.h, g.dy) == Height(roi) * g.dy;
    var s := ClampStep(Times(p.w, g.dx), Times(p.h, g.dy), g.dw, g.dh, cfg);
    var c := CenterSizeOf(DecodeGroup(roi, g, cfg, exp));
    assert c == ShiftScale(p, s, exp) by {
      DecodeGroupCenterSize(roi, g, cfg, exp);
    }
    assert c.cx == p.cx + s.shiftX && c.cy == p.cy + s.shiftY;
  }

  /** In the symmetric mode the decoded width is the roi width scaled by a factor
      between `exp(-maxRatio)` and `exp(maxRatio)`, so for a roi of non-negative
      width it lies between `pw * exp(-maxRatio)` and `pw * exp(maxRatio)`;
      likewise the height. */
  lemma SizeBounded(roi: Box, g: Delta, cfg: DecodeConfig, exp: real -> real)
    requires IsExp(exp) && !cfg.addCtrClamp
    requires roi.x1 <= roi.x2 && roi.y1 <= roi.y2
    ensures var s := ClampStep(Width(roi) * g.dx, Height(roi) * g.dy, g.dw, g.dh, cfg);
            && Width(DecodeGroup(roi, g, cfg, exp)) == Width(roi) * exp(s.dw)
            && Width(roi) * exp(-cfg.maxRatio) <= Width(roi) * exp(s.dw) <= Width(roi) * exp(cfg.maxRatio)
            && Height(DecodeGroup(roi, g, cfg, exp)) == Height(roi) * exp(s.dh)
            && Height(roi) * exp(-cfg.maxRatio) <= Height(roi) * exp(s.dh) <= Height(roi) * exp(cfg.maxRatio)
  {
    DecodedSize(roi, g, cfg, exp);
    ScalesBetween(roi, g, cfg, exp);
  }

  /** The roi size scaled by exp of a symmetric-clamped log-scale lies between
      the size scaled by exp(-maxRatio) and by exp(maxRatio). */
  lemma ScalesBetween(roi: Box, g: Delta, cfg: DecodeConfig, exp: real -> real)
    requires IsExp(exp) && !cfg.addCtrClamp
    requires roi.x1 <= roi.x2 && roi.y1 <= roi.y2
    ensures var s := ClampStep(Width(roi) * g.dx, Height(roi) * g.dy, g.dw, g.dh, cfg);
            && Width(roi) * exp(-cfg.maxRatio) <= Width(roi) * exp(s.dw) <= Width(roi) * exp(cfg.maxRatio)
            && Height(roi) * exp(-cfg.maxRatio) <= Height(roi) * exp(s.dh) <= Height(roi) * exp(cfg.maxRatio)
  {
    var s := ClampStep(Width(roi) * g.dx, Height(roi) * g.dy, g.dw, g.dh, cfg);
    ExpMonotone(exp, -cfg.maxRatio, s.dw);
    ExpMonotone(exp, s.dw, cfg.maxRatio);
    ExpMonotone(exp, -cfg.maxRatio, s.dh);
    ExpMonotone(exp, s.dh, cfg.maxRatio);
    MulMonotone(Width(roi), exp(-cfg.maxRatio), exp(s.dw));
    MulMonotone(Width(roi), exp(s.dw), exp(cfg.maxRatio));
    MulMonotone(Height(roi), exp(-cfg.maxRatio), exp(s.dh));
    MulMonotone(Height(roi), exp(s.dh), exp(cfg.maxRatio));
  }

  /** With the centre clamp on, the decoded centre lies within `ctrClamp` of the roi centre. */
  lemma CenterShiftBounded(roi: Box, g: Delta, cfg: DecodeConfig, exp: real -> real)
    requires cfg.addCtrClamp && cfg.ctrClamp >= 0.0
    ensures var b, p := CenterSizeOf(DecodeGroup(roi, g, cfg, exp)), CenterSizeOf(roi);
            && -cfg.ctrClamp <= b.cx - p.cx <= cfg.ctrClamp
            && -cfg.ctrClamp <= b.cy - p.cy <= cfg.ctrClamp
  {
    DecodeGroupCenterSize(roi, g, cfg, exp);
  }

  /** A larger log-scale never gives a narrower box (roi width non-negative),
      and inside the clamp range a strictly larger one gives a strictly wider
      box (roi width positive). */
  lemma WidthMonotone(roi: Box, g: Delta, dw2: real, cfg: DecodeConfig, exp: real -> real)
    requires IsExp(exp) && roi.x1 <= roi.x2 && g.dw <= dw2
    ensures Width(DecodeGroup(roi, g, cfg, exp)) <= Width(DecodeGroup(roi, g.(dw := dw2), cfg, exp))
    ensures roi.x1 < roi.x2 && g.dw < dw2 && dw2 <= cfg.maxRatio && (!cfg.addCtrClamp ==> -cfg.maxRatio <= g.dw)
            ==> Width(DecodeGroup(roi, g, cfg, exp)) < Width(DecodeGroup(roi, g.(dw := dw2), cfg, exp))
  {
    DecodedSize(roi, g, cfg, exp);
    DecodedSize(roi, g.(dw := dw2), cfg, exp);
    ScaleMonotone(roi, g, dw2, cfg, exp);
  }

  /** The roi width scaled by exp of the clamped log-scale grows with the
      log-scale, strictly inside the clamp range. */
  lemma ScaleMonotone(roi: Box, g: Delta, dw2: real, cfg: DecodeConfig, exp: real -> real)
    requires IsExp(exp) && roi.x1 <= roi.x2 && g.dw <= dw2
    ensures var g2 := g.(dw := dw2);
            var s1 := ClampStep(Width(roi) * g.dx, Height(roi) * g.dy, g.dw, g.dh, cfg);
            var s2 := ClampStep(Width(roi) * g2.dx, Height(roi) * g2.dy, g2.dw, g2.dh, cfg);
            && Width(roi) * exp(s1.dw) <= Width(roi) * exp(s2.dw)
            && (roi.x1 < roi.x2 && g.dw < dw2 && dw2 <= cfg.maxRatio && (!cfg.addCtrClamp ==> -cfg.maxRatio <= g.dw)
                ==> Width(roi) * exp(s1.dw) < Width(roi) * exp(s2.dw))
  {
    var g2 := g.(dw := dw2);
    var s1 := ClampStep(Width(roi) * g.dx, Height(roi) * g.dy, g.dw, g.dh, cfg);
    var s2 := ClampStep(Width(roi) * g2.dx, Height(roi) * g2.dy, g2.dw, g2.dh, cfg);
    assert s1.dw <= s2.dw;
    ExpMonotone(exp, s1.dw, s2.dw);
    MulMonotone(Width(roi), exp(s1.dw), exp(s2.dw));
    if roi.x1 < roi.x2 && g.dw < dw2 && dw2 <= cfg.maxRatio && (!cfg.addCtrClamp ==> -cfg.maxRatio <= g.dw) {
      assert s1.dw == g.dw && s2.dw == dw2;
      ExpStrictMonotone(exp, s1.dw, s2.dw);
      MulStrictMonotone(Width(roi), exp(s1.dw), exp(s2.dw));
    }
  }

  lemma MulMonotone(a: real, x: real, y: real)
    requires a >= 0.0 && x <= y
    ensures a * x <= a * y
  {
  }

  lemma MulStrictMonotone(a: real, x: real, y: real)
    requires a > 0.0 && x < y
    ensures a * x < a * y
  {
  }
}
