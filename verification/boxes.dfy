/** Boxes, deltas and the decoder's configuration. */
module Boxes {
  import opened Layout

  datatype Option<T> = None | Some(value: T)

  /** An axis-aligned box by its corners, the layout of a roi and of a decoded box. */
  datatype Box = Box(x1: real, y1: real, x2: real, y2: real) {
    /** The box as a flat group of four, in row order. */
    function Seq(): seq<real> {
      [x1, y1, x2, y2]
    }
  }

  function Width(b: Box): real {
    b.x2 - b.x1
  }

  function Height(b: Box): real {
    b.y2 - b.y1
  }

  /** One group of regression offsets: centre shift (dx, dy) relative to the
      roi size, and log-scale size change (dw, dh). Also the shape of the
      per-coordinate `means` and `stds`. */
  datatype Delta = Delta(dx: real, dy: real, dw: real, dh: real) {
    function Seq(): seq<real> {
      [dx, dy, dw, dh]
    }
  }

  /** A box by its centre and size. */
  datatype CenterSize = CenterSize(cx: real, cy: real, w: real, h: real)

  /** The roi centre `(x1 + x2) * 0.5` and size `x2 - x1`, likewise for y. */
  function CenterSizeOf(b: Box): (c: CenterSize)
    ensures c.cx - c.w * 0.5 == b.x1 && c.cx + c.w * 0.5 == b.x2
    ensures c.cy - c.h * 0.5 == b.y1 && c.cy + c.h * 0.5 == b.y2
  {
    CenterSize((b.x1 + b.x2) * 0.5, (b.y1 + b.y2) * 0.5, b.x2 - b.x1, b.y2 - b.y1)
  }

  /** Centre and size back to corners: `x1 = gx - gw * 0.5`, `x2 = gx + gw * 0.5`, likewise for y. */
  function CornersOf(c: CenterSize): (b: Box)
    ensures b.x2 - b.x1 == c.w && (b.x1 + b.x2) * 0.5 == c.cx
    ensures b.y2 - b.y1 == c.h && (b.y1 + b.y2) * 0.5 == c.cy
    ensures c.w >= 0.0 ==> b.x1 <= b.x2
    ensures c.h >= 0.0 ==> b.y1 <= b.y2
  {
    Box(c.cx - c.w * 0.5, c.cy - c.h * 0.5, c.cx + c.w * 0.5, c.cy + c.h * 0.5)
  }

  /** Corners to centre/size and back is the identity. */
  lemma CornersOfCenterSize(b: Box)
    ensures CornersOf(CenterSizeOf(b)) == b
  {
  }

  /** Centre/size to corners and back is the identity. */
  lemma CenterSizeOfCorners(c: CenterSize)
    ensures CenterSizeOf(CornersOf(c)) == c
  {
  }

  /** The image size `(height, width)` used for border clipping. */
  datatype Shape = Shape(height: real, width: real)

  /** The decoder's keyword arguments. `maxRatio` stands for the derived
      `max_ratio = |log(wh_ratio_clip)|`. */
  datatype Config = Config(
    means: Delta,
    stds: Delta,
    maxShape: Option<Shape>,
    maxRatio: real,
    clipBorder: bool,
    addCtrClamp: bool,
    ctrClamp: real)

  /** A configuration the decoder can see: `max_ratio = |log(wh_ratio_clip)|`
      is never negative. */
  type DecodeConfig = cfg: Config | cfg.maxRatio >= 0.0
    witness Config(Delta(0.0, 0.0, 0.0, 0.0), Delta(1.0, 1.0, 1.0, 1.0), None, 0.0, true, false, 32.0)

  /** Border clipping happens only when it is asked for and an image shape is given. */
  predicate Clips(cfg: Config) {
    cfg.clipBorder && cfg.maxShape.Some?
  }

  /** The keyword defaults: zero means, unit stds, no image shape, border
      clipping on, symmetric ratio clamp, `ctr_clamp = 32`. */
  function DefaultConfig(maxRatio: real): (cfg: DecodeConfig)
    requires maxRatio >= 0.0
    ensures !Clips(cfg) && !cfg.addCtrClamp && cfg.maxRatio == maxRatio
  {
    Config(Delta(0.0, 0.0, 0.0, 0.0), Delta(1.0, 1.0, 1.0, 1.0), None, maxRatio, true, false, 32.0)
  }

  /** The external border-clipping routine, on the four corner columns
      (x1, y1, x2, y2) of a row and the image shape. */
  type ClipFn = (Columns, Shape) -> Columns

  /** What the final reshape to the delta row's size needs of the clipping
      routine: it returns four columns as long as the ones it was given. */
  ghost predicate ShapePreserving(clip: ClipFn) {
    forall c: Columns, s: Shape :: c.Uniform() ==> clip(c, s).Uniform() && clip(c, s).Width() == c.Width()
  }
}
