/**
 * The drawing surface, seen abstractly: every call a renderer makes on the
 * 2D canvas context appends one operation to a trace.  Coordinates in the
 * trace are scene (post-projection) coordinates.
 */
module Surface {
  import opened Geometry

  datatype Color = Black | Red | LightBlue

  /** The two angles the door arc uses: Math.PI and Math.PI / 2. */
  datatype Angle = Pi | HalfPi

  datatype SurfaceOp =
    | SetStrokeStyle(color: Color)
    | SetLineWidth(lineWidth: nat)
    | SetFillStyle(color: Color)
    | SetLineDash(dashed: bool)
    | BeginPath
    | ClosePath
    | MoveTo(p: Point)
    | LineTo(p: Point)
    | Arc(center: Point, radius: real, startAngle: Angle, endAngle: Angle, anticlockwise: bool)
    | Rect(origin: Point, width: real, height: real)
    | Fill
    | Stroke
    | ClearRect(origin: Point, width: real, height: real)
    | StrokeText(at: Point)

  /** A point scaled about the scene origin. */
  function ScalePoint(p: Point, k: real): Point {
    Point(p.x * k, p.y * k)
  }

  /**
   * An operation as it would be issued with every scene coordinate and
   * length multiplied by `k`; styles, the surface clear and text are kept.
   */
  function ScaleOp(op: SurfaceOp, k: real): SurfaceOp {
    match op
    case MoveTo(p) => MoveTo(ScalePoint(p, k))
    case LineTo(p) => LineTo(ScalePoint(p, k))
    case Arc(c, r, a, b, anti) => Arc(ScalePoint(c, k), r * k, a, b, anti)
    case Rect(o, w, h) => Rect(ScalePoint(o, k), w * k, h * k)
    case _ => op
  }

  function ScaleOps(ops: seq<SurfaceOp>, k: real): (r: seq<SurfaceOp>)
    ensures |r| == |ops|
    ensures forall i :: 0 <= i < |ops| ==> r[i] == ScaleOp(ops[i], k)
  {
    seq(|ops|, i requires 0 <= i < |ops| => ScaleOp(ops[i], k))
  }

  /** `clearRect(0, 0, canvas.width, canvas.height)`. */
  function ClearAll(width: nat, height: nat): SurfaceOp {
    ClearRect(Point(0.0, 0.0), width as real, height as real)
  }

  /** Appending to a trace in two steps or in one gives the same trace. */
  lemma ConcatAssoc<T>(a: seq<T>, b: seq<T>, c: seq<T>)
    ensures (a + b) + c == a + (b + c)
  {
  }

  lemma ScaleOpsConcat(a: seq<SurfaceOp>, b: seq<SurfaceOp>, k: real)
    ensures ScaleOps(a + b, k) == ScaleOps(a, k) + ScaleOps(b, k)
  {
  }

  /** The canvas element with its 2D context; `ops` records what was drawn. */
  class Canvas {
    const width: nat
    const height: nat
    var ops: seq<SurfaceOp>

    constructor (width: nat, height: nat)
      ensures this.width == width && this.height == height && ops == []
    {
      this.width := width;
      this.height := height;
      ops := [];
    }

    method StrokeStyle(color: Color)
      modifies this
      ensures ops == old(ops) + [SetStrokeStyle(color)]
    {
      ops := ops + [SetStrokeStyle(color)];
    }

    method LineWidth(width: nat)
      modifies this
      ensures ops == old(ops) + [SetLineWidth(width)]
    {
      ops := ops + [SetLineWidth(width)];
    }

    method FillStyle(color: Color)
      modifies this
      ensures ops == old(ops) + [SetFillStyle(color)]
    {
      ops := ops + [SetFillStyle(color)];
    }

    method LineDash(dashed: bool)
      modifies this
      ensures ops == old(ops) + [SetLineDash(dashed)]
    {
      ops := ops + [SetLineDash(dashed)];
    }

    method Begin()
      modifies this
      ensures ops == old(ops) + [BeginPath]
    {
      ops := ops + [BeginPath];
    }

    method Close()
      modifies this
      ensures ops == old(ops) + [ClosePath]
    {
      ops := ops + [ClosePath];
    }

    method Move(p: Point)
      modifies this
      ensures ops == old(ops) + [MoveTo(p)]
    {
      ops := ops + [MoveTo(p)];
    }

    method Line(p: Point)
      modifies this
      ensures ops == old(ops) + [LineTo(p)]
    {
      ops := ops + [LineTo(p)];
    }

    method DrawArc(center: Point, radius: real, startAngle: Angle, endAngle: Angle, anticlockwise: bool)
      modifies this
      ensures ops == old(ops) + [Arc(center, radius, startAngle, endAngle, anticlockwise)]
    {
      ops := ops + [Arc(center, radius, startAngle, endAngle, anticlockwise)];
    }

    method DrawRect(origin: Point, width: real, height: real)
      modifies this
      ensures ops == old(ops) + [Rect(origin, width, height)]
    {
      ops := ops + [Rect(origin, width, height)];
    }

    method DoFill()
      modifies this
      ensures ops == old(ops) + [Fill]
    {
      ops := ops + [Fill];
    }

    method DoStroke()
      modifies this
      ensures ops == old(ops) + [Stroke]
    {
      ops := ops + [Stroke];
    }

    method Clear(origin: Point, width: real, height: real)
      modifies this
      ensures ops == old(ops) + [ClearRect(origin, width, height)]
    {
      ops := ops + [ClearRect(origin, width, height)];
    }

    method Text(at: Point)
      modifies this
      ensures ops == old(ops) + [StrokeText(at)]
    {
      ops := ops + [StrokeText(at)];
    }
  }
}
