/**
 * Helpers every renderer shares (the abstract base renderer): the
 * world-to-scene affine map, length scaling in both directions and the
 * stroke style chosen from a line thickness.
 */
module Projection {
  import opened Geometry
  import opened Surface
  import opened DrawingContext

  /** `(base + p) * scale`, componentwise: offset first, scale second. */
  function AffineMap(p: Point, base: Point, scale: real): Point
  {
    Point((base.x + p.x) * scale, (base.y + p.y) * scale)
  }

  /** The world-to-scene map reads the base and the scale of the context and nothing else. */
  function ConvertWorldPointToScenePoint(p: Point, ctx: Context): (q: Point)
  {
    AffineMap(p, ctx.base, ctx.scale)
  }

  function ScaleWorldLengthToSceneLength(length: real, ctx: Context): (r: real)
  {
    length * ctx.scale
  }

  /** The world length that the scale maps onto the given scene length. */
  function ScaleSceneLengthToWorldLength(length: real, ctx: Context): (r: real)
    requires ctx.scale != 0.0
    ensures r * ctx.scale == length
  {
    length / ctx.scale
  }

  /** Stroke width in pixels: 2 for Thick, 1 for every other thickness. */
  function LineWidthOf(thickness: LineThickness): (w: nat)
    ensures w == 2 <==> thickness == Thick
    ensures w == 1 <==> thickness != Thick
  {
    match thickness
    case Thick => 2
    case _ => 1
  }

  /** The two operations `setStrokeStyle` performs. */
  function StrokeStyleOps(thickness: LineThickness): (ops: seq<SurfaceOp>)
  {
    [SurfaceOp.SetStrokeStyle(Black), SetLineWidth(LineWidthOf(thickness))]
  }

  method SetStrokeStyle(thickness: LineThickness, canvas: Canvas)
    modifies canvas
    ensures canvas.ops == old(canvas.ops) + StrokeStyleOps(thickness)
    ensures canvas.ops[|canvas.ops| - 2] == SurfaceOp.SetStrokeStyle(Black)
    ensures canvas.ops[|canvas.ops| - 1] == SetLineWidth(if thickness == Thick then 2 else 1)
  {
    canvas.StrokeStyle(Black);
    match thickness {
      case Thick => canvas.LineWidth(2);
      case Thin => canvas.LineWidth(1);
    }
  }

  /** The map differs between two points by `scale` times their world difference. */
  lemma ConvertIsAffine(p: Point, q: Point, ctx: Context)
    ensures ConvertWorldPointToScenePoint(p, ctx).x - ConvertWorldPointToScenePoint(q, ctx).x == ctx.scale * (p.x - q.x)
    ensures ConvertWorldPointToScenePoint(p, ctx).y - ConvertWorldPointToScenePoint(q, ctx).y == ctx.scale * (p.y - q.y)
  {
  }

  /** The world point `-base` lands on the scene origin. */
  lemma ConvertNegatedBaseIsOrigin(ctx: Context)
    ensures ConvertWorldPointToScenePoint(Point(-ctx.base.x, -ctx.base.y), ctx) == Point(0.0, 0.0)
  {
  }

  /** Scaling a world length to the scene and back gives it back. */
  lemma LengthRoundTrip(length: real, ctx: Context)
    requires ctx.scale != 0.0
    ensures ScaleSceneLengthToWorldLength(ScaleWorldLengthToSceneLength(length, ctx), ctx) == length
    ensures ScaleWorldLengthToSceneLength(ScaleSceneLengthToWorldLength(length, ctx), ctx) == length
  {
  }

  /** The projection of a point scales with the scale factor: zooming by k multiplies scene coordinates by k. */
  lemma ConvertScales(p: Point, ctx: Context, k: real)
    ensures ConvertWorldPointToScenePoint(p, ctx.(scale := ctx.scale * k)) == ScalePoint(ConvertWorldPointToScenePoint(p, ctx), k)
  {
  }

  /** Lengths scale with the scale factor: zooming by k multiplies scene lengths by k. */
  lemma LengthScales(length: real, ctx: Context, k: real)
    ensures ScaleWorldLengthToSceneLength(length, ctx.(scale := ctx.scale * k)) == ScaleWorldLengthToSceneLength(length, ctx) * k
  {
  }

  /** The projection reads only the base and the scale of the context. */
  lemma ConvertReadsView(p: Point, length: real, ctx1: Context, ctx2: Context)
    requires ctx1.base == ctx2.base && ctx1.scale == ctx2.scale
    ensures ConvertWorldPointToScenePoint(p, ctx1) == ConvertWorldPointToScenePoint(p, ctx2)
    ensures ScaleWorldLengthToSceneLength(length, ctx1) == ScaleWorldLengthToSceneLength(length, ctx2)
  {
  }
}
