/**
 * The renderer for `drawLine`: strokes the stored segment with the stored
 * thickness and leaves the context unchanged.
 */
module LineDrawer {
  import opened Geometry
  import opened Surface
  import opened DrawingContext
  import opened Projection

  /** What the renderer draws: style, then one stroked path from `start` to `end`. */
  function LineOps(start: Point, end: Point, thickness: LineThickness, ctx: Context): (ops: seq<SurfaceOp>)
  {
    StrokeStyleOps(thickness)
      + [BeginPath,
         MoveTo(ConvertWorldPointToScenePoint(start, ctx)),
         LineTo(ConvertWorldPointToScenePoint(end, ctx)),
         Stroke,
         ClosePath]
  }

  method Draw(start: Point, end: Point, thickness: LineThickness, ctx: Context, canvas: Canvas) returns (u: Update)
    modifies canvas
    ensures u == NoChange
    ensures canvas.ops == old(canvas.ops) + LineOps(start, end, thickness, ctx)
  {
    Projection.SetStrokeStyle(thickness, canvas);
    canvas.Begin();
    canvas.Move(ConvertWorldPointToScenePoint(start, ctx));
    canvas.Line(ConvertWorldPointToScenePoint(end, ctx));
    canvas.DoStroke();
    canvas.Close();
    u := NoChange;
  }

  /**
   * The drawing depends on the stored endpoints and thickness only: the pen
   * position and pen thickness at replay time do not matter, and the stroke
   * width is the command's.
   */
  lemma LineIgnoresPen(start: Point, end: Point, thickness: LineThickness, ctx1: Context, ctx2: Context)
    requires ctx1.base == ctx2.base && ctx1.scale == ctx2.scale
    ensures LineOps(start, end, thickness, ctx1) == LineOps(start, end, thickness, ctx2)
    ensures LineOps(start, end, thickness, ctx1)[1] == SetLineWidth(LineWidthOf(thickness))
  {
    assert ConvertWorldPointToScenePoint(start, ctx1) == ConvertWorldPointToScenePoint(start, ctx2);
    assert ConvertWorldPointToScenePoint(end, ctx1) == ConvertWorldPointToScenePoint(end, ctx2);
  }

  /** At a scale `k` times larger the line is drawn magnified by `k` about the scene origin. */
  lemma LineOpsScale(start: Point, end: Point, thickness: LineThickness, ctx: Context, k: real)
    ensures LineOps(start, end, thickness, ctx.(scale := ctx.scale * k)) == ScaleOps(LineOps(start, end, thickness, ctx), k)
  {
    ConvertScales(start, ctx, k);
    ConvertScales(end, ctx, k);
  }
}
