/**
 * The renderer for `drawWindow`: a filled rectangle straddling the pen,
 * centred across the wall, that also advances the pen by the window's
 * length along the wall.
 */
module WindowDrawer {
  import opened Geometry
  import opened Surface
  import opened DrawingContext
  import opened Projection

  /** Depth of a window across the wall, in world units. */
  const WindowWidth: real := 100.0

  /** An axis-aligned rectangle in world units. */
  datatype WorldRect = WorldRect(origin: Point, width: real, height: real)

  /** Where the pen ends up: `length` further along the window's axis. */
  function WindowAdvance(length: real, isHorizontal: bool, p: Point): (q: Point)
  {
    if isHorizontal then Point(p.x + length, p.y) else Point(p.x, p.y + length)
  }

  /** The partial update the renderer returns: only the pen, moved along the window. */
  function WindowUpdate(length: real, isHorizontal: bool, ctx: Context): (u: Update)
  {
    Update(None, Some(WindowAdvance(length, isHorizontal, ctx.currentPoint)), None)
  }

  /**
   * The window rectangle in world units.  Its centre line along the wall
   * runs from the pen to the advanced pen, and it is `WindowWidth` deep.
   */
  function WindowRect(length: real, isHorizontal: bool, p: Point): (r: WorldRect)
    ensures var q := WindowAdvance(length, isHorizontal, p);
            if isHorizontal then
              && r.height == WindowWidth
              && r.origin.x == p.x && r.origin.x + r.width == q.x
              && r.origin.y + r.height / 2.0 == p.y == q.y
            else
              && r.width == WindowWidth
              && r.origin.y == p.y && r.origin.y + r.height == q.y
              && r.origin.x + r.width / 2.0 == p.x == q.x
  {
    if isHorizontal then WorldRect(Point(p.x, p.y - WindowWidth / 2.0), length, WindowWidth)
    else WorldRect(Point(p.x - WindowWidth / 2.0, p.y), WindowWidth, length)
  }

  /** What the renderer draws: thick black stroke, light-blue fill, the projected rectangle. */
  function WindowOps(length: real, isHorizontal: bool, ctx: Context): (ops: seq<SurfaceOp>)
  {
    var r := WindowRect(length, isHorizontal, ctx.currentPoint);
    StrokeStyleOps(Thick)
      + [SetFillStyle(LightBlue),
         Rect(ConvertWorldPointToScenePoint(r.origin, ctx),
              ScaleWorldLengthToSceneLength(r.width, ctx),
              ScaleWorldLengthToSceneLength(r.height, ctx)),
         Fill,
         Stroke,
         ClosePath]
  }

  method Draw(length: real, isHorizontal: bool, ctx: Context, canvas: Canvas) returns (u: Update)
    modifies canvas
    ensures u == WindowUpdate(length, isHorizontal, ctx)
    ensures canvas.ops == old(canvas.ops) + WindowOps(length, isHorizontal, ctx)
  {
    Projection.SetStrokeStyle(Thick, canvas);
    canvas.FillStyle(LightBlue);

    var startX := ctx.currentPoint.x - (if isHorizontal then 0.0 else WindowWidth / 2.0);
    var startY := ctx.currentPoint.y - (if isHorizontal then WindowWidth / 2.0 else 0.0);
    var start := ConvertWorldPointToScenePoint(Point(startX, startY), ctx);
    var width := ScaleWorldLengthToSceneLength(if isHorizontal then length else WindowWidth, ctx);
    var height := ScaleWorldLengthToSceneLength(if isHorizontal then WindowWidth else length, ctx);

    canvas.DrawRect(start, width, height);
    canvas.DoFill();
    canvas.DoStroke();
    canvas.Close();

    u := Update(None, Some(if isHorizontal then Point(ctx.currentPoint.x + length, ctx.currentPoint.y)
                           else Point(ctx.currentPoint.x, ctx.currentPoint.y + length)), None);
  }

  /**
   * The window moves the pen along its axis only, and its update never
   * touches scale or thickness.
   */
  lemma WindowMovesAlongItsAxis(length: real, isHorizontal: bool, ctx: Context)
    ensures var after := Merge(ctx, WindowUpdate(length, isHorizontal, ctx));
            && after.scale == ctx.scale && after.currentThickness == ctx.currentThickness && after.base == ctx.base
            && (isHorizontal ==> after.currentPoint.y == ctx.currentPoint.y && after.currentPoint.x - ctx.currentPoint.x == length)
            && (!isHorizontal ==> after.currentPoint.x == ctx.currentPoint.x && after.currentPoint.y - ctx.currentPoint.y == length)
  {
  }

  /** A window is always stroked thick, whatever the pen thickness. */
  lemma WindowAlwaysThick(length: real, isHorizontal: bool, ctx: Context, t: LineThickness)
    ensures WindowOps(length, isHorizontal, ctx.(currentThickness := t)) == WindowOps(length, isHorizontal, ctx)
    ensures WindowOps(length, isHorizontal, ctx)[1] == SetLineWidth(2)
  {
    var r := WindowRect(length, isHorizontal, ctx.currentPoint);
    var ctx' := ctx.(currentThickness := t);
    assert WindowRect(length, isHorizontal, ctx'.currentPoint) == r;
    assert ConvertWorldPointToScenePoint(r.origin, ctx') == ConvertWorldPointToScenePoint(r.origin, ctx);
    assert ScaleWorldLengthToSceneLength(r.width, ctx') == ScaleWorldLengthToSceneLength(r.width, ctx);
    assert ScaleWorldLengthToSceneLength(r.height, ctx') == ScaleWorldLengthToSceneLength(r.height, ctx);
  }

  /** At a scale `k` times larger the window is drawn magnified by `k` about the scene origin. */
  lemma WindowOpsScale(length: real, isHorizontal: bool, ctx: Context, k: real)
    ensures WindowOps(length, isHorizontal, ctx.(scale := ctx.scale * k)) == ScaleOps(WindowOps(length, isHorizontal, ctx), k)
  {
    var r := WindowRect(length, isHorizontal, ctx.currentPoint);
    ConvertScales(r.origin, ctx, k);
    LengthScales(r.width, ctx, k);
    LengthScales(r.height, ctx, k);
    var a := WindowOps(length, isHorizontal, ctx.(scale := ctx.scale * k));
    var b := ScaleOps(WindowOps(length, isHorizontal, ctx), k);
    assert a[3] == b[3];
  }
}
