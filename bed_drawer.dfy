/**
 * The renderer for `drawBed`: a rectangular outline anchored at the pen and
 * a headboard segment across the head end, both chosen by orientation.  The
 * pen does not move.
 */
module BedDrawer {
  import opened Geometry
  import opened Surface
  import opened DrawingContext
  import opened Projection

  /** Distance of the headboard line from the head edge, in world units. */
  const HeadboardWidth: real := 80.0

  datatype Corners = Corners(topRight: Point, bottomRight: Point, bottomLeft: Point)

  /**
   * The three corners other than the pen.  The outline is an axis-aligned
   * rectangle with the pen as top-left corner; North/South beds extend
   * `width` along X and `length` along Y, East/West beds the other way round.
   */
  function BedCorners(width: real, length: real, orientation: Orientation, p: Point): (c: Corners)
    ensures c.topRight.y == p.y && c.bottomLeft.x == p.x
    ensures c.bottomRight.x == c.topRight.x && c.bottomRight.y == c.bottomLeft.y
    ensures orientation in {North, South} ==> c.topRight.x - p.x == width && c.bottomLeft.y - p.y == length
    ensures orientation in {East, West} ==> c.topRight.x - p.x == length && c.bottomLeft.y - p.y == width
  {
    var (x, y) := (p.x, p.y);
    if orientation == North || orientation == South then
      Corners(Point(x + width, y), Point(x + width, y + length), Point(x, y + length))
    else
      Corners(Point(x + length, y), Point(x + length, y + width), Point(x, y + width))
  }

  /**
   * The headboard line.  It crosses the whole bed from one long side to the
   * other (so its length is the bed's width) and lies `HeadboardWidth` inside
   * the head edge: the top edge for North, the right edge for East, the
   * bottom edge for South and the left edge for West.
   */
  function Headboard(width: real, length: real, orientation: Orientation, p: Point): (s: Segment)
    ensures var c := BedCorners(width, length, orientation, p);
            && (orientation in {North, South} ==>
                  s.start.y == s.end.y && s.start.x == p.x && s.end.x == c.topRight.x)
            && (orientation in {East, West} ==>
                  s.start.x == s.end.x && s.start.y == p.y && s.end.y == c.bottomLeft.y)
            && (orientation == North ==> s.start.y - p.y == HeadboardWidth)
            && (orientation == East ==> c.topRight.x - s.start.x == HeadboardWidth)
            && (orientation == South ==> c.bottomLeft.y - s.start.y == HeadboardWidth)
            && (orientation == West ==> s.start.x - p.x == HeadboardWidth)
  {
    var (x, y) := (p.x, p.y);
    match orientation
    case North => Segment(Point(x, y + HeadboardWidth), Point(x + width, y + HeadboardWidth))
    case East => Segment(Point(x + length - HeadboardWidth, y), Point(x + length - HeadboardWidth, y + width))
    case South => Segment(Point(x, y + length - HeadboardWidth), Point(x + width, y + length - HeadboardWidth))
    case West => Segment(Point(x + HeadboardWidth, y), Point(x + HeadboardWidth, y + width))
  }

  /** What the renderer draws: thick style, the closed outline, then the headboard. */
  function BedOps(width: real, length: real, orientation: Orientation, ctx: Context): (ops: seq<SurfaceOp>)
  {
    var p := ctx.currentPoint;
    var c := BedCorners(width, length, orientation, p);
    var h := Headboard(width, length, orientation, p);
    StrokeStyleOps(Thick)
      + [MoveTo(ConvertWorldPointToScenePoint(p, ctx)),
         LineTo(ConvertWorldPointToScenePoint(c.topRight, ctx)),
         LineTo(ConvertWorldPointToScenePoint(c.bottomRight, ctx)),
         LineTo(ConvertWorldPointToScenePoint(c.bottomLeft, ctx)),
         LineTo(ConvertWorldPointToScenePoint(p, ctx)),
         Stroke,
         MoveTo(ConvertWorldPointToScenePoint(h.start, ctx)),
         LineTo(ConvertWorldPointToScenePoint(h.end, ctx)),
         Stroke]
  }

  /**
   * The headboard endpoints, built field by field from the pen and the
   * corners the way the renderer builds them.
   */
  method HeadboardFromCorners(width: real, length: real, orientation: Orientation, p: Point, corners: Corners)
    returns (headBoardStart: Point, headBoardEnd: Point)
    requires corners == BedCorners(width, length, orientation, p)
    ensures Segment(headBoardStart, headBoardEnd) == Headboard(width, length, orientation, p)
  {
    headBoardStart, headBoardEnd := p, p;
    if orientation == North {
      headBoardStart := headBoardStart.(y := headBoardStart.y + HeadboardWidth);
      headBoardEnd := headBoardEnd.(x := corners.topRight.x);
      headBoardEnd := headBoardEnd.(y := headBoardStart.y);
    } else if orientation == East {
      headBoardStart := headBoardStart.(x := corners.topRight.x - HeadboardWidth);
      headBoardStart := headBoardStart.(y := corners.topRight.y);
      headBoardEnd := headBoardEnd.(x := headBoardStart.x);
      headBoardEnd := headBoardEnd.(y := corners.bottomRight.y);
    } else if orientation == South {
      headBoardStart := headBoardStart.(y := corners.bottomLeft.y - HeadboardWidth);
      headBoardEnd := headBoardEnd.(x := corners.bottomRight.x);
      headBoardEnd := headBoardEnd.(y := headBoardStart.y);
    } else {
      headBoardStart := headBoardStart.(x := headBoardStart.x + HeadboardWidth);
      headBoardEnd := headBoardEnd.(x := headBoardStart.x);
      headBoardEnd := headBoardEnd.(y := corners.bottomLeft.y);
    }
  }

  /** Draws the outline, then builds the headboard endpoints field by field from the corners. */
  method Draw(width: real, length: real, orientation: Orientation, ctx: Context, canvas: Canvas) returns (u: Update)
    modifies canvas
    ensures u == NoChange
    ensures canvas.ops == old(canvas.ops) + BedOps(width, length, orientation, ctx)
  {
    Projection.SetStrokeStyle(Thick, canvas);

    var x, y := ctx.currentPoint.x, ctx.currentPoint.y;
    var corners := BedCorners(width, length, orientation, ctx.currentPoint);
    var topRight, bottomRight, bottomLeft := corners.topRight, corners.bottomRight, corners.bottomLeft;

    canvas.Move(ConvertWorldPointToScenePoint(Point(x, y), ctx));
    canvas.Line(ConvertWorldPointToScenePoint(topRight, ctx));
    canvas.Line(ConvertWorldPointToScenePoint(bottomRight, ctx));
    canvas.Line(ConvertWorldPointToScenePoint(bottomLeft, ctx));
    canvas.Line(ConvertWorldPointToScenePoint(Point(x, y), ctx));
    canvas.DoStroke();

    var headBoardStart, headBoardEnd := HeadboardFromCorners(width, length, orientation, ctx.currentPoint, corners);

    canvas.Move(ConvertWorldPointToScenePoint(headBoardStart, ctx));
    canvas.Line(ConvertWorldPointToScenePoint(headBoardEnd, ctx));
    canvas.DoStroke();

    u := NoChange;
  }

  /** The North bed of the scripted sketch, anchored at (800, 0) and 2120 square. */
  lemma NorthBedOfSketch()
    ensures BedCorners(2120.0, 2120.0, North, Point(800.0, 0.0))
         == Corners(Point(2920.0, 0.0), Point(2920.0, 2120.0), Point(800.0, 2120.0))
    ensures Headboard(2120.0, 2120.0, North, Point(800.0, 0.0)) == Segment(Point(800.0, 80.0), Point(2920.0, 80.0))
  {
  }

  /** The bed drawing depends on the base, the scale and the pen only. */
  lemma BedOpsIgnoreThickness(width: real, length: real, orientation: Orientation, ctx: Context, t: LineThickness)
    ensures BedOps(width, length, orientation, ctx.(currentThickness := t)) == BedOps(width, length, orientation, ctx)
  {
    var ctx' := ctx.(currentThickness := t);
    forall q ensures ConvertWorldPointToScenePoint(q, ctx') == ConvertWorldPointToScenePoint(q, ctx) {
    }
  }

  /** At a scale `k` times larger the bed is drawn magnified by `k` about the scene origin. */
  lemma BedOpsScale(width: real, length: real, orientation: Orientation, ctx: Context, k: real)
    ensures BedOps(width, length, orientation, ctx.(scale := ctx.scale * k)) == ScaleOps(BedOps(width, length, orientation, ctx), k)
  {
    var p := ctx.currentPoint;
    var c := BedCorners(width, length, orientation, p);
    var h := Headboard(width, length, orientation, p);
    ConvertScales(p, ctx, k);
    ConvertScales(c.topRight, ctx, k);
    ConvertScales(c.bottomRight, ctx, k);
    ConvertScales(c.bottomLeft, ctx, k);
    ConvertScales(h.start, ctx, k);
    ConvertScales(h.end, ctx, k);
  }
}
