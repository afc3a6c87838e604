/**
 * The renderer for `drawDoor`: the door leaf (a segment shifted from the
 * pen according to the orientation) and a quarter-circle swing arc centred
 * on the unshifted pen.  The pen does not move.
 */
module DoorDrawer {
  import opened Geometry
  import opened Surface
  import opened DrawingContext
  import opened Projection

  /** Squared distance between two points. */
  function Dist2(p: Point, q: Point): real {
    (p.x - q.x) * (p.x - q.x) + (p.y - q.y) * (p.y - q.y)
  }

  /**
   * The door leaf for a door of `width` at pen `p`.  North and South leaves
   * start `width` to the right of the pen, an East leaf `width` below it and
   * a West leaf at the pen itself; from there the leaf runs `|width|` up for
   * North, down for South, right for East and left for West.
   */
  function DoorLeaf(width: real, orientation: Orientation, p: Point): (s: Segment)
    ensures orientation == North ==> s.start == Point(p.x + width, p.y) && s.end == Point(s.start.x, s.start.y - Abs(width))
    ensures orientation == South ==> s.start == Point(p.x + width, p.y) && s.end == Point(s.start.x, s.start.y + Abs(width))
    ensures orientation == East ==> s.start == Point(p.x, p.y + width) && s.end == Point(s.start.x + Abs(width), s.start.y)
    ensures orientation == West ==> s.start == p && s.end == Point(p.x - Abs(width), p.y)
  {
    match orientation
    case North => Segment(Point(p.x + width, p.y), Point(p.x + width, p.y - Abs(width)))
    case East => Segment(Point(p.x, p.y + width), Point(p.x + Abs(width), p.y + width))
    case South => Segment(Point(p.x + width, p.y), Point(p.x + width, p.y + Abs(width)))
    case West => Segment(p, Point(p.x - Abs(width), p.y))
  }

  /**
   * In every orientation the leaf is axis-aligned (vertical for North/South,
   * horizontal for East/West) and `|width|` long; for North, East and South
   * its start lies on the swing circle around the pen, while for West the
   * start stays at the pen itself and only the end lies on the circle.
   */
  lemma DoorLeafGeometry(width: real, orientation: Orientation, p: Point)
    ensures var s := DoorLeaf(width, orientation, p);
            && (orientation in {North, South} ==> s.start.x == s.end.x && Abs(s.end.y - s.start.y) == Abs(width))
            && (orientation in {East, West} ==> s.start.y == s.end.y && Abs(s.end.x - s.start.x) == Abs(width))
            && (orientation != West ==> Dist2(s.start, p) == width * width)
            && (orientation == West ==> s.start == p && Dist2(s.end, p) == width * width)
  {
    var s := DoorLeaf(width, orientation, p);
    match orientation
    case North =>
      assert s.end.y - s.start.y == -Abs(width);
    case South =>
      assert s.end.y - s.start.y == Abs(width);
    case East =>
      assert s.end.x - s.start.x == Abs(width);
    case West =>
      assert s.end.x - s.start.x == -Abs(width);
      assert Abs(width) * Abs(width) == width * width;
  }

  /** What the renderer draws: the projected leaf, then the swing arc from pi to pi/2, anticlockwise. */
  function DoorOps(width: real, orientation: Orientation, ctx: Context): (ops: seq<SurfaceOp>)
  {
    var leaf := DoorLeaf(width, orientation, ctx.currentPoint);
    [MoveTo(ConvertWorldPointToScenePoint(leaf.start, ctx)),
     LineTo(ConvertWorldPointToScenePoint(leaf.end, ctx)),
     Arc(ConvertWorldPointToScenePoint(ctx.currentPoint, ctx), ScaleWorldLengthToSceneLength(width, ctx), Pi, HalfPi, true),
     Stroke,
     ClosePath]
  }

  /** Copies the pen into `start` and `end`, shifts them per orientation, then draws; the door type is ignored. */
  method Draw(width: real, doorType: DoorType, orientation: Orientation, ctx: Context, canvas: Canvas) returns (u: Update)
    modifies canvas
    ensures u == NoChange
    ensures canvas.ops == old(canvas.ops) + DoorOps(width, orientation, ctx)
  {
    var start := ctx.currentPoint;
    var end := ctx.currentPoint;

    if orientation == North {
      start := start.(x := start.x + width);
      end := end.(x := end.x + width);
      end := end.(y := end.y - Abs(width));
    } else if orientation == East {
      start := start.(y := start.y + width);
      end := end.(x := end.x + Abs(width));
      end := end.(y := end.y + width);
    } else if orientation == South {
      start := start.(x := start.x + width);
      end := end.(x := end.x + width);
      end := end.(y := end.y + Abs(width));
    } else {
      end := end.(x := end.x - Abs(width));
    }
    assert Segment(start, end) == DoorLeaf(width, orientation, ctx.currentPoint);

    canvas.Move(ConvertWorldPointToScenePoint(start, ctx));
    canvas.Line(ConvertWorldPointToScenePoint(end, ctx));
    canvas.DrawArc(ConvertWorldPointToScenePoint(ctx.currentPoint, ctx), ScaleWorldLengthToSceneLength(width, ctx), Pi, HalfPi, true);
    canvas.DoStroke();
    canvas.Close();

    u := NoChange;
  }

  /** The West door of the scripted sketch: the leaf runs from (5315, 80) back to (4515, 80). */
  lemma WestDoorOfSketch()
    ensures DoorLeaf(800.0, West, Point(5315.0, 80.0)) == Segment(Point(5315.0, 80.0), Point(4515.0, 80.0))
  {
  }

  /** The door drawing depends on the base, the scale and the pen only. */
  lemma DoorOpsIgnoreThickness(width: real, orientation: Orientation, ctx: Context, t: LineThickness)
    ensures DoorOps(width, orientation, ctx.(currentThickness := t)) == DoorOps(width, orientation, ctx)
  {
    var ctx' := ctx.(currentThickness := t);
    var leaf := DoorLeaf(width, orientation, ctx.currentPoint);
    ConvertReadsView(leaf.start, width, ctx', ctx);
    ConvertReadsView(leaf.end, width, ctx', ctx);
    assert DoorLeaf(width, orientation, ctx'.currentPoint) == leaf;
    var a := DoorOps(width, orientation, ctx');
    var b := DoorOps(width, orientation, ctx);
    assert a[2] == b[2];
  }

  /** At a scale `k` times larger the door is drawn magnified by `k` about the scene origin. */
  lemma DoorOpsScale(width: real, orientation: Orientation, ctx: Context, k: real)
    ensures DoorOps(width, orientation, ctx.(scale := ctx.scale * k)) == ScaleOps(DoorOps(width, orientation, ctx), k)
  {
    var leaf := DoorLeaf(width, orientation, ctx.currentPoint);
    ConvertScales(leaf.start, ctx, k);
    ConvertScales(leaf.end, ctx, k);
    ConvertScales(ctx.currentPoint, ctx, k);
    LengthScales(width, ctx, k);
    var a := DoorOps(width, orientation, ctx.(scale := ctx.scale * k));
    var b := ScaleOps(DoorOps(width, orientation, ctx), k);
    assert a[0] == b[0] && a[1] == b[1] && a[2] == b[2];
  }
}
