/**
 * The measurement overlay: a red cross at the anchor the user clicked and,
 * while the cursor moves, a dashed red guide from the anchor to the cursor
 * with a distance label near its middle.  Everything here is in scene
 * coordinates and is drawn on top of a replay; nothing here is recorded in
 * the command log.
 */
module Overlay {
  import opened Geometry
  import opened Surface

  /** Half the length of each arm of the anchor cross, in scene pixels. */
  const CrossArm: real := 10.0

  /** The cross drawn at the anchor `p`. */
  function CrossOps(p: Point): (ops: seq<SurfaceOp>)
  {
    [SetStrokeStyle(Red), SetLineWidth(1), BeginPath,
     MoveTo(Point(p.x - CrossArm, p.y)), LineTo(Point(p.x + CrossArm, p.y)),
     MoveTo(Point(p.x, p.y - CrossArm)), LineTo(Point(p.x, p.y + CrossArm)),
     Stroke, ClosePath]
  }

  /** Where the distance label goes: 5 pixels right of and above the guide's midpoint. */
  function LabelPosition(from: Point, to: Point): (q: Point)
  {
    Point((to.x + from.x) / 2.0 + 5.0, (to.y + from.y) / 2.0 - 5.0)
  }

  /** The dashed guide from the anchor to the cursor, and its label. */
  function GuideOps(from: Point, to: Point): (ops: seq<SurfaceOp>)
  {
    [SetStrokeStyle(Red), SetLineDash(true), BeginPath, MoveTo(from), LineTo(to), Stroke, ClosePath,
     SetLineDash(false), SetLineWidth(1), StrokeText(LabelPosition(from, to))]
  }

  /**
   * The cross is centred on the anchor: its two arms are a horizontal and a
   * vertical stroke of length 20 whose midpoints are the anchor.
   */
  lemma CrossIsCentredOnAnchor(p: Point)
    ensures var ops := CrossOps(p);
            && ops[3].MoveTo? && ops[4].LineTo? && ops[5].MoveTo? && ops[6].LineTo?
            && (ops[3].p.x + ops[4].p.x) / 2.0 == p.x && ops[3].p.y == ops[4].p.y == p.y
            && ops[4].p.x - ops[3].p.x == 2.0 * CrossArm
            && (ops[5].p.y + ops[6].p.y) / 2.0 == p.y && ops[5].p.x == ops[6].p.x == p.x
            && ops[6].p.y - ops[5].p.y == 2.0 * CrossArm
  {
  }

  /**
   * The label sits 5 pixels right of and 5 pixels above the midpoint of the
   * guide segment actually stroked, whichever way round the guide is drawn.
   */
  lemma LabelBesideGuideMidpoint(from: Point, to: Point)
    ensures var ops := GuideOps(from, to);
            && ops[3] == MoveTo(from) && ops[4] == LineTo(to) && ops[|ops| - 1].StrokeText?
            && ops[|ops| - 1].at.x == (ops[3].p.x + ops[4].p.x) / 2.0 + 5.0
            && ops[|ops| - 1].at.y == (ops[3].p.y + ops[4].p.y) / 2.0 - 5.0
            && ops[|ops| - 1] == GuideOps(to, from)[|ops| - 1]
  {
  }
}
