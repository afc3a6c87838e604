/** The renderer for `moveTo`: a pure pen move, nothing is drawn. */
module MoveToDrawer {
  import opened Geometry
  import opened DrawingContext

  /** `{ currentPoint: target }`; the incoming context is not consulted. */
  function Draw(target: Point, ctx: Context): (u: Update)
    ensures Merge(ctx, u) == ctx.(currentPoint := target)
  {
    Update(None, Some(target), None)
  }

  /** The update does not depend on the context, not even on the previous pen. */
  lemma DrawIgnoresContext(target: Point, ctx1: Context, ctx2: Context)
    ensures Draw(target, ctx1) == Draw(target, ctx2)
  {
  }

  /** Moving to `a` and then to `b` leaves the same context as moving to `b` alone. */
  lemma LaterMoveWins(a: Point, b: Point, ctx: Context)
    ensures var afterA := Merge(ctx, Draw(a, ctx));
            Merge(afterA, Draw(b, afterA)) == Merge(ctx, Draw(b, ctx))
  {
  }
}
