/**
 * The drawing context: a fixed `base` (the world origin's offset) plus the
 * mutable part (scale, pen position, pen thickness).  Renderers return a
 * partial update of the mutable part, which is merged by object spread.
 * The canvas handles of the source's context are the separate `Canvas`
 * object of module Surface.
 */
module DrawingContext {
  import opened Geometry

  datatype Context = Context(base: Point, scale: real, currentPoint: Point, currentThickness: LineThickness)

  /** The mutable fields only, as `setDrawingContext` returns them. */
  datatype MutableContext = MutableContext(scale: real, currentPoint: Point, currentThickness: LineThickness)

  /** `Partial<MutableDrawingContext>`: each field may be absent. */
  datatype Update = Update(scale: Option<real>, currentPoint: Option<Point>, currentThickness: Option<LineThickness>)

  /** The empty update `{}`. */
  const NoChange: Update := Update(None, None, None)

  function MutablePart(ctx: Context): MutableContext {
    MutableContext(ctx.scale, ctx.currentPoint, ctx.currentThickness)
  }

  /**
   * `setDrawingContext(ctx, update)`: the mutable fields of `ctx`,
   * overridden by every field present in `update`.
   */
  function SetDrawingContext(ctx: Context, update: Update): (r: MutableContext)
    ensures r.scale == (if update.scale.Some? then update.scale.value else ctx.scale)
    ensures r.currentPoint == (if update.currentPoint.Some? then update.currentPoint.value else ctx.currentPoint)
    ensures r.currentThickness == (if update.currentThickness.Some? then update.currentThickness.value else ctx.currentThickness)
  {
    var m := MutablePart(ctx);
    m.(scale := update.scale.GetOr(m.scale),
       currentPoint := update.currentPoint.GetOr(m.currentPoint),
       currentThickness := update.currentThickness.GetOr(m.currentThickness))
  }

  /**
   * `{ ...ctx, ...update }` as the registry drawer writes it: the base is
   * carried through and the mutable part is what setDrawingContext gives.
   */
  function Merge(ctx: Context, update: Update): (r: Context)
    ensures r.base == ctx.base
    ensures MutablePart(r) == SetDrawingContext(ctx, update)
  {
    var m := SetDrawingContext(ctx, update);
    Context(ctx.base, m.scale, m.currentPoint, m.currentThickness)
  }

  /** Merging `{}` changes nothing. */
  lemma MergeNoChange(ctx: Context)
    ensures SetDrawingContext(ctx, NoChange) == MutablePart(ctx)
    ensures Merge(ctx, NoChange) == ctx
  {
  }

  /** Merging the same update twice is merging it once. */
  lemma MergeIdempotent(ctx: Context, update: Update)
    ensures Merge(Merge(ctx, update), update) == Merge(ctx, update)
    ensures SetDrawingContext(Merge(ctx, update), update) == SetDrawingContext(ctx, update)
  {
  }

  /** An update that gives all three fields determines the result whatever `ctx` is. */
  lemma MergeFullUpdate(ctx1: Context, ctx2: Context, update: Update)
    requires update.scale.Some? && update.currentPoint.Some? && update.currentThickness.Some?
    ensures SetDrawingContext(ctx1, update) == SetDrawingContext(ctx2, update)
    ensures SetDrawingContext(ctx1, update)
         == MutableContext(update.scale.value, update.currentPoint.value, update.currentThickness.value)
  {
  }
}
