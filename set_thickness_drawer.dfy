/** The renderer for `setThickness`: a pure change of the pen thickness, nothing is drawn. */
module SetThicknessDrawer {
  import opened Geometry
  import opened DrawingContext

  /** `{ currentThickness: command.thickness }`. */
  function Draw(thickness: LineThickness, ctx: Context): (u: Update)
    ensures Merge(ctx, u) == ctx.(currentThickness := thickness)
  {
    Update(None, None, Some(thickness))
  }

  /** Of two consecutive thickness changes the last one wins. */
  lemma LastThicknessWins(t1: LineThickness, t2: LineThickness, ctx: Context)
    ensures var after1 := Merge(ctx, Draw(t1, ctx));
            Merge(after1, Draw(t2, after1)) == Merge(ctx, Draw(t2, ctx))
  {
  }
}
