/**
 * The registry drawer: it keeps the command log, runs each command through
 * the renderer registered for its tag as soon as it is added, replays the
 * whole log from the live context on every redraw, zooms by rescaling and
 * replaying, and draws the measurement overlay on top of a replay.
 */
module Designer {
  import opened Geometry
  import opened Surface
  import opened Commands
  import opened DrawingContext
  import opened Registry
  import opened Overlay
  import LineDrawer
  import WindowDrawer
  import DoorDrawer
  import BedDrawer

  /** Each zoom step multiplies or divides the scale by this factor. */
  const ZoomFactor: real := 1.1

  /** The key that dismisses the measurement overlay. */
  const EscapeKey: string := "Escape"

  /**
   * Replaying at the scale divided by the zoom factor draws the same scene
   * reduced by the factor, and ends in the same context apart from the scale.
   */
  lemma ZoomOutShrinksReplay(ctx: Context, log: seq<Command>)
    ensures Trace(ctx.(scale := ctx.scale / ZoomFactor), log) == ScaleOps(Trace(ctx, log), 1.0 / ZoomFactor)
    ensures Fold(ctx.(scale := ctx.scale / ZoomFactor), log) == Fold(ctx, log).(scale := ctx.scale / ZoomFactor)
  {
    var k := 1.0 / ZoomFactor;
    assert ctx.scale / ZoomFactor == ctx.scale * k;
    assert ctx.(scale := ctx.scale / ZoomFactor) == ctx.(scale := ctx.scale * k);
    ZoomMagnifiesReplay(ctx, log, k);
    ZoomKeepsContext(ctx, log, k);
  }

  /** Over the reals a zoom in followed by a zoom out, or the other way round, restores the scale. */
  lemma ZoomOutUndoesZoomIn(s: real)
    ensures s * ZoomFactor / ZoomFactor == s
    ensures s / ZoomFactor * ZoomFactor == s
  {
  }

  /** Running one more command after a replayed prefix is replaying the longer prefix. */
  lemma ReplayGrows(start: Context, before: seq<SurfaceOp>, done: seq<Command>, cmd: Command,
                    c: Context, o: seq<SurfaceOp>)
    requires c == Fold(start, done) && o == before + Trace(start, done)
    ensures Step(c, cmd) == Fold(start, done + [cmd])
    ensures o + StepOps(c, cmd) == before + Trace(start, done + [cmd])
  {
    FoldSnoc(start, done, cmd);
    ConcatAssoc(before, Trace(start, done), StepOps(c, cmd));
  }

  class Drawer {
    /** The anchor of the measurement overlay, if the user has clicked. */
    var currentCross: Option<Point>
    /** The command log, append-only. */
    var commands: seq<Command>
    /** The live drawing context. */
    var ctx: Context
    /** The surface everything is drawn on. */
    const canvas: Canvas

    constructor (ctx: Context, canvas: Canvas)
      ensures this.ctx == ctx && this.canvas == canvas
      ensures commands == [] && currentCross == None
    {
      this.ctx := ctx;
      this.canvas := canvas;
      commands := [];
      currentCross := None;
    }

    /** Zooms in: the scale grows by the zoom factor and the whole log is drawn again, magnified. */
    method ZoomIn()
      modifies this, canvas
      ensures commands == old(commands) && currentCross == old(currentCross)
      ensures ctx == Fold(old(ctx), commands).(scale := old(ctx.scale) * ZoomFactor)
      ensures canvas.ops == old(canvas.ops) + [ClearAll(canvas.width, canvas.height)]
                            + ScaleOps(Trace(old(ctx), commands), ZoomFactor)
    {
      ZoomMagnifiesReplay(ctx, commands, ZoomFactor);
      ZoomKeepsContext(ctx, commands, ZoomFactor);
      ctx := ctx.(scale := ctx.scale * ZoomFactor);
      RedrawScene();
    }

    /** Zooms out: the scale shrinks by the zoom factor and the whole log is drawn again, reduced. */
    method ZoomOut()
      modifies this, canvas
      ensures commands == old(commands) && currentCross == old(currentCross)
      ensures ctx == Fold(old(ctx), commands).(scale := old(ctx.scale) / ZoomFactor)
      ensures canvas.ops == old(canvas.ops) + [ClearAll(canvas.width, canvas.height)]
                            + ScaleOps(Trace(old(ctx), commands), 1.0 / ZoomFactor)
    {
      ZoomOutShrinksReplay(ctx, commands);
      ctx := ctx.(scale := ctx.scale / ZoomFactor);
      RedrawScene();
    }

    /** Records a jump of the pen; nothing is drawn. */
    method MoveTo(target: Point)
      modifies this, canvas
      ensures commands == old(commands) + [MoveToCommand(target)]
      ensures ctx == old(ctx).(currentPoint := target)
      ensures canvas.ops == old(canvas.ops) && currentCross == old(currentCross)
    {
      StepEffect(ctx, MoveToCommand(target));
      AddCommand(MoveToCommand(target));
    }

    /** Records a change of the pen thickness; nothing is drawn. */
    method SetThickness(thickness: LineThickness)
      modifies this, canvas
      ensures commands == old(commands) + [SetThicknessCommand(thickness)]
      ensures ctx == old(ctx).(currentThickness := thickness)
      ensures canvas.ops == old(canvas.ops) && currentCross == old(currentCross)
    {
      StepEffect(ctx, SetThicknessCommand(thickness));
      AddCommand(SetThicknessCommand(thickness));
    }

    /** Records a door at the pen and draws its leaf and swing; the pen stays. */
    method DrawDoor(width: real, doorType: DoorType, orientation: Orientation)
      modifies this, canvas
      ensures commands == old(commands) + [DrawDoorCommand(width, doorType, orientation)]
      ensures ctx == old(ctx) && currentCross == old(currentCross)
      ensures canvas.ops == old(canvas.ops) + DoorDrawer.DoorOps(width, orientation, old(ctx))
    {
      var cmd := DrawDoorCommand(width, doorType, orientation);
      StepEffect(ctx, cmd);
      DispatchDrawsWithOwnRenderer(ctx, cmd);
      AddCommand(cmd);
    }

    /** Records a bed anchored at the pen and draws its outline and headboard; the pen stays. */
    method DrawBed(width: real, length: real, orientation: Orientation)
      modifies this, canvas
      ensures commands == old(commands) + [DrawBedCommand(width, length, orientation)]
      ensures ctx == old(ctx) && currentCross == old(currentCross)
      ensures canvas.ops == old(canvas.ops) + BedDrawer.BedOps(width, length, orientation, old(ctx))
    {
      var cmd := DrawBedCommand(width, length, orientation);
      StepEffect(ctx, cmd);
      DispatchDrawsWithOwnRenderer(ctx, cmd);
      AddCommand(cmd);
    }

    method DrawWindowHorizontal(length: real)
      modifies this, canvas
      ensures commands == old(commands) + [DrawWindowCommand(length, true)]
      ensures ctx == old(ctx).(currentPoint := Point(old(ctx.currentPoint.x) + length, old(ctx.currentPoint.y)))
      ensures canvas.ops == old(canvas.ops) + WindowDrawer.WindowOps(length, true, old(ctx))
      ensures currentCross == old(currentCross)
    {
      DrawWindow(length, true);
    }

    method DrawWindowVertical(length: real)
      modifies this, canvas
      ensures commands == old(commands) + [DrawWindowCommand(length, false)]
      ensures ctx == old(ctx).(currentPoint := Point(old(ctx.currentPoint.x), old(ctx.currentPoint.y) + length))
      ensures canvas.ops == old(canvas.ops) + WindowDrawer.WindowOps(length, false, old(ctx))
      ensures currentCross == old(currentCross)
    {
      DrawWindow(length, false);
    }

    /** Records a window starting at the pen; the window renderer moves the pen to its far end. */
    method DrawWindow(length: real, isHorizontal: bool)
      modifies this, canvas
      ensures commands == old(commands) + [DrawWindowCommand(length, isHorizontal)]
      ensures ctx == old(ctx).(currentPoint := WindowDrawer.WindowAdvance(length, isHorizontal, old(ctx.currentPoint)))
      ensures canvas.ops == old(canvas.ops) + WindowDrawer.WindowOps(length, isHorizontal, old(ctx))
      ensures currentCross == old(currentCross)
    {
      var cmd := DrawWindowCommand(length, isHorizontal);
      StepEffect(ctx, cmd);
      DispatchDrawsWithOwnRenderer(ctx, cmd);
      AddCommand(cmd);
    }

    /** A wall of `length` along x from the pen, which then sits at its end. */
    method DrawLineHorizontal(length: real, thickness: LineThickness := ctx.currentThickness)
      modifies this, canvas
      ensures var target := Point(old(ctx.currentPoint.x) + length, old(ctx.currentPoint.y));
              && commands == old(commands) + [DrawLineCommand(old(ctx.currentPoint), target, thickness), MoveToCommand(target)]
              && ctx == old(ctx).(currentPoint := target)
              && canvas.ops == old(canvas.ops) + LineDrawer.LineOps(old(ctx.currentPoint), target, thickness, old(ctx))
      ensures currentCross == old(currentCross)
    {
      DrawLineTo(Point(ctx.currentPoint.x + length, ctx.currentPoint.y), thickness);
    }

    /** A wall of `length` along y from the pen, which then sits at its end. */
    method DrawLineVertical(length: real, thickness: LineThickness := ctx.currentThickness)
      modifies this, canvas
      ensures var target := Point(old(ctx.currentPoint.x), old(ctx.currentPoint.y) + length);
              && commands == old(commands) + [DrawLineCommand(old(ctx.currentPoint), target, thickness), MoveToCommand(target)]
              && ctx == old(ctx).(currentPoint := target)
              && canvas.ops == old(canvas.ops) + LineDrawer.LineOps(old(ctx.currentPoint), target, thickness, old(ctx))
      ensures currentCross == old(currentCross)
    {
      DrawLineTo(Point(ctx.currentPoint.x, ctx.currentPoint.y + length), thickness);
    }

    /** A wall from the pen to `target`, recorded as a line followed by a moveTo. */
    method DrawLineTo(target: Point, thickness: LineThickness := ctx.currentThickness)
      modifies this, canvas
      ensures commands == old(commands) + [DrawLineCommand(old(ctx.currentPoint), target, thickness), MoveToCommand(target)]
      ensures ctx == old(ctx).(currentPoint := target)
      ensures canvas.ops == old(canvas.ops) + LineDrawer.LineOps(old(ctx.currentPoint), target, thickness, old(ctx))
      ensures currentCross == old(currentCross)
    {
      DrawLine(ctx.currentPoint, target, thickness);
      MoveTo(target);
    }

    /** A line between two world points; the pen stays where it was. */
    method DrawLine(start: Point, end: Point, thickness: LineThickness := ctx.currentThickness)
      modifies this, canvas
      ensures commands == old(commands) + [DrawLineCommand(start, end, thickness)]
      ensures ctx == old(ctx) && currentCross == old(currentCross)
      ensures canvas.ops == old(canvas.ops) + LineDrawer.LineOps(start, end, thickness, old(ctx))
    {
      var cmd := DrawLineCommand(start, end, thickness);
      StepEffect(ctx, cmd);
      DispatchDrawsWithOwnRenderer(ctx, cmd);
      AddCommand(cmd);
    }

    /** Dispatches one command through the registry and merges the renderer's update. */
    method RunCommand(cmd: Command)
      modifies this, canvas
      ensures ctx == Step(old(ctx), cmd)
      ensures canvas.ops == old(canvas.ops) + StepOps(old(ctx), cmd)
      ensures commands == old(commands) && currentCross == old(currentCross)
    {
      var found := Find(Drawers, cmd.Type());
      match found {
        case None =>
        case Some(r) =>
          var update := DrawWith(r, cmd, ctx, canvas);
          ctx := Merge(ctx, update);
      }
    }

    /** One iteration of the replay loop: the log prefix run so far grows by `cmd`. */
    method RunNext(ghost start: Context, ghost before: seq<SurfaceOp>, ghost done: seq<Command>, cmd: Command)
      requires ctx == Fold(start, done) && canvas.ops == before + Trace(start, done)
      modifies this, canvas
      ensures ctx == Fold(start, done + [cmd]) && canvas.ops == before + Trace(start, done + [cmd])
      ensures commands == old(commands) && currentCross == old(currentCross)
    {
      ghost var c, o := ctx, canvas.ops;
      RunCommand(cmd);
      ReplayGrows(start, before, done, cmd, c, o);
    }

    /** Appends a command to the log and runs it at once. */
    method AddCommand(cmd: Command)
      modifies this, canvas
      ensures commands == old(commands) + [cmd]
      ensures ctx == Step(old(ctx), cmd)
      ensures canvas.ops == old(canvas.ops) + StepOps(old(ctx), cmd)
      ensures currentCross == old(currentCross)
    {
      commands := commands + [cmd];
      RunCommand(cmd);
    }

    /**
     * Clears the surface and runs the whole log again, in order, starting
     * from the live context (not from the context the drawer was built with).
     */
    method RedrawScene()
      modifies this, canvas
      ensures ctx == Fold(old(ctx), commands)
      ensures canvas.ops == old(canvas.ops) + [ClearAll(canvas.width, canvas.height)] + Trace(old(ctx), commands)
      ensures commands == old(commands) && currentCross == old(currentCross)
    {
      canvas.Clear(Point(0.0, 0.0), canvas.width as real, canvas.height as real);
      RunCommands();
    }

    /** The loop of redrawScene: every command of the log, in order, from the live context. */
    method RunCommands()
      modifies this, canvas
      ensures ctx == Fold(old(ctx), commands)
      ensures canvas.ops == old(canvas.ops) + Trace(old(ctx), commands)
      ensures commands == old(commands) && currentCross == old(currentCross)
    {
      ghost var start, before := ctx, canvas.ops;
      ghost var done: seq<Command> := [];
      var log := commands;
      var i := 0;
      while i < |log|
        invariant 0 <= i <= |log| && done == log[..i]
        invariant commands == log && currentCross == old(currentCross)
        invariant ctx == Fold(start, done)
        invariant canvas.ops == before + Trace(start, done)
      {
        RunNext(start, before, done, log[i]);
        done := done + [log[i]];
        i := i + 1;
      }
      assert done == log;
    }

    // -----------------------------------------------------------------
    // The measurement overlay.

    /** Escape redraws the scene without the overlay and forgets the anchor; other keys do nothing. */
    method OnKeyDown(key: string)
      modifies this, canvas
      ensures commands == old(commands)
      ensures key == EscapeKey ==>
                && currentCross == None
                && ctx == Fold(old(ctx), commands)
                && canvas.ops == old(canvas.ops) + [ClearAll(canvas.width, canvas.height)] + Trace(old(ctx), commands)
      ensures key != EscapeKey ==>
                currentCross == old(currentCross) && ctx == old(ctx) && canvas.ops == old(canvas.ops)
    {
      if key == EscapeKey {
        RedrawScene();
        ResetCrossPoint();
      }
    }

    /** A click redraws the scene and anchors a new cross at the clicked scene point. */
    method OnClick(p: Point)
      modifies this, canvas
      ensures commands == old(commands) && currentCross == Some(p)
      ensures ctx == Fold(old(ctx), commands)
      ensures canvas.ops == old(canvas.ops) + [ClearAll(canvas.width, canvas.height)]
                            + Trace(old(ctx), commands) + CrossOps(p)
    {
      RedrawScene();
      SetCrossPoint(p);
    }

    /** With an anchor, moving the cursor redraws the scene with the cross and the guide to `p`. */
    method OnMouseMove(p: Point)
      modifies this, canvas
      ensures commands == old(commands) && currentCross == old(currentCross)
      ensures old(currentCross).None? ==> ctx == old(ctx) && canvas.ops == old(canvas.ops)
      ensures old(currentCross).Some? ==>
                && ctx == Fold(old(ctx), commands)
                && canvas.ops == old(canvas.ops) + [ClearAll(canvas.width, canvas.height)]
                                 + Trace(old(ctx), commands) + CrossOps(old(currentCross).value)
                                 + GuideOps(old(currentCross).value, p)
    {
      if currentCross.Some? {
        DisplayDistance(currentCross.value, p);
      }
    }

    /** Redraws the scene, the anchor cross and the dashed guide from `from` to `to`. */
    method DisplayDistance(from: Point, to: Point)
      requires currentCross.Some?
      modifies this, canvas
      ensures commands == old(commands) && currentCross == old(currentCross)
      ensures ctx == Fold(old(ctx), commands)
      ensures canvas.ops == old(canvas.ops) + [ClearAll(canvas.width, canvas.height)]
                            + Trace(old(ctx), commands) + CrossOps(currentCross.value) + GuideOps(from, to)
    {
      RedrawScene();
      DrawCrossPoint(currentCross.value);
      DrawGuide(from, to);
    }

    /** The dashed guide and its label, as the tail of displayDistance draws them. */
    method DrawGuide(from: Point, to: Point)
      modifies canvas
      ensures canvas.ops == old(canvas.ops) + GuideOps(from, to)
    {
      canvas.StrokeStyle(Red);
      canvas.LineDash(true);
      canvas.Begin();
      canvas.Move(from);
      canvas.Line(to);
      canvas.DoStroke();
      canvas.Close();
      canvas.LineDash(false);
      canvas.LineWidth(1);
      canvas.Text(LabelPosition(from, to));
    }

    /** Draws the cross at `p` and makes `p` the anchor. */
    method SetCrossPoint(p: Point)
      modifies this, canvas
      ensures currentCross == Some(p)
      ensures commands == old(commands) && ctx == old(ctx)
      ensures canvas.ops == old(canvas.ops) + CrossOps(p)
    {
      DrawCrossPoint(p);
      currentCross := Some(p);
    }

    method DrawCrossPoint(p: Point)
      modifies canvas
      ensures canvas.ops == old(canvas.ops) + CrossOps(p)
    {
      canvas.StrokeStyle(Red);
      canvas.LineWidth(1);
      canvas.Begin();
      canvas.Move(Point(p.x - CrossArm, p.y));
      canvas.Line(Point(p.x + CrossArm, p.y));
      canvas.Move(Point(p.x, p.y - CrossArm));
      canvas.Line(Point(p.x, p.y + CrossArm));
      canvas.DoStroke();
      canvas.Close();
    }

    method ResetCrossPoint()
      modifies this
      ensures currentCross == None
      ensures commands == old(commands) && ctx == old(ctx)
    {
      currentCross := None;
    }
  }
}
