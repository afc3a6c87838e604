/**
 * The renderer registry and the interpreter it defines: dispatching one
 * command to the renderer registered for its tag, merging the renderer's
 * partial update into the context, and folding that over a command log.
 */
module Registry {
  import opened Geometry
  import opened Surface
  import opened Commands
  import opened DrawingContext
  import opened Projection
  import MoveToDrawer
  import SetThicknessDrawer
  import LineDrawer
  import WindowDrawer
  import DoorDrawer
  import BedDrawer

  /** The six renderer objects the drawer registers. */
  datatype Renderer = MoveToRenderer | SetThicknessRenderer | DoorRenderer | WindowRenderer | BedRenderer | LineRenderer
  {
    /** The renderer's `type` getter. */
    function Type(): CommandType {
      match this
      case MoveToRenderer => MoveToType
      case SetThicknessRenderer => SetThicknessType
      case DoorRenderer => DrawDoorType
      case WindowRenderer => DrawWindowType
      case BedRenderer => DrawBedType
      case LineRenderer => DrawLineType
    }
  }

  /** The registry, in the order the drawer lists it. */
  const Drawers: seq<Renderer> := [MoveToRenderer, SetThicknessRenderer, DoorRenderer, WindowRenderer, BedRenderer, LineRenderer]

  /** `drawers.find(e => e.type === t)`: the first renderer for tag `t`, if any. */
  function Find(drawers: seq<Renderer>, t: CommandType): (r: Option<Renderer>)
    ensures r.Some? ==> r.value in drawers && r.value.Type() == t
  {
    if drawers == [] then None
    else if drawers[0].Type() == t then Some(drawers[0])
    else Find(drawers[1..], t)
  }

  /** `find` comes back empty exactly when no renderer in the list has the tag. */
  lemma {:induction false} FindNoneIffAbsent(drawers: seq<Renderer>, t: CommandType)
    ensures Find(drawers, t).None? <==> forall d :: d in drawers ==> d.Type() != t
    decreases |drawers|
  {
    if drawers != [] {
      FindNoneIffAbsent(drawers[1..], t);
      assert forall d :: d in drawers ==> d == drawers[0] || d in drawers[1..];
    }
  }

  /** The partial update `drawer.draw(command, ctx)` returns, for a renderer whose tag is the command's. */
  function RenderUpdate(r: Renderer, cmd: Command, ctx: Context): Update
    requires r.Type() == cmd.Type()
  {
    match r
    case MoveToRenderer => MoveToDrawer.Draw(cmd.target, ctx)
    case SetThicknessRenderer => SetThicknessDrawer.Draw(cmd.thickness, ctx)
    case WindowRenderer => WindowDrawer.WindowUpdate(cmd.length, cmd.isHorizontal, ctx)
    case _ => NoChange
  }

  /** What `drawer.draw(command, ctx)` draws, for a renderer whose tag is the command's. */
  function RenderOps(r: Renderer, cmd: Command, ctx: Context): seq<SurfaceOp>
    requires r.Type() == cmd.Type()
  {
    match r
    case MoveToRenderer => []
    case SetThicknessRenderer => []
    case DoorRenderer => DoorDrawer.DoorOps(cmd.width, cmd.orientation, ctx)
    case WindowRenderer => WindowDrawer.WindowOps(cmd.length, cmd.isHorizontal, ctx)
    case BedRenderer => BedDrawer.BedOps(cmd.width, cmd.length, cmd.orientation, ctx)
    case LineRenderer => LineDrawer.LineOps(cmd.start, cmd.end, cmd.thickness, ctx)
  }

  /** The polymorphic call `drawer.draw(command, ctx)`, drawing on `canvas`. */
  method DrawWith(r: Renderer, cmd: Command, ctx: Context, canvas: Canvas) returns (u: Update)
    requires r.Type() == cmd.Type()
    modifies canvas
    ensures u == RenderUpdate(r, cmd, ctx)
    ensures canvas.ops == old(canvas.ops) + RenderOps(r, cmd, ctx)
  {
    match r {
      case MoveToRenderer =>
        u := MoveToDrawer.Draw(cmd.target, ctx);
      case SetThicknessRenderer =>
        u := SetThicknessDrawer.Draw(cmd.thickness, ctx);
      case DoorRenderer =>
        u := DoorDrawer.Draw(cmd.width, cmd.doorType, cmd.orientation, ctx, canvas);
      case WindowRenderer =>
        u := WindowDrawer.Draw(cmd.length, cmd.isHorizontal, ctx, canvas);
      case BedRenderer =>
        u := BedDrawer.Draw(cmd.width, cmd.length, cmd.orientation, ctx, canvas);
      case LineRenderer =>
        u := LineDrawer.Draw(cmd.start, cmd.end, cmd.thickness, ctx, canvas);
    }
  }

  /** The context after `runCommand(cmd)`: unchanged when no renderer is registered for the tag. */
  function Step(ctx: Context, cmd: Command): Context {
    match Find(Drawers, cmd.Type())
    case None => ctx
    case Some(r) => Merge(ctx, RenderUpdate(r, cmd, ctx))
  }

  /** What `runCommand(cmd)` draws: nothing when no renderer is registered for the tag. */
  function StepOps(ctx: Context, cmd: Command): seq<SurfaceOp> {
    match Find(Drawers, cmd.Type())
    case None => []
    case Some(r) => RenderOps(r, cmd, ctx)
  }

  /** The context after running the log in order from `ctx`. */
  function Fold(ctx: Context, log: seq<Command>): Context
    decreases |log|
  {
    if log == [] then ctx else Fold(Step(ctx, log[0]), log[1..])
  }

  /** Everything drawn while running the log in order from `ctx`. */
  function Trace(ctx: Context, log: seq<Command>): seq<SurfaceOp>
    decreases |log|
  {
    if log == [] then [] else StepOps(ctx, log[0]) + Trace(Step(ctx, log[0]), log[1..])
  }

  // ---------------------------------------------------------------------
  // A reference semantics of the pen, independent of the registry.

  /** The pen after one command: moveTo jumps, a window advances, everything else stays. */
  function NextPen(p: Point, cmd: Command): Point {
    match cmd
    case MoveToCommand(t) => t
    case DrawWindowCommand(length, isHorizontal) => WindowDrawer.WindowAdvance(length, isHorizontal, p)
    case _ => p
  }

  /** The thickness after one command: only setThickness changes it. */
  function NextThickness(t: LineThickness, cmd: Command): LineThickness {
    if cmd.SetThicknessCommand? then cmd.thickness else t
  }

  function PenAfter(log: seq<Command>, p: Point): Point
    decreases |log|
  {
    if log == [] then p else PenAfter(log[1..], NextPen(p, log[0]))
  }

  function ThicknessAfter(log: seq<Command>, t: LineThickness): LineThickness
    decreases |log|
  {
    if log == [] then t else ThicknessAfter(log[1..], NextThickness(t, log[0]))
  }

  // ---------------------------------------------------------------------
  // Properties of dispatch.

  /** The renderer the registry holds for a command, read off the closed union. */
  function RendererFor(cmd: Command): Option<Renderer> {
    match cmd
    case MoveToCommand(_) => Some(MoveToRenderer)
    case SetThicknessCommand(_) => Some(SetThicknessRenderer)
    case DrawDoorCommand(_, _, _) => Some(DoorRenderer)
    case DrawWindowCommand(_, _) => Some(WindowRenderer)
    case DrawLineCommand(_, _, _) => Some(LineRenderer)
    case DrawBedCommand(_, _, _) => Some(BedRenderer)
    case UnknownCommand(_) => None
  }

  /**
   * Every tag of the closed union has a registered renderer, of that tag;
   * only an unknown tag finds none.
   */
  lemma RegistryCoversCommands(cmd: Command)
    ensures Find(Drawers, cmd.Type()) == RendererFor(cmd)
    ensures Find(Drawers, cmd.Type()).Some? <==> !cmd.UnknownCommand?
  {
    match cmd {
      case MoveToCommand(_) =>
      case SetThicknessCommand(_) =>
      case DrawDoorCommand(_, _, _) =>
      case DrawWindowCommand(_, _) =>
      case DrawLineCommand(_, _, _) =>
      case DrawBedCommand(_, _, _) =>
      case UnknownCommand(_) =>
        FindNoneIffAbsent(Drawers, cmd.Type());
    }
  }

  /** Dispatching a moveTo jumps the pen and draws nothing. */
  lemma DispatchMoveTo(ctx: Context, t: Point)
    ensures Step(ctx, MoveToCommand(t)) == ctx.(currentPoint := t)
    ensures StepOps(ctx, MoveToCommand(t)) == []
  {
    RegistryCoversCommands(MoveToCommand(t));
  }

  /** Dispatching a setThickness changes the thickness and draws nothing. */
  lemma DispatchSetThickness(ctx: Context, t: LineThickness)
    ensures Step(ctx, SetThicknessCommand(t)) == ctx.(currentThickness := t)
    ensures StepOps(ctx, SetThicknessCommand(t)) == []
  {
    RegistryCoversCommands(SetThicknessCommand(t));
  }

  /** Dispatching a door draws the door renderer's ops and keeps the context. */
  lemma DispatchDoor(ctx: Context, w: real, dt: DoorType, o: Orientation)
    ensures Step(ctx, DrawDoorCommand(w, dt, o)) == ctx
    ensures StepOps(ctx, DrawDoorCommand(w, dt, o)) == DoorDrawer.DoorOps(w, o, ctx)
  {
    RegistryCoversCommands(DrawDoorCommand(w, dt, o));
    MergeNoChange(ctx);
  }

  /** Dispatching a window draws the window renderer's ops and advances the pen along it. */
  lemma DispatchWindow(ctx: Context, l: real, h: bool)
    ensures Step(ctx, DrawWindowCommand(l, h)) == ctx.(currentPoint := WindowDrawer.WindowAdvance(l, h, ctx.currentPoint))
    ensures StepOps(ctx, DrawWindowCommand(l, h)) == WindowDrawer.WindowOps(l, h, ctx)
  {
    RegistryCoversCommands(DrawWindowCommand(l, h));
  }

  /** Dispatching a bed draws the bed renderer's ops and keeps the context. */
  lemma DispatchBed(ctx: Context, w: real, l: real, o: Orientation)
    ensures Step(ctx, DrawBedCommand(w, l, o)) == ctx
    ensures StepOps(ctx, DrawBedCommand(w, l, o)) == BedDrawer.BedOps(w, l, o, ctx)
  {
    RegistryCoversCommands(DrawBedCommand(w, l, o));
    MergeNoChange(ctx);
  }

  /** Dispatching a line draws the line renderer's ops and keeps the context. */
  lemma DispatchLine(ctx: Context, s: Point, e: Point, th: LineThickness)
    ensures Step(ctx, DrawLineCommand(s, e, th)) == ctx
    ensures StepOps(ctx, DrawLineCommand(s, e, th)) == LineDrawer.LineOps(s, e, th, ctx)
  {
    RegistryCoversCommands(DrawLineCommand(s, e, th));
    MergeNoChange(ctx);
  }

  /** A command with an unregistered tag changes and draws nothing. */
  lemma DispatchUnknown(ctx: Context, name: string)
    ensures Step(ctx, UnknownCommand(name)) == ctx
    ensures StepOps(ctx, UnknownCommand(name)) == []
  {
    RegistryCoversCommands(UnknownCommand(name));
  }

  /**
   * One dispatch agrees with the reference semantics: the base and the
   * scale are kept, the pen and the thickness move as NextPen and
   * NextThickness say; an unknown command changes nothing.
   */
  lemma StepEffect(ctx: Context, cmd: Command)
    ensures Step(ctx, cmd) == ctx.(currentPoint := NextPen(ctx.currentPoint, cmd),
                                   currentThickness := NextThickness(ctx.currentThickness, cmd))
  {
    match cmd {
      case MoveToCommand(t) => DispatchMoveTo(ctx, t);
      case SetThicknessCommand(t) => DispatchSetThickness(ctx, t);
      case DrawDoorCommand(w, dt, o) => DispatchDoor(ctx, w, dt, o);
      case DrawWindowCommand(l, h) => DispatchWindow(ctx, l, h);
      case DrawBedCommand(w, l, o) => DispatchBed(ctx, w, l, o);
      case DrawLineCommand(s, e, th) => DispatchLine(ctx, s, e, th);
      case UnknownCommand(name) => DispatchUnknown(ctx, name);
    }
  }

  /** Moving the pen, changing the thickness and an unknown command draw nothing. */
  lemma StepDrawsNothing(ctx: Context, cmd: Command)
    requires cmd.MoveToCommand? || cmd.SetThicknessCommand? || cmd.UnknownCommand?
    ensures StepOps(ctx, cmd) == []
  {
    match cmd {
      case MoveToCommand(t) => DispatchMoveTo(ctx, t);
      case SetThicknessCommand(t) => DispatchSetThickness(ctx, t);
      case UnknownCommand(name) => DispatchUnknown(ctx, name);
    }
  }

  /**
   * Dispatch draws each command with the renderer of its own tag: a door
   * with the door renderer, a window with the window renderer, and so on.
   */
  lemma DispatchDrawsWithOwnRenderer(ctx: Context, cmd: Command)
    ensures cmd.DrawDoorCommand? ==> StepOps(ctx, cmd) == DoorDrawer.DoorOps(cmd.width, cmd.orientation, ctx)
    ensures cmd.DrawWindowCommand? ==> StepOps(ctx, cmd) == WindowDrawer.WindowOps(cmd.length, cmd.isHorizontal, ctx)
    ensures cmd.DrawBedCommand? ==> StepOps(ctx, cmd) == BedDrawer.BedOps(cmd.width, cmd.length, cmd.orientation, ctx)
    ensures cmd.DrawLineCommand? ==> StepOps(ctx, cmd) == LineDrawer.LineOps(cmd.start, cmd.end, cmd.thickness, ctx)
  {
    match cmd {
      case DrawDoorCommand(w, dt, o) => DispatchDoor(ctx, w, dt, o);
      case DrawWindowCommand(l, h) => DispatchWindow(ctx, l, h);
      case DrawBedCommand(w, l, o) => DispatchBed(ctx, w, l, o);
      case DrawLineCommand(s, e, th) => DispatchLine(ctx, s, e, th);
      case _ =>
    }
  }

  /**
   * What one dispatch draws depends on the base, the scale and the pen, not
   * on the pen thickness.
   */
  lemma StepOpsIgnoreThickness(ctx: Context, cmd: Command, t: LineThickness)
    ensures StepOps(ctx.(currentThickness := t), cmd) == StepOps(ctx, cmd)
  {
    var c := ctx.(currentThickness := t);
    match cmd {
      case DrawDoorCommand(w, dt, o) =>
        DispatchDoor(ctx, w, dt, o);
        DispatchDoor(c, w, dt, o);
        DoorDrawer.DoorOpsIgnoreThickness(w, o, ctx, t);
      case DrawWindowCommand(l, h) =>
        DispatchWindow(ctx, l, h);
        DispatchWindow(c, l, h);
        WindowDrawer.WindowAlwaysThick(l, h, ctx, t);
      case DrawLineCommand(s, e, th) =>
        DispatchLine(ctx, s, e, th);
        DispatchLine(c, s, e, th);
        LineDrawer.LineIgnoresPen(s, e, th, c, ctx);
      case DrawBedCommand(w, l, o) =>
        DispatchBed(ctx, w, l, o);
        DispatchBed(c, w, l, o);
        BedDrawer.BedOpsIgnoreThickness(w, l, o, ctx, t);
      case _ =>
        StepDrawsNothing(ctx, cmd);
        StepDrawsNothing(c, cmd);
    }
  }

  // ---------------------------------------------------------------------
  // Properties of the fold.

  /**
   * Appending a command and dispatching it at once leaves the context and
   * the drawing exactly as a replay of the extended log would.
   */
  lemma {:induction false} FoldSnoc(ctx: Context, log: seq<Command>, cmd: Command)
    ensures Fold(ctx, log + [cmd]) == Step(Fold(ctx, log), cmd)
    ensures Trace(ctx, log + [cmd]) == Trace(ctx, log) + StepOps(Fold(ctx, log), cmd)
    decreases |log|
  {
    if log == [] {
      assert [] + [cmd] == [cmd];
      assert [cmd][1..] == [];
    } else {
      assert (log + [cmd])[0] == log[0];
      assert (log + [cmd])[1..] == log[1..] + [cmd];
      FoldSnoc(Step(ctx, log[0]), log[1..], cmd);
    }
  }

  /**
   * Running a log never changes the base or the scale; the pen and the
   * thickness end where the reference semantics puts them.
   */
  lemma {:induction false} FoldEffect(ctx: Context, log: seq<Command>)
    ensures Fold(ctx, log) == ctx.(currentPoint := PenAfter(log, ctx.currentPoint),
                                   currentThickness := ThicknessAfter(log, ctx.currentThickness))
    decreases |log|
  {
    if log != [] {
      StepEffect(ctx, log[0]);
      FoldEffect(Step(ctx, log[0]), log[1..]);
    }
  }

  /** The drawing of a log does not depend on the starting thickness. */
  lemma {:induction false} TraceIgnoresThickness(ctx: Context, log: seq<Command>, t: LineThickness)
    ensures Trace(ctx.(currentThickness := t), log) == Trace(ctx, log)
    decreases |log|
  {
    if log != [] {
      var ctx' := ctx.(currentThickness := t);
      StepOpsIgnoreThickness(ctx, log[0], t);
      StepEffect(ctx, log[0]);
      StepEffect(ctx', log[0]);
      assert Step(ctx', log[0]) == Step(ctx, log[0]).(currentThickness := Step(ctx', log[0]).currentThickness);
      TraceIgnoresThickness(Step(ctx, log[0]), log[1..], Step(ctx', log[0]).currentThickness);
    }
  }

  /** The pen after two logs run one after the other. */
  lemma {:induction false} PenAfterConcat(a: seq<Command>, b: seq<Command>, p: Point)
    ensures PenAfter(a + b, p) == PenAfter(b, PenAfter(a, p))
    decreases |a|
  {
    if a == [] {
      assert [] + b == b;
    } else {
      assert (a + b)[0] == a[0];
      assert (a + b)[1..] == a[1..] + b;
      PenAfterConcat(a[1..], b, NextPen(p, a[0]));
    }
  }

  /** A log that ends with a moveTo leaves the pen at its target, wherever it started. */
  lemma PenAfterEndsAtLastMove(log: seq<Command>, p: Point)
    requires |log| > 0 && log[|log| - 1].MoveToCommand?
    ensures PenAfter(log, p) == log[|log| - 1].target
  {
    var n := |log| - 1;
    assert log == log[..n] + [log[n]];
    PenAfterConcat(log[..n], [log[n]], p);
    assert [log[n]][1..] == [];
  }

  /** Doors, beds, lines and unknown commands leave the pen where it is. */
  lemma {:induction false} PenAfterStill(log: seq<Command>, p: Point)
    requires forall i :: 0 <= i < |log| ==> !log[i].MoveToCommand? && !log[i].DrawWindowCommand?
    ensures PenAfter(log, p) == p
    decreases |log|
  {
    if log != [] {
      assert NextPen(p, log[0]) == p;
      PenAfterStill(log[1..], p);
    }
  }

  /** Each thickness change overrides, so the final thickness either ignores or equals the start. */
  lemma {:induction false} ThicknessAfterOverrides(log: seq<Command>, t1: LineThickness, t2: LineThickness)
    ensures (ThicknessAfter(log, t1) == t1 && ThicknessAfter(log, t2) == t2)
         || ThicknessAfter(log, t1) == ThicknessAfter(log, t2)
    decreases |log|
  {
    if log != [] {
      ThicknessAfterOverrides(log[1..], NextThickness(t1, log[0]), NextThickness(t2, log[0]));
    }
  }

  /**
   * Replay from the live context is idempotent when the log begins with a
   * moveTo: replaying the log once more leaves the context it produced and
   * redraws exactly what it drew.
   */
  lemma ReplayAfterMoveToIsIdempotent(ctx: Context, log: seq<Command>)
    requires |log| > 0 && log[0].MoveToCommand?
    ensures Fold(Fold(ctx, log), log) == Fold(ctx, log)
    ensures Trace(Fold(ctx, log), log) == Trace(ctx, log)
  {
    var end := Fold(ctx, log);
    FoldEffect(ctx, log);
    FoldEffect(end, log);
    ThicknessAfterOverrides(log, ctx.currentThickness, end.currentThickness);
    // Both runs start their second step from the same pen.
    StepEffect(ctx, log[0]);
    StepEffect(end, log[0]);
    var s1, s2 := Step(ctx, log[0]), Step(end, log[0]);
    assert s2 == s1.(currentThickness := s2.currentThickness);
    TraceIgnoresThickness(s1, log[1..], s2.currentThickness);
    StepOpsIgnoreThickness(ctx, log[0], end.currentThickness);
    assert end == ctx.(currentPoint := end.currentPoint, currentThickness := end.currentThickness);
  }

  /**
   * Without a leading moveTo the live-context replay is not idempotent: a
   * log holding one horizontal window is drawn one window further along on
   * every replay.
   */
  lemma ReplayWithoutMoveToDrifts(ctx: Context)
    requires ctx.currentPoint == Point(0.0, 0.0)
    ensures var log := [DrawWindowCommand(1000.0, true)];
            && Fold(ctx, log).currentPoint == Point(1000.0, 0.0)
            && Fold(Fold(ctx, log), log).currentPoint == Point(2000.0, 0.0)
  {
    var log := [DrawWindowCommand(1000.0, true)];
    StepEffect(ctx, log[0]);
    StepEffect(Step(ctx, log[0]), log[0]);
  }

  /** Zooming multiplies every scene coordinate and length one command draws by the zoom factor. */
  lemma StepOpsScale(ctx: Context, cmd: Command, k: real)
    ensures StepOps(ctx.(scale := ctx.scale * k), cmd) == ScaleOps(StepOps(ctx, cmd), k)
  {
    var z := ctx.(scale := ctx.scale * k);
    match cmd {
      case DrawDoorCommand(w, dt, o) =>
        DispatchDoor(ctx, w, dt, o);
        DispatchDoor(z, w, dt, o);
        DoorDrawer.DoorOpsScale(w, o, ctx, k);
      case DrawWindowCommand(l, h) =>
        DispatchWindow(ctx, l, h);
        DispatchWindow(z, l, h);
        WindowDrawer.WindowOpsScale(l, h, ctx, k);
      case DrawLineCommand(s, e, th) =>
        DispatchLine(ctx, s, e, th);
        DispatchLine(z, s, e, th);
        LineDrawer.LineOpsScale(s, e, th, ctx, k);
      case DrawBedCommand(w, l, o) =>
        DispatchBed(ctx, w, l, o);
        DispatchBed(z, w, l, o);
        BedDrawer.BedOpsScale(w, l, o, ctx, k);
      case _ =>
        StepDrawsNothing(ctx, cmd);
        StepDrawsNothing(z, cmd);
    }
  }

  /** Zooming changes the scale of the context one dispatch leaves, and nothing else. */
  lemma StepScale(ctx: Context, cmd: Command, k: real)
    ensures Step(ctx.(scale := ctx.scale * k), cmd) == Step(ctx, cmd).(scale := Step(ctx, cmd).scale * k)
  {
    StepEffect(ctx, cmd);
    StepEffect(ctx.(scale := ctx.scale * k), cmd);
  }

  /** Zooming changes the scale of the context a replay ends in, and nothing else. */
  lemma ZoomKeepsContext(ctx: Context, log: seq<Command>, k: real)
    ensures Fold(ctx.(scale := ctx.scale * k), log) == Fold(ctx, log).(scale := ctx.scale * k)
  {
    FoldEffect(ctx, log);
    FoldEffect(ctx.(scale := ctx.scale * k), log);
  }

  /**
   * Replaying at a scale `k` times larger draws the same scene magnified by
   * `k` about the surface origin.
   */
  lemma {:induction false} ZoomMagnifiesReplay(ctx: Context, log: seq<Command>, k: real)
    ensures Trace(ctx.(scale := ctx.scale * k), log) == ScaleOps(Trace(ctx, log), k)
    decreases |log|
  {
    if log != [] {
      var z := ctx.(scale := ctx.scale * k);
      var s := Step(ctx, log[0]);
      StepScale(ctx, log[0], k);
      assert s.scale == ctx.scale by { StepEffect(ctx, log[0]); }
      assert Step(z, log[0]) == s.(scale := s.scale * k);
      StepOpsScale(ctx, log[0], k);
      ZoomMagnifiesReplay(s, log[1..], k);
      ScaleOpsConcat(StepOps(ctx, log[0]), Trace(s, log[1..]), k);
    }
  }
}
