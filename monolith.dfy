/**
 * The monolithic drawer: the same command log and the same drawing code,
 * but dispatched by a switch on the tag and applied to the drawer's own
 * pen fields.  Its context never changes scale, its constructor records a
 * moveTo to the base and a setThickness(thick) before anything else, and
 * its window renderer leaves the pen where it is: the window builder
 * records a moveTo to the window's far end instead.
 */
module Monolith {
  import opened Geometry
  import opened Surface
  import opened Commands
  import opened DrawingContext
  import opened Overlay
  import Registry
  import LineDrawer
  import WindowDrawer
  import DoorDrawer
  import BedDrawer

  /** The pen state after one command of the switch: only moveTo and setThickness change it. */
  function MonoStep(v: Context, cmd: Command): (r: Context)
    ensures r.base == v.base && r.scale == v.scale
    ensures r.currentPoint == (if cmd.MoveToCommand? then cmd.target else v.currentPoint)
    ensures r.currentThickness == (if cmd.SetThicknessCommand? then cmd.thickness else v.currentThickness)
  {
    match cmd
    case MoveToCommand(target) => v.(currentPoint := target)
    case SetThicknessCommand(thickness) => v.(currentThickness := thickness)
    case _ => v
  }

  /** What one command of the switch draws; an unhandled tag draws nothing. */
  function MonoStepOps(v: Context, cmd: Command): seq<SurfaceOp> {
    match cmd
    case DrawDoorCommand(width, _, orientation) => DoorDrawer.DoorOps(width, orientation, v)
    case DrawWindowCommand(length, isHorizontal) => WindowDrawer.WindowOps(length, isHorizontal, v)
    case DrawBedCommand(width, length, orientation) => BedDrawer.BedOps(width, length, orientation, v)
    case DrawLineCommand(start, end, thickness) => LineDrawer.LineOps(start, end, thickness, v)
    case _ => []
  }

  function MonoFold(v: Context, log: seq<Command>): Context
    decreases |log|
  {
    if log == [] then v else MonoFold(MonoStep(v, log[0]), log[1..])
  }

  function MonoTrace(v: Context, log: seq<Command>): seq<SurfaceOp>
    decreases |log|
  {
    if log == [] then [] else MonoStepOps(v, log[0]) + MonoTrace(MonoStep(v, log[0]), log[1..])
  }

  /** The two commands the constructor records. */
  function Prelude(base: Point): (log: seq<Command>)
    ensures |log| == 2 && log[0].MoveToCommand? && log[1].SetThicknessCommand?
  {
    [MoveToCommand(base), SetThicknessCommand(Thick)]
  }

  /** A log that starts as the constructor leaves it. */
  predicate StartsWithPrelude(log: seq<Command>, base: Point) {
    |log| >= 2 && log[..2] == Prelude(base)
  }

  // ---------------------------------------------------------------------
  // The switch against the registry.

  /** The switch draws every command exactly as the registry's renderer for its tag does. */
  lemma SwitchDrawsAsRegistry(v: Context, cmd: Command)
    ensures MonoStepOps(v, cmd) == Registry.StepOps(v, cmd)
  {
    Registry.StepEffect(v, cmd);
    Registry.DispatchDrawsWithOwnRenderer(v, cmd);
  }

  /**
   * The switch updates the pen as the registry does for every command but a
   * window: there the registry advances the pen and the switch does not.
   */
  lemma SwitchMovesAsRegistryExceptWindows(v: Context, cmd: Command)
    ensures !cmd.DrawWindowCommand? ==> MonoStep(v, cmd) == Registry.Step(v, cmd)
    ensures cmd.DrawWindowCommand? ==> MonoStep(v, cmd) == v
    ensures cmd.DrawWindowCommand? && cmd.length != 0.0 ==> MonoStep(v, cmd) != Registry.Step(v, cmd)
  {
    Registry.StepEffect(v, cmd);
  }

  /**
   * The window builder's pair of commands, run by the switch, leaves the pen
   * and draws exactly what the registry's single window command does.
   */
  lemma WindowPairMatchesRegistryWindow(v: Context, length: real, isHorizontal: bool)
    ensures var pair := [DrawWindowCommand(length, isHorizontal),
                         MoveToCommand(WindowDrawer.WindowAdvance(length, isHorizontal, v.currentPoint))];
            && MonoFold(v, pair) == Registry.Step(v, DrawWindowCommand(length, isHorizontal))
            && MonoTrace(v, pair) == Registry.StepOps(v, DrawWindowCommand(length, isHorizontal))
  {
    var cmd := DrawWindowCommand(length, isHorizontal);
    var move := MoveToCommand(WindowDrawer.WindowAdvance(length, isHorizontal, v.currentPoint));
    var pair := [cmd, move];
    assert pair[1..] == [move] && [move][1..] == [];
    var end := MonoStep(v, move);
    assert MonoFold(v, pair) == MonoFold(end, []) == end;
    assert MonoTrace(v, [move]) == MonoStepOps(v, move) + MonoTrace(end, []);
    assert MonoTrace(v, pair) == MonoStepOps(v, cmd) + MonoTrace(v, [move]);
    Registry.StepEffect(v, cmd);
    SwitchDrawsAsRegistry(v, cmd);
  }

  /**
   * The log the monolith's builders record for the calls that make the
   * registry drawer record `log`, with the pen at `p`: the same commands,
   * each window followed by a moveTo to its far end.
   */
  function MonoLog(log: seq<Command>, p: Point): (r: seq<Command>)
    ensures |r| == |log| + WindowCount(log)
    decreases |log|
  {
    if log == [] then []
    else
      var cmd := log[0];
      var rest := MonoLog(log[1..], Registry.NextPen(p, cmd));
      if cmd.DrawWindowCommand? then
        [cmd, MoveToCommand(WindowDrawer.WindowAdvance(cmd.length, cmd.isHorizontal, p))] + rest
      else
        [cmd] + rest
  }

  /** How many windows a log holds. */
  function WindowCount(log: seq<Command>): nat
    decreases |log|
  {
    if log == [] then 0 else (if log[0].DrawWindowCommand? then 1 else 0) + WindowCount(log[1..])
  }

  /**
   * One more builder call: a window is recorded with a moveTo to its far end,
   * measured from wherever the earlier calls left the pen; any other command
   * is recorded as it is.
   */
  lemma MonoLogSnoc(x: seq<Command>, cmd: Command, p: Point)
    ensures cmd.DrawWindowCommand? ==>
              MonoLog(x + [cmd], p)
                == MonoLog(x, p) + [cmd, MoveToCommand(WindowDrawer.WindowAdvance(cmd.length, cmd.isHorizontal, Registry.PenAfter(x, p)))]
    ensures !cmd.DrawWindowCommand? ==> MonoLog(x + [cmd], p) == MonoLog(x, p) + [cmd]
  {
    MonoLogConcat(x, [cmd], p);
    assert [cmd][1..] == [];
  }

  /** The monolith's builders record two logs in a row as they record each, the pen carried over. */
  lemma {:induction false} MonoLogConcat(a: seq<Command>, b: seq<Command>, p: Point)
    ensures MonoLog(a + b, p) == MonoLog(a, p) + MonoLog(b, Registry.PenAfter(a, p))
    decreases |a|
  {
    if a == [] {
      assert [] + b == b;
    } else {
      assert (a + b)[0] == a[0];
      assert (a + b)[1..] == a[1..] + b;
      MonoLogConcat(a[1..], b, Registry.NextPen(p, a[0]));
    }
  }

  /** Without windows the two versions record the same log. */
  lemma {:induction false} MonoLogWithoutWindows(log: seq<Command>, p: Point)
    requires forall i :: 0 <= i < |log| ==> !log[i].DrawWindowCommand?
    ensures MonoLog(log, p) == log
    decreases |log|
  {
    if log != [] {
      MonoLogWithoutWindows(log[1..], Registry.NextPen(p, log[0]));
      assert log == [log[0]] + log[1..];
    }
  }

  // ---------------------------------------------------------------------
  // Properties of the monolith's fold.

  lemma {:induction false} MonoFoldSnoc(v: Context, log: seq<Command>, cmd: Command)
    ensures MonoFold(v, log + [cmd]) == MonoStep(MonoFold(v, log), cmd)
    ensures MonoTrace(v, log + [cmd]) == MonoTrace(v, log) + MonoStepOps(MonoFold(v, log), cmd)
    decreases |log|
  {
    if log == [] {
      assert [] + [cmd] == [cmd];
      assert [cmd][1..] == [];
    } else {
      assert (log + [cmd])[0] == log[0];
      assert (log + [cmd])[1..] == log[1..] + [cmd];
      MonoFoldSnoc(MonoStep(v, log[0]), log[1..], cmd);
      ConcatAssoc(MonoStepOps(v, log[0]), MonoTrace(MonoStep(v, log[0]), log[1..]),
                  MonoStepOps(MonoFold(v, log), cmd));
    }
  }

  /** Running two logs one after the other is running their concatenation. */
  lemma {:induction false} MonoFoldConcat(v: Context, a: seq<Command>, b: seq<Command>)
    ensures MonoFold(v, a + b) == MonoFold(MonoFold(v, a), b)
    ensures MonoTrace(v, a + b) == MonoTrace(v, a) + MonoTrace(MonoFold(v, a), b)
    decreases |a|
  {
    if a == [] {
      assert [] + b == b;
    } else {
      assert (a + b)[0] == a[0];
      assert (a + b)[1..] == a[1..] + b;
      MonoFoldConcat(MonoStep(v, a[0]), a[1..], b);
      ConcatAssoc(MonoStepOps(v, a[0]), MonoTrace(MonoStep(v, a[0]), a[1..]), MonoTrace(MonoFold(v, a), b));
    }
  }

  /**
   * The two versions agree: the monolith running the log its builders
   * record ends in the context, and draws the scene, that the registry
   * drawer produces from the log its own builders record.
   */
  lemma {:induction false} MonolithAgreesWithRegistry(v: Context, log: seq<Command>)
    ensures MonoFold(v, MonoLog(log, v.currentPoint)) == Registry.Fold(v, log)
    ensures MonoTrace(v, MonoLog(log, v.currentPoint)) == Registry.Trace(v, log)
    decreases |log|
  {
    if log != [] {
      var cmd := log[0];
      var next := Registry.Step(v, cmd);
      Registry.StepEffect(v, cmd);
      var rest := MonoLog(log[1..], next.currentPoint);
      MonolithAgreesWithRegistry(next, log[1..]);
      if cmd.DrawWindowCommand? {
        var pair := [cmd, MoveToCommand(WindowDrawer.WindowAdvance(cmd.length, cmd.isHorizontal, v.currentPoint))];
        assert MonoLog(log, v.currentPoint) == pair + rest;
        WindowPairMatchesRegistryWindow(v, cmd.length, cmd.isHorizontal);
        MonoFoldConcat(v, pair, rest);
      } else {
        assert MonoLog(log, v.currentPoint) == [cmd] + rest;
        SwitchMovesAsRegistryExceptWindows(v, cmd);
        SwitchDrawsAsRegistry(v, cmd);
        assert ([cmd] + rest)[1..] == rest;
      }
    }
  }

  /** No command of the monolith changes the base or the scale. */
  lemma {:induction false} MonoFoldKeepsView(v: Context, log: seq<Command>)
    ensures MonoFold(v, log).base == v.base && MonoFold(v, log).scale == v.scale
    decreases |log|
  {
    if log != [] {
      MonoFoldKeepsView(MonoStep(v, log[0]), log[1..]);
    }
  }

  /**
   * After the prelude the pen no longer depends on where it started: two
   * runs of the same log from contexts with the same base and scale end
   * alike and draw alike.
   */
  lemma PreludeForgetsStart(v1: Context, v2: Context, log: seq<Command>)
    requires v1.base == v2.base && v1.scale == v2.scale
    requires |log| >= 2 && log[0].MoveToCommand? && log[1].SetThicknessCommand?
    ensures MonoFold(v1, log) == MonoFold(v2, log)
    ensures MonoTrace(v1, log) == MonoTrace(v2, log)
  {
    var w1 := MonoStep(MonoStep(v1, log[0]), log[1]);
    var w2 := MonoStep(MonoStep(v2, log[0]), log[1]);
    assert w1 == w2;
    assert log[1..][1..] == log[2..];
    assert MonoFold(v1, log) == MonoFold(w1, log[2..]);
    assert MonoFold(v2, log) == MonoFold(w2, log[2..]);
    assert MonoTrace(v1, log) == [] + ([] + MonoTrace(w1, log[2..]));
    assert MonoTrace(v2, log) == [] + ([] + MonoTrace(w2, log[2..]));
  }

  /**
   * A redraw of a log that starts as the constructor leaves it changes
   * nothing: replaying from the state the log produced ends in that state
   * and draws what the first run drew.
   */
  lemma MonoReplayIsIdempotent(v: Context, log: seq<Command>)
    requires |log| >= 2 && log[0].MoveToCommand? && log[1].SetThicknessCommand?
    ensures MonoFold(MonoFold(v, log), log) == MonoFold(v, log)
    ensures MonoTrace(MonoFold(v, log), log) == MonoTrace(v, log)
  {
    MonoFoldKeepsView(v, log);
    PreludeForgetsStart(MonoFold(v, log), v, log);
  }

  /** The context the constructor's prelude is replayed from; only its base and scale matter. */
  function StartContext(base: Point, scale: real): Context {
    Context(base, scale, base, Thick)
  }

  class Drawer {
    /** The world origin's offset and the scale: the context is read-only here. */
    const base: Point
    const scale: real
    var currentPoint: Point
    var currentThickness: LineThickness
    var currentCross: Option<Point>
    var commands: seq<Command>
    const canvas: Canvas

    /** The fields the renderers read, as one context. */
    function View(): Context
      reads this
    {
      Context(base, scale, currentPoint, currentThickness)
    }

    /**
     * The log starts with the constructor's prelude and the pen is where
     * the log puts it.
     */
    predicate Valid()
      reads this
    {
      && StartsWithPrelude(commands, base)
      && View() == MonoFold(StartContext(base, scale), commands)
    }

    /** Records the prelude: the pen goes to the base, thick. Nothing is drawn. */
    constructor (base: Point, scale: real, canvas: Canvas)
      modifies canvas
      ensures Valid()
      ensures this.base == base && this.scale == scale && this.canvas == canvas
      ensures commands == Prelude(base) && currentCross == None
      ensures currentPoint == base && currentThickness == Thick
      ensures canvas.ops == old(canvas.ops)
    {
      this.base := base;
      this.scale := scale;
      this.canvas := canvas;
      commands := [];
      currentCross := None;
      new;
      AddCommand(MoveToCommand(base));
      AddCommand(SetThicknessCommand(Thick));
      assert commands == Prelude(base) == commands[..2];
      ghost var s := StartContext(base, scale);
      assert commands[1..] == [SetThicknessCommand(Thick)] && commands[1..][1..] == [];
      assert MonoFold(s, [SetThicknessCommand(Thick)]) == MonoFold(s, []);
      assert MonoFold(s, commands) == MonoFold(s, commands[1..]);
      assert View() == s;
    }

    method MoveTo(target: Point)
      requires Valid()
      modifies this, canvas
      ensures Valid()
      ensures commands == old(commands) + [MoveToCommand(target)]
      ensures currentPoint == target && currentThickness == old(currentThickness)
      ensures canvas.ops == old(canvas.ops) && currentCross == old(currentCross)
    {
      AddCommandKeepingValid(MoveToCommand(target));
    }

    method SetThickness(thickness: LineThickness)
      requires Valid()
      modifies this, canvas
      ensures Valid()
      ensures commands == old(commands) + [SetThicknessCommand(thickness)]
      ensures currentPoint == old(currentPoint) && currentThickness == thickness
      ensures canvas.ops == old(canvas.ops) && currentCross == old(currentCross)
    {
      AddCommandKeepingValid(SetThicknessCommand(thickness));
    }

    method DrawDoor(width: real, doorType: DoorType, orientation: Orientation)
      requires Valid()
      modifies this, canvas
      ensures Valid()
      ensures commands == old(commands) + [DrawDoorCommand(width, doorType, orientation)]
      ensures currentPoint == old(currentPoint) && currentThickness == old(currentThickness)
      ensures currentCross == old(currentCross)
      ensures canvas.ops == old(canvas.ops) + DoorDrawer.DoorOps(width, orientation, old(View()))
    {
      AddCommandKeepingValid(DrawDoorCommand(width, doorType, orientation));
    }

    method DrawBed(width: real, length: real, orientation: Orientation)
      requires Valid()
      modifies this, canvas
      ensures Valid()
      ensures commands == old(commands) + [DrawBedCommand(width, length, orientation)]
      ensures currentPoint == old(currentPoint) && currentThickness == old(currentThickness)
      ensures currentCross == old(currentCross)
      ensures canvas.ops == old(canvas.ops) + BedDrawer.BedOps(width, length, orientation, old(View()))
    {
      AddCommandKeepingValid(DrawBedCommand(width, length, orientation));
    }

    method DrawWindowHorizontal(length: real)
      requires Valid()
      modifies this, canvas
      ensures Valid()
      ensures commands == old(commands) + [DrawWindowCommand(length, true), MoveToCommand(Point(old(currentPoint.x) + length, old(currentPoint.y)))]
      ensures currentPoint == Point(old(currentPoint.x) + length, old(currentPoint.y)) && currentThickness == old(currentThickness)
      ensures canvas.ops == old(canvas.ops) + WindowDrawer.WindowOps(length, true, old(View()))
      ensures currentCross == old(currentCross)
    {
      DrawWindow(length, true);
    }

    method DrawWindowVertical(length: real)
      requires Valid()
      modifies this, canvas
      ensures Valid()
      ensures commands == old(commands) + [DrawWindowCommand(length, false), MoveToCommand(Point(old(currentPoint.x), old(currentPoint.y) + length))]
      ensures currentPoint == Point(old(currentPoint.x), old(currentPoint.y) + length) && currentThickness == old(currentThickness)
      ensures canvas.ops == old(canvas.ops) + WindowDrawer.WindowOps(length, false, old(View()))
      ensures currentCross == old(currentCross)
    {
      DrawWindow(length, false);
    }

    /**
     * Records a window at the pen, which the window renderer leaves in
     * place, then a moveTo to the window's far end.
     */
    method DrawWindow(length: real, isHorizontal: bool)
      requires Valid()
      modifies this, canvas
      ensures Valid()
      ensures var advance := WindowDrawer.WindowAdvance(length, isHorizontal, old(currentPoint));
              && commands == old(commands) + [DrawWindowCommand(length, isHorizontal), MoveToCommand(advance)]
              && currentPoint == advance && currentThickness == old(currentThickness)
      ensures canvas.ops == old(canvas.ops) + WindowDrawer.WindowOps(length, isHorizontal, old(View()))
      ensures currentCross == old(currentCross)
    {
      AddCommandKeepingValid(DrawWindowCommand(length, isHorizontal));
      var target := if isHorizontal then Point(currentPoint.x + length, currentPoint.y)
                    else Point(currentPoint.x, currentPoint.y + length);
      AddCommandKeepingValid(MoveToCommand(target));
    }

    method DrawLineHorizontal(length: real, thickness: LineThickness := currentThickness)
      requires Valid()
      modifies this, canvas
      ensures Valid()
      ensures var target := Point(old(currentPoint.x) + length, old(currentPoint.y));
              && commands == old(commands) + [DrawLineCommand(old(currentPoint), target, thickness), MoveToCommand(target)]
              && currentPoint == target && currentThickness == old(currentThickness)
              && canvas.ops == old(canvas.ops) + LineDrawer.LineOps(old(currentPoint), target, thickness, old(View()))
      ensures currentCross == old(currentCross)
    {
      DrawLineTo(Point(currentPoint.x + length, currentPoint.y), thickness);
    }

    method DrawLineVertical(length: real, thickness: LineThickness := currentThickness)
      requires Valid()
      modifies this, canvas
      ensures Valid()
      ensures var target := Point(old(currentPoint.x), old(currentPoint.y) + length);
              && commands == old(commands) + [DrawLineCommand(old(currentPoint), target, thickness), MoveToCommand(target)]
              && currentPoint == target && currentThickness == old(currentThickness)
              && canvas.ops == old(canvas.ops) + LineDrawer.LineOps(old(currentPoint), target, thickness, old(View()))
      ensures currentCross == old(currentCross)
    {
      DrawLineTo(Point(currentPoint.x, currentPoint.y + length), thickness);
    }

    method DrawLineTo(target: Point, thickness: LineThickness := currentThickness)
      requires Valid()
      modifies this, canvas
      ensures Valid()
      ensures commands == old(commands) + [DrawLineCommand(old(currentPoint), target, thickness), MoveToCommand(target)]
      ensures currentPoint == target && currentThickness == old(currentThickness)
      ensures canvas.ops == old(canvas.ops) + LineDrawer.LineOps(old(currentPoint), target, thickness, old(View()))
      ensures currentCross == old(currentCross)
    {
      DrawLine(currentPoint, target, thickness);
      AddCommandKeepingValid(MoveToCommand(target));
    }

    method DrawLine(start: Point, end: Point, thickness: LineThickness := currentThickness)
      requires Valid()
      modifies this, canvas
      ensures Valid()
      ensures commands == old(commands) + [DrawLineCommand(start, end, thickness)]
      ensures currentPoint == old(currentPoint) && currentThickness == old(currentThickness)
      ensures currentCross == old(currentCross)
      ensures canvas.ops == old(canvas.ops) + LineDrawer.LineOps(start, end, thickness, old(View()))
    {
      AddCommandKeepingValid(DrawLineCommand(start, end, thickness));
    }

    /** The switch of runCommand, applied to the drawer's own pen fields. */
    method RunCommand(cmd: Command)
      modifies this, canvas
      ensures View() == MonoStep(old(View()), cmd)
      ensures canvas.ops == old(canvas.ops) + MonoStepOps(old(View()), cmd)
      ensures commands == old(commands) && currentCross == old(currentCross)
    {
      match cmd {
        case MoveToCommand(target) =>
          currentPoint := target;
        case SetThicknessCommand(thickness) =>
          currentThickness := thickness;
        case DrawDoorCommand(width, doorType, orientation) =>
          var _ := DoorDrawer.Draw(width, doorType, orientation, View(), canvas);
        case DrawWindowCommand(length, isHorizontal) =>
          var _ := WindowDrawer.Draw(length, isHorizontal, View(), canvas);
        case DrawBedCommand(width, length, orientation) =>
          var _ := BedDrawer.Draw(width, length, orientation, View(), canvas);
        case DrawLineCommand(start, end, thickness) =>
          var _ := LineDrawer.Draw(start, end, thickness, View(), canvas);
        case UnknownCommand(_) =>
      }
    }

    method AddCommand(cmd: Command)
      modifies this, canvas
      ensures commands == old(commands) + [cmd]
      ensures View() == MonoStep(old(View()), cmd)
      ensures canvas.ops == old(canvas.ops) + MonoStepOps(old(View()), cmd)
      ensures currentCross == old(currentCross)
    {
      commands := commands + [cmd];
      RunCommand(cmd);
    }

    /** AddCommand on a drawer past its constructor: the log still starts with the prelude. */
    method AddCommandKeepingValid(cmd: Command)
      requires Valid()
      modifies this, canvas
      ensures Valid()
      ensures commands == old(commands) + [cmd]
      ensures View() == MonoStep(old(View()), cmd)
      ensures canvas.ops == old(canvas.ops) + MonoStepOps(old(View()), cmd)
      ensures currentCross == old(currentCross)
    {
      MonoFoldSnoc(StartContext(base, scale), commands, cmd);
      assert (commands + [cmd])[..2] == commands[..2];
      AddCommand(cmd);
    }

    /**
     * Clears the surface and replays the log through the switch. Because
     * the log starts with the prelude, the pen ends where it was and the
     * surface shows exactly the drawing of the whole log.
     */
    method RedrawScene()
      requires Valid()
      modifies this, canvas
      ensures Valid()
      ensures View() == old(View())
      ensures canvas.ops == old(canvas.ops) + [ClearAll(canvas.width, canvas.height)]
                            + MonoTrace(StartContext(base, scale), commands)
      ensures commands == old(commands) && currentCross == old(currentCross)
    {
      canvas.Clear(Point(0.0, 0.0), canvas.width as real, canvas.height as real);
      ghost var v := View();
      RunCommands();
      MonoReplayIsIdempotent(StartContext(base, scale), commands);
      PreludeForgetsStart(v, StartContext(base, scale), commands);
    }

    /** The loop of redrawScene. */
    method RunCommands()
      modifies this, canvas
      ensures View() == MonoFold(old(View()), commands)
      ensures canvas.ops == old(canvas.ops) + MonoTrace(old(View()), commands)
      ensures commands == old(commands) && currentCross == old(currentCross)
    {
      ghost var start, before := View(), canvas.ops;
      ghost var done: seq<Command> := [];
      var i := 0;
      while i < |commands|
        invariant 0 <= i <= |commands| && done == commands[..i]
        invariant commands == old(commands) && currentCross == old(currentCross)
        invariant View() == MonoFold(start, done)
        invariant canvas.ops == before + MonoTrace(start, done)
      {
        RunNext(start, before, done, commands[i]);
        done := done + [commands[i]];
        i := i + 1;
      }
      assert done == commands;
    }

    /** One iteration of the replay loop. */
    method RunNext(ghost start: Context, ghost before: seq<SurfaceOp>, ghost done: seq<Command>, cmd: Command)
      requires View() == MonoFold(start, done) && canvas.ops == before + MonoTrace(start, done)
      modifies this, canvas
      ensures View() == MonoFold(start, done + [cmd]) && canvas.ops == before + MonoTrace(start, done + [cmd])
      ensures commands == old(commands) && currentCross == old(currentCross)
    {
      ghost var o := canvas.ops;
      MonoFoldSnoc(start, done, cmd);
      RunCommand(cmd);
      ConcatAssoc(before, MonoTrace(start, done), MonoStepOps(MonoFold(start, done), cmd));
    }

    // -----------------------------------------------------------------
    // The measurement overlay, as in the registry drawer.

    method OnKeyDown(key: string)
      requires Valid()
      modifies this, canvas
      ensures Valid() && commands == old(commands) && View() == old(View())
      ensures key == "Escape" ==>
                && currentCross == None
                && canvas.ops == old(canvas.ops) + [ClearAll(canvas.width, canvas.height)]
                                 + MonoTrace(StartContext(base, scale), commands)
      ensures key != "Escape" ==> currentCross == old(currentCross) && canvas.ops == old(canvas.ops)
    {
      if key == "Escape" {
        RedrawScene();
        currentCross := None;
      }
    }

    method OnClick(p: Point)
      requires Valid()
      modifies this, canvas
      ensures Valid() && commands == old(commands) && View() == old(View())
      ensures currentCross == Some(p)
      ensures canvas.ops == old(canvas.ops) + [ClearAll(canvas.width, canvas.height)]
                            + MonoTrace(StartContext(base, scale), commands) + CrossOps(p)
    {
      RedrawScene();
      DrawCrossPoint(p);
      currentCross := Some(p);
    }

    method OnMouseMove(p: Point)
      requires Valid()
      modifies this, canvas
      ensures Valid() && commands == old(commands) && View() == old(View())
      ensures currentCross == old(currentCross)
      ensures old(currentCross).None? ==> canvas.ops == old(canvas.ops)
      ensures old(currentCross).Some? ==>
                canvas.ops == old(canvas.ops) + [ClearAll(canvas.width, canvas.height)]
                              + MonoTrace(StartContext(base, scale), commands)
                              + CrossOps(old(currentCross).value) + GuideOps(old(currentCross).value, p)
    {
      if currentCross.Some? {
        var from := currentCross.value;
        RedrawScene();
        DrawCrossPoint(from);
        DrawGuide(from, p);
      }
    }

    method DrawCrossPoint(p: Point)
      modifies canvas
      ensures canvas.ops == old(canvas.ops) + CrossOps(p)
    {
      canvas.StrokeStyle(Red);
      canvas.LineWidth(1);
      canvas.Begin();
      canvas.Move(Point(p.x - CrossArm, p.y));
      canvas.Line(Point(p.x + CrossArm, p.y));
      canvas.Move(Point(p.x, p.y - CrossArm));
      canvas.Line(Point(p.x, p.y + CrossArm));
      canvas.DoStroke();
      canvas.Close();
    }

    method DrawGuide(from: Point, to: Point)
      modifies canvas
      ensures canvas.ops == old(canvas.ops) + GuideOps(from, to)
    {
      canvas.StrokeStyle(Red);
      canvas.LineDash(true);
      canvas.Begin();
      canvas.Move(from);
      canvas.Line(to);
      canvas.DoStroke();
      canvas.Close();
      canvas.LineDash(false);
      canvas.LineWidth(1);
      canvas.Text(LabelPosition(from, to));
    }
  }
}
