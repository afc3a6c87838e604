/**
 * The scripted sketch both entry points draw at start-up: the walls of a
 * room with two windows, a door, a bed and a wardrobe.
 */
module Sketch {
  import opened Geometry
  import opened Surface
  import opened Commands
  import opened DrawingContext
  import Registry
  import Monolith
  import Designer
  import DrawerFactory
  import WindowDrawer

  /** A wall from `a` to `b` in the default thick stroke, then the pen at `b`. */
  function Wall(a: Point, b: Point): seq<Command> {
    [DrawLineCommand(a, b, Thick), MoveToCommand(b)]
  }

  /** The first stretch of wall, from the world origin. */
  function WestStart(): seq<Command> {
    [MoveToCommand(Point(0.0, 0.0))] + Wall(Point(0.0, 0.0), Point(0.0, 580.0))
  }

  /** The walls between the two windows. */
  function BetweenWindows(): seq<Command> {
    Wall(Point(0.0, 2105.0), Point(0.0, 2770.0)) + Wall(Point(0.0, 2770.0), Point(1625.0, 2770.0))
  }

  /** The walls after the second window, back to the world origin. */
  function Closing(): seq<Command> {
    Wall(Point(3145.0, 2770.0), Point(5315.0, 2770.0))
    + Wall(Point(5315.0, 2770.0), Point(5315.0, 0.0))
    + Wall(Point(5315.0, 0.0), Point(0.0, 0.0))
  }

  /** The walls, recorded from the world origin round the room and back. */
  function WallsLog(): (log: seq<Command>)
    ensures |log| == 15
  {
    WestStart() + [DrawWindowCommand(1525.0, false)] + BetweenWindows()
    + [DrawWindowCommand(1520.0, true)] + Closing()
  }

  /** The door, the bed and the three sides of the wardrobe. */
  function FurnitureLog(): (log: seq<Command>)
    ensures |log| == 7
  {
    [MoveToCommand(Point(5315.0, 80.0)), DrawDoorCommand(800.0, Left, West),
     MoveToCommand(Point(800.0, 0.0)), DrawBedCommand(2120.0, 2120.0, North),
     DrawLineCommand(Point(3720.0, 0.0), Point(3720.0, 2020.0), Thick),
     DrawLineCommand(Point(3720.0, 2020.0), Point(4320.0, 2020.0), Thick),
     DrawLineCommand(Point(4320.0, 2020.0), Point(4320.0, 0.0), Thick)]
  }

  /** The log the registry drawer records for the script. */
  function RegistrySketchLog(): (log: seq<Command>)
    ensures |log| == 22
  {
    WallsLog() + FurnitureLog()
  }

  /** The walls close: after the last wall the pen is back at the world origin, wherever it started. */
  lemma WallsClose(p: Point)
    ensures Registry.PenAfter(WallsLog(), p) == Point(0.0, 0.0)
  {
    Registry.PenAfterEndsAtLastMove(WallsLog(), p);
  }

  /**
   * The script leaves the pen at the bed's corner, (800, 0): the bed and
   * the wardrobe's plain lines do not move the pen.
   */
  lemma SketchEndsAtBedCorner(p: Point)
    ensures Registry.PenAfter(RegistrySketchLog(), p) == Point(800.0, 0.0)
  {
    var log := RegistrySketchLog();
    assert log == log[..18] + log[18..];
    Registry.PenAfterConcat(log[..18], log[18..], p);
    Registry.PenAfterEndsAtLastMove(log[..18], p);
    Registry.PenAfterStill(log[18..], Point(800.0, 0.0));
  }

  /**
   * The log the monolith records for the same script: each window is
   * followed by a moveTo to its far end.
   */
  function MonoSketchLog(): (log: seq<Command>)
    ensures |log| == 24
  {
    WestStart() + [DrawWindowCommand(1525.0, false), MoveToCommand(Point(0.0, 2105.0))] + BetweenWindows()
    + [DrawWindowCommand(1520.0, true), MoveToCommand(Point(3145.0, 2770.0))] + Closing()
    + FurnitureLog()
  }

  /** The monolith's log for the script is the translation of the registry's log. */
  lemma MonoSketchIsTranslation(p: Point)
    ensures Monolith.MonoLog(RegistrySketchLog(), p) == MonoSketchLog()
  {
    var w1, w2 := DrawWindowCommand(1525.0, false), DrawWindowCommand(1520.0, true);
    var x1 := WestStart();
    var x2 := x1 + [w1];
    var x3 := x2 + BetweenWindows();
    var x4 := x3 + [w2];
    var x5 := x4 + Closing();
    var m2 := x1 + [w1, MoveToCommand(Point(0.0, 2105.0))];
    var m4 := m2 + BetweenWindows() + [w2, MoveToCommand(Point(3145.0, 2770.0))];
    TranslateWindow(x1, w1, p, Point(0.0, 580.0));
    Monolith.MonoLogWithoutWindows(x1, p);
    assert Monolith.MonoLog(x2, p) == m2;
    TranslateWithoutWindows(x2, BetweenWindows(), p);
    TranslateWindow(x3, w2, p, Point(1625.0, 2770.0));
    assert Monolith.MonoLog(x4, p) == m4;
    TranslateWithoutWindows(x4, Closing(), p);
    TranslateWithoutWindows(x5, FurnitureLog(), p);
  }

  /** Appending a log without windows appends it unchanged to the translation. */
  lemma TranslateWithoutWindows(x: seq<Command>, y: seq<Command>, p: Point)
    requires forall i :: 0 <= i < |y| ==> !y[i].DrawWindowCommand?
    ensures Monolith.MonoLog(x + y, p) == Monolith.MonoLog(x, p) + y
  {
    Monolith.MonoLogConcat(x, y, p);
    Monolith.MonoLogWithoutWindows(y, Registry.PenAfter(x, p));
  }

  /** Appending a window after a log that ends with a moveTo to `q` appends the window and a moveTo to its far end. */
  lemma TranslateWindow(x: seq<Command>, w: Command, p: Point, q: Point)
    requires |x| > 0 && x[|x| - 1] == MoveToCommand(q) && w.DrawWindowCommand?
    ensures Monolith.MonoLog(x + [w], p)
            == Monolith.MonoLog(x, p) + [w, MoveToCommand(WindowDrawer.WindowAdvance(w.length, w.isHorizontal, q))]
  {
    Monolith.MonoLogSnoc(x, w, p);
    Registry.PenAfterEndsAtLastMove(x, p);
  }

  /**
   * The start-up script of the registry version: a drawer built for the
   * canvas, then the builder calls that record the sketch.
   */
  method RegistryScript(canvas: Canvas) returns (d: Designer.Drawer)
    modifies canvas
    ensures fresh(d) && d.canvas == canvas
    ensures d.commands == RegistrySketchLog()
    ensures d.ctx == DrawerFactory.InitContext(canvas.width, canvas.height).(currentPoint := Point(800.0, 0.0))
  {
    d := DrawerFactory.Build(canvas);
    RegistryWalls(d);
    RegistryFurniture(d);
  }

  /** The wall-drawing calls of the registry version's script. */
  method RegistryWalls(d: Designer.Drawer)
    requires d.ctx.currentThickness == Thick
    modifies d, d.canvas
    ensures d.commands == old(d.commands) + WallsLog()
    ensures d.ctx == old(d.ctx).(currentPoint := Point(0.0, 0.0))
  {
    d.MoveTo(Point(0.0, 0.0));
    d.DrawLineVertical(580.0);
    d.DrawWindowVertical(1525.0);
    ghost var log := d.commands;
    d.DrawLineVertical(665.0);
    d.DrawLineHorizontal(1625.0);
    assert d.commands == log + BetweenWindows();
    d.DrawWindowHorizontal(1520.0);
    log := d.commands;
    d.DrawLineHorizontal(2170.0);
    d.DrawLineVertical(-2770.0);
    d.DrawLineHorizontal(-5315.0);
    assert d.commands == log + Closing();
  }

  /** The door, bed and wardrobe calls of the registry version's script. */
  method RegistryFurniture(d: Designer.Drawer)
    requires d.ctx.currentThickness == Thick
    modifies d, d.canvas
    ensures d.commands == old(d.commands) + FurnitureLog()
    ensures d.ctx == old(d.ctx).(currentPoint := Point(800.0, 0.0))
  {
    d.MoveTo(Point(5315.0, 80.0));
    d.DrawDoor(800.0, Left, West);
    d.MoveTo(Point(800.0, 0.0));
    d.DrawBed(2120.0, 2120.0, North);
    d.DrawLine(Point(3720.0, 0.0), Point(3720.0, 2020.0));
    d.DrawLine(Point(3720.0, 2020.0), Point(4320.0, 2020.0));
    d.DrawLine(Point(4320.0, 2020.0), Point(4320.0, 0.0));
  }

  /**
   * The start-up script of the monolith: a drawer over the fitted scene,
   * whose constructor records the prelude, then the same builder calls.
   */
  method MonolithScript(canvas: Canvas) returns (d: Monolith.Drawer)
    modifies canvas
    ensures fresh(d) && d.canvas == canvas && d.Valid()
    ensures d.commands == Monolith.Prelude(Point(1000.0, 1000.0)) + MonoSketchLog()
    ensures d.currentPoint == Point(800.0, 0.0) && d.currentThickness == Thick
  {
    var ctx := DrawerFactory.InitContext(canvas.width, canvas.height);
    d := new Monolith.Drawer(ctx.base, ctx.scale, canvas);
    MonolithWalls(d);
    MonolithFurniture(d);
  }

  /** The wall-drawing calls of the monolith's script. */
  method MonolithWalls(d: Monolith.Drawer)
    requires d.Valid() && d.currentThickness == Thick
    modifies d, d.canvas
    ensures d.Valid()
    ensures d.commands == old(d.commands) + WestStart()
              + [DrawWindowCommand(1525.0, false), MoveToCommand(Point(0.0, 2105.0))] + BetweenWindows()
              + [DrawWindowCommand(1520.0, true), MoveToCommand(Point(3145.0, 2770.0))] + Closing()
    ensures d.currentThickness == old(d.currentThickness)
  {
    d.MoveTo(Point(0.0, 0.0));
    d.DrawLineVertical(580.0);
    d.DrawWindowVertical(1525.0);
    ghost var log := d.commands;
    d.DrawLineVertical(665.0);
    d.DrawLineHorizontal(1625.0);
    assert d.commands == log + BetweenWindows();
    d.DrawWindowHorizontal(1520.0);
    log := d.commands;
    d.DrawLineHorizontal(2170.0);
    d.DrawLineVertical(-2770.0);
    d.DrawLineHorizontal(-5315.0);
    assert d.commands == log + Closing();
  }

  /** The door, bed and wardrobe calls of the monolith's script. */
  method MonolithFurniture(d: Monolith.Drawer)
    requires d.Valid() && d.currentThickness == Thick
    modifies d, d.canvas
    ensures d.Valid()
    ensures d.commands == old(d.commands) + FurnitureLog()
    ensures d.currentPoint == Point(800.0, 0.0) && d.currentThickness == old(d.currentThickness)
  {
    d.MoveTo(Point(5315.0, 80.0));
    d.DrawDoor(800.0, Left, West);
    d.MoveTo(Point(800.0, 0.0));
    d.DrawBed(2120.0, 2120.0, North);
    d.DrawLine(Point(3720.0, 0.0), Point(3720.0, 2020.0));
    d.DrawLine(Point(3720.0, 2020.0), Point(4320.0, 2020.0));
    d.DrawLine(Point(4320.0, 2020.0), Point(4320.0, 0.0));
  }

  /**
   * Both versions draw the same sketch: on any canvas, the monolith's
   * replay of its log (prelude included) draws what the registry drawer's
   * replay of its log draws from the fitted context, both end in the same
   * context, and the pen ends at (800, 0).
   */
  lemma BothVersionsDrawTheSameSketch(canvasWidth: nat, canvasHeight: nat)
    ensures var ctx := DrawerFactory.InitContext(canvasWidth, canvasHeight);
            var start := Monolith.StartContext(ctx.base, ctx.scale);
            && Monolith.MonoTrace(start, Monolith.Prelude(ctx.base) + MonoSketchLog()) == Registry.Trace(ctx, RegistrySketchLog())
            && Monolith.MonoFold(start, Monolith.Prelude(ctx.base) + MonoSketchLog()) == Registry.Fold(ctx, RegistrySketchLog())
            && Registry.Fold(ctx, RegistrySketchLog()).currentPoint == Point(800.0, 0.0)
  {
    var ctx := DrawerFactory.InitContext(canvasWidth, canvasHeight);
    var start := Monolith.StartContext(ctx.base, ctx.scale);
    assert start == ctx;
    var prelude := Monolith.Prelude(ctx.base);
    assert prelude[1..] == [prelude[1]] && prelude[1..][1..] == [];
    assert Monolith.MonoFold(start, prelude) == Monolith.MonoFold(start, prelude[1..]) == start;
    assert Monolith.MonoTrace(start, prelude) == [] + ([] + []);
    Monolith.MonoFoldConcat(start, prelude, MonoSketchLog());
    MonoSketchIsTranslation(ctx.currentPoint);
    Monolith.MonolithAgreesWithRegistry(ctx, RegistrySketchLog());
    Registry.FoldEffect(ctx, RegistrySketchLog());
    SketchEndsAtBedCorner(ctx.currentPoint);
  }
}
