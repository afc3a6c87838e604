/**
 * The factory that builds a drawer for a canvas: it fits a 10 m by 10 m
 * scene into the canvas and puts the world origin a tenth of the scene in
 * from the top-left corner.
 */
module DrawerFactory {
  import opened Geometry
  import opened Surface
  import opened DrawingContext
  import opened Projection
  import Designer

  /** The extent of the scene in world units (millimetres). */
  const SceneWidth: real := 10000.0
  const SceneHeight: real := 10000.0

  function Min(a: real, b: real): (m: real)
    ensures m <= a && m <= b && (m == a || m == b)
  {
    if a <= b then a else b
  }

  /**
   * `initContext`: the scale is the smaller of the two canvas-to-scene
   * ratios, the base is a tenth of the scene on each axis, and the pen
   * starts at the base with the thick stroke.
   */
  function InitContext(canvasWidth: nat, canvasHeight: nat): (ctx: Context)
    ensures ctx.scale == Min(canvasWidth as real / SceneWidth, canvasHeight as real / SceneHeight)
    ensures ctx.base == Point(1000.0, 1000.0) && ctx.currentPoint == ctx.base
    ensures ctx.currentThickness == Thick
  {
    var kx := canvasWidth as real / SceneWidth;
    var ky := canvasHeight as real / SceneHeight;
    var base := Point(SceneWidth / 10.0, SceneHeight / 10.0);
    Context(base, Min(kx, ky), base, Thick)
  }

  /**
   * The whole scene fits the canvas on both axes, exactly fills it on at
   * least one, and the scale is positive whenever the canvas has an area.
   */
  lemma SceneFitsCanvas(canvasWidth: nat, canvasHeight: nat)
    ensures var ctx := InitContext(canvasWidth, canvasHeight);
            && SceneWidth * ctx.scale <= canvasWidth as real
            && SceneHeight * ctx.scale <= canvasHeight as real
            && (SceneWidth * ctx.scale == canvasWidth as real || SceneHeight * ctx.scale == canvasHeight as real)
            && (canvasWidth > 0 && canvasHeight > 0 ==> ctx.scale > 0.0)
  {
    var ctx := InitContext(canvasWidth, canvasHeight);
    assert SceneWidth * (canvasWidth as real / SceneWidth) == canvasWidth as real;
    assert SceneHeight * (canvasHeight as real / SceneHeight) == canvasHeight as real;
  }

  /** The world origin is drawn a tenth of the scene in from the top-left corner, on both axes. */
  lemma WorldOriginIsInset(canvasWidth: nat, canvasHeight: nat)
    ensures var ctx := InitContext(canvasWidth, canvasHeight);
            ConvertWorldPointToScenePoint(Point(0.0, 0.0), ctx)
              == Point(SceneWidth / 10.0 * ctx.scale, SceneHeight / 10.0 * ctx.scale)
  {
  }

  /** `build(canvas)`: a drawer over the canvas, with the fitted context and an empty log. */
  method Build(canvas: Canvas) returns (drawer: Designer.Drawer)
    ensures fresh(drawer)
    ensures drawer.canvas == canvas && drawer.ctx == InitContext(canvas.width, canvas.height)
    ensures drawer.commands == [] && drawer.currentCross == None
  {
    drawer := new Designer.Drawer(InitContext(canvas.width, canvas.height), canvas);
  }
}
