# canvas-room-planner: the command-log drawing interpreter

canvas-room-planner sketches floor plans on an HTML canvas. A `Drawer` offers builder calls such as `moveTo`, `drawLineTo`, `drawWindowHorizontal`, `drawDoor` and `drawBed`. Each call appends one or two commands to an append-only log and runs them at once. A command is one of six tags: `moveTo`, `setThickness`, `drawLine`, `drawDoor`, `drawWindow`, `drawBed`.

A command is run against a drawing context. The context holds:
- a fixed world `base`;
- a `scale`;
- the pen (`currentPoint`);
- the pen thickness.

A renderer draws in scene coordinates `(base + p) * scale` and returns a partial update of the context. The drawer merges that update by object spread. `redrawScene` clears the surface and runs the whole log again. A click anchors a measurement cross, and moving the cursor then draws a dashed guide with a distance label. Neither is ever recorded in the log.

The repository holds three versions of this design, and the model keeps all three:

- **Registry drawer with zoom** (`src/components/designer/drawer.ts`), modelled as `Designer.Drawer`.
  - It dispatches each command to the first renderer in a registry whose tag matches.
  - `zoomIn` and `zoomOut` multiply or divide the scale by 1.1 and redraw.
- **Earlier registry drawer** (`src/index.ts`). It has the same builders, dispatch, overlay and replay, without zoom. Its lines are the same as the later file's, so it is not modelled as a separate class. `Designer.Drawer` models both, and the rows below cite the later file. The start-up script of `src/index.ts` is `Sketch.RegistryScript`.
- **Monolith** (`index.ts`), modelled as `Monolith.Drawer`.
  - It dispatches with a switch and keeps the pen in fields of its own.
  - Its scale never changes.
  - Its constructor records `moveTo(base)` and `setThickness(thick)`.
  - Its window renderer leaves the pen in place. The window builder records a `moveTo` to the window's far end instead.

How the parts are modelled:
- **Canvas.** The canvas 2D context is a `Surface.Canvas` object. Its `ops` field is the trace of calls made on it, with one `SurfaceOp` per call.
- **Renderers.** Each renderer is a `method` that draws on the canvas. It is proved against a function that gives its operations (`DoorOps`, `WindowOps`, `BedOps`, `LineOps`) and against geometry functions (`DoorLeaf`, `BedCorners`, `Headboard`, `WindowRect`). The operation functions have no table rows of their own: each `Draw` row states what its function lists. The same holds for `CrossOps` and `GuideOps`, covered by the `DrawCrossPoint` and `DrawGuide` rows.
- **Interpreter.** `Registry.Step`/`StepOps` give the effect of one dispatch, and `Registry.Fold`/`Trace` fold them over a log. `Monolith.MonoStep`/`MonoFold`/`MonoTrace` do the same for the switch.
- **Reference pen semantics.** `NextPen`, `NextThickness`, `PenAfter` and `ThicknessAfter` say where the pen and the thickness end up, independently of the interpreter.
- **Agreement.** `Monolith.MonoLog` translates a registry log into the log the monolith records for the same builder calls. `MonolithAgreesWithRegistry` proves that both versions then end in the same context and draw the same scene.

Replay in the registry versions starts from the live context, not from the context the drawer was built with:
- A log that begins with a `moveTo` replays to the same state (`ReplayAfterMoveToIsIdempotent`).
- A log without one drifts: each replay of a window moves the pen one window further (`ReplayWithoutMoveToDrifts`).

The scripted sketch does not end with the pen at the last wardrobe corner. `drawLine` never moves the pen, so the script leaves it at the bed's corner, (800, 0). The model follows the code here (`SketchEndsAtBedCorner`).

## Model

| member | source | states |
|---|---|---|
| DrawingContext.SetDrawingContext | src/drawers/drawing-context.ts:18-30 | each mutable field of the result is the update's value when the update gives one and the context's otherwise |
| DrawingContext.Merge | src/drawers/drawing-context.ts:4-30 | merging an update keeps the base, and the mutable part of the result is `setDrawingContext` of the context and the update |
| DrawingContext.MergeNoChange | src/drawers/drawing-context.ts:18-30 | the empty update `{}` gives back the context's own mutable fields and leaves the context unchanged |
| DrawingContext.MergeIdempotent | src/drawers/drawing-context.ts:18-30 | merging the same update twice equals merging it once |
| DrawingContext.MergeFullUpdate | src/drawers/drawing-context.ts:22-29 | an update giving all three mutable fields yields exactly those fields, whatever the context |
| Projection.ConvertWorldPointToScenePoint | src/components/designer/drawers/drawer.ts:17-22 | the world-to-scene map `(base + p) * scale`, reading only base and scale; its properties are the rows below |
| Projection.ScaleWorldLengthToSceneLength | src/components/designer/drawers/drawer.ts:24-29 | a world length times the scale; `LengthScales` and `LengthRoundTrip` state its properties |
| Projection.ScaleSceneLengthToWorldLength | src/components/designer/drawers/drawer.ts:31-36 | with a non-zero scale, the result is the world length that the scale maps back onto the scene length |
| Projection.ConvertIsAffine | src/components/designer/drawers/drawer.ts:17-22 | two projected points differ by `scale` times their world difference, on each axis |
| Projection.ConvertNegatedBaseIsOrigin | src/components/designer/drawers/drawer.ts:17-22 | the world point `-base` projects to the scene origin |
| Projection.ConvertReadsView | src/components/designer/drawers/drawer.ts:17-29 | the projection of any point and of any length depends on the context's base and scale only, not on the pen or thickness |
| Projection.LengthRoundTrip | src/components/designer/drawers/drawer.ts:24-36 | with a non-zero scale, scaling a length to the scene and back (or back and forth) gives it back |
| Projection.ConvertScales | src/components/designer/drawers/drawer.ts:17-22 | multiplying the scale by k multiplies every projected point by k |
| Projection.LengthScales | src/components/designer/drawers/drawer.ts:24-29 | multiplying the scale by k multiplies every scene length by k |
| Projection.LineWidthOf | src/components/designer/drawers/drawer.ts:38-50 | the stroke width is 2 exactly for thick and 1 exactly for every other thickness |
| Projection.SetStrokeStyle | src/components/designer/drawers/drawer.ts:38-50 | appends a black stroke style, then the line width of the thickness |
| MoveToDrawer.Draw | src/drawers/move-to-drawer.ts:15-19 | the merged update moves the pen to the target and keeps base, scale and thickness |
| MoveToDrawer.DrawIgnoresContext | src/drawers/move-to-drawer.ts:15-19 | the update is the same whatever the incoming context, previous pen included |
| MoveToDrawer.LaterMoveWins | src/drawers/move-to-drawer.ts:15-19 | moving to a then to b leaves the same context as moving to b alone |
| SetThicknessDrawer.Draw | src/components/designer/drawers/set-thickness-drawer.ts:15-22 | the merged update sets the thickness and keeps base, scale and pen |
| SetThicknessDrawer.LastThicknessWins | src/components/designer/drawers/set-thickness-drawer.ts:15-22 | of two consecutive thickness changes the last one decides the context |
| LineDrawer.Draw | src/components/designer/drawers/line-drawer.ts:18-31 | returns the empty update and appends the line's operations: style of the command's thickness, a path from the projected start to the projected end, stroke, close |
| LineDrawer.LineIgnoresPen | src/components/designer/drawers/line-drawer.ts:18-28 | the line drawn does not depend on the pen or the pen thickness, and its width comes from the command's thickness |
| LineDrawer.LineOpsScale | src/components/designer/drawers/line-drawer.ts:18-28 | at a scale k times larger the line is drawn magnified by k |
| WindowDrawer.WindowRect | src/drawers/window-drawer.ts:24-40 | the window rectangle starts at the pen, spans the advance along its axis, is 100 deep and is centred on the wall line across it |
| WindowDrawer.Draw | src/drawers/window-drawer.ts:17-50 | returns the pen-advance update and appends thick black stroke, light-blue fill, the projected rectangle, fill, stroke and close |
| WindowDrawer.WindowMovesAlongItsAxis | src/drawers/window-drawer.ts:45-49 | after merging, the pen has moved by the length along the window's axis only; base, scale and thickness are kept |
| WindowDrawer.WindowAlwaysThick | src/drawers/window-drawer.ts:21 | a window is drawn with line width 2 whatever the pen thickness |
| WindowDrawer.WindowOpsScale | src/drawers/window-drawer.ts:24-43 | at a scale k times larger the window is drawn magnified by k |
| DoorDrawer.DoorLeaf | src/drawers/door-drawer.ts:26-45 | per orientation: North and South leaves start width to the right of the pen, East width below it, West at the pen; the leaf then runs the absolute width up (North), down (South), right (East) or left (West) |
| DoorDrawer.DoorLeafGeometry | src/drawers/door-drawer.ts:26-45 | every leaf is axis-aligned and as long as the absolute width; its start lies on the swing circle round the pen except for West, where it starts at the pen and its end is on the circle |
| DoorDrawer.Draw | src/drawers/door-drawer.ts:25-62 | returns the empty update and appends the projected leaf and the swing arc centred on the unshifted pen; the door type plays no part |
| DoorDrawer.WestDoorOfSketch | index.ts:285-289 | the sketch's West door at (5315, 80), 800 wide, runs from (5315, 80) to (4515, 80) |
| DoorDrawer.DoorOpsIgnoreThickness | src/drawers/door-drawer.ts:25-62 | the door drawn does not depend on the pen thickness |
| DoorDrawer.DoorOpsScale | src/drawers/door-drawer.ts:47-59 | at a scale k times larger the door, arc radius included, is drawn magnified by k |
| BedDrawer.BedCorners | src/components/designer/drawers/bed-drawer.ts:26-38 | the outline is an axis-aligned rectangle with the pen as top-left corner, width along x for North/South and length along x for East/West |
| BedDrawer.Headboard | src/components/designer/drawers/bed-drawer.ts:47-67 | the headboard crosses the bed between its long sides, 80 inside the head edge: top for North, right for East, bottom for South, left for West |
| BedDrawer.HeadboardFromCorners | src/components/designer/drawers/bed-drawer.ts:47-67 | the endpoints the renderer builds from the corners are the headboard segment |
| BedDrawer.Draw | src/components/designer/drawers/bed-drawer.ts:20-74 | returns the empty update and appends thick style, the closed outline through the four corners, and the headboard line |
| BedDrawer.NorthBedOfSketch | index.ts:333-340 | the sketch's North bed at (800, 0), 2120 square, has corners (2920, 0), (2920, 2120), (800, 2120) and its headboard at y = 80 |
| BedDrawer.BedOpsIgnoreThickness | src/components/designer/drawers/bed-drawer.ts:20-74 | the bed drawn does not depend on the pen thickness |
| BedDrawer.BedOpsScale | src/components/designer/drawers/bed-drawer.ts:40-71 | at a scale k times larger the bed is drawn magnified by k |
| Registry.Find | src/components/designer/drawer.ts:141 | a renderer found for a tag is in the registry and has that tag |
| Registry.FindNoneIffAbsent | src/components/designer/drawer.ts:141-146 | the lookup comes back empty exactly when no registered renderer has the tag |
| Registry.RegistryCoversCommands | src/components/designer/drawer.ts:16-23 | every one of the six tags finds its own renderer; only an unknown tag finds none |
| Registry.Step | src/components/designer/drawer.ts:140-154 | the context after `runCommand`: the found renderer's update merged over the context, or the context unchanged when no renderer has the tag; `StepEffect` ties it to the reference pen semantics |
| Registry.StepOps | src/components/designer/drawer.ts:140-154 | what `runCommand` draws: the found renderer's operations, nothing for an unregistered tag; `DispatchDrawsWithOwnRenderer` and `StepDrawsNothing` state which |
| Registry.Fold | src/components/designer/drawer.ts:259-267 | the context after the replay loop runs the log in order from a context; `FoldEffect` and `FoldSnoc` state its properties |
| Registry.Trace | src/components/designer/drawer.ts:259-267 | everything the replay loop draws, command after command; `FoldSnoc` and `ZoomMagnifiesReplay` state its properties |
| Registry.DrawWith | src/components/designer/drawer.ts:148 | the polymorphic `draw` returns the renderer's update and appends the renderer's operations |
| Registry.DispatchMoveTo | src/components/designer/drawer.ts:140-154 | dispatching a moveTo moves the pen and draws nothing |
| Registry.DispatchSetThickness | src/components/designer/drawer.ts:140-154 | dispatching a setThickness changes the thickness and draws nothing |
| Registry.DispatchDoor | src/components/designer/drawer.ts:140-154 | dispatching a door keeps the context and draws the door renderer's operations |
| Registry.DispatchWindow | src/components/designer/drawer.ts:140-154 | dispatching a window advances the pen along it and draws the window renderer's operations |
| Registry.DispatchBed | src/components/designer/drawer.ts:140-154 | dispatching a bed keeps the context and draws the bed renderer's operations |
| Registry.DispatchLine | src/components/designer/drawer.ts:140-154 | dispatching a line keeps the context and draws the line renderer's operations |
| Registry.DispatchUnknown | src/components/designer/drawer.ts:143-146 | a command with an unregistered tag changes nothing and draws nothing |
| Registry.StepEffect | src/components/designer/drawer.ts:140-154 | one dispatch keeps base and scale and moves pen and thickness as the reference semantics says |
| Registry.StepDrawsNothing | src/components/designer/drawer.ts:140-154 | moveTo, setThickness and unknown commands draw nothing |
| Registry.DispatchDrawsWithOwnRenderer | src/components/designer/drawer.ts:140-154 | each drawing command is drawn by the renderer of its own tag |
| Registry.StepOpsIgnoreThickness | src/components/designer/drawer.ts:140-154 | what one dispatch draws does not depend on the pen thickness |
| Registry.FoldSnoc | src/components/designer/drawer.ts:254-267 | appending a command and running it at once leaves the context and drawing a replay of the longer log would |
| Registry.FoldEffect | src/components/designer/drawer.ts:259-267 | running a log keeps base and scale; pen and thickness end where the reference semantics puts them |
| Registry.TraceIgnoresThickness | src/components/designer/drawer.ts:259-267 | the drawing of a whole log does not depend on the starting thickness |
| Registry.PenAfterConcat | src/components/designer/drawer.ts:259-267 | the pen after two logs is the pen after the second, started where the first left it |
| Registry.PenAfterEndsAtLastMove | src/components/designer/drawer.ts:114-123 | a log ending in a moveTo leaves the pen at its target, wherever it started |
| Registry.PenAfterStill | src/components/designer/drawer.ts:54-74 | doors, beds, lines and unknown commands never move the pen |
| Registry.ThicknessAfterOverrides | src/components/designer/drawer.ts:45-52 | a log either leaves every starting thickness alone or sets the same final thickness from every start |
| Registry.ReplayAfterMoveToIsIdempotent | src/index.ts:282-288 | a log starting with a moveTo, replayed from the context it produced, ends in that context and redraws exactly what it drew |
| Registry.ReplayWithoutMoveToDrifts | src/components/designer/drawer.ts:259-267 | a log of one horizontal window and no moveTo moves the pen a further window length on each replay |
| Registry.StepOpsScale | src/components/designer/drawer.ts:140-154 | multiplying the scale by k magnifies what one dispatch draws by k |
| Registry.StepScale | src/components/designer/drawer.ts:140-154 | multiplying the scale by k changes only the scale of the context one dispatch leaves |
| Registry.ZoomKeepsContext | src/components/designer/drawer.ts:29-37 | multiplying the scale by k changes only the scale of the context a replay ends in |
| Registry.ZoomMagnifiesReplay | src/components/designer/drawer.ts:29-37 | replaying at a scale k times larger draws the same scene magnified by k |
| Overlay.CrossIsCentredOnAnchor | src/components/designer/drawer.ts:234-248 | the cross is a horizontal and a vertical stroke, each 20 long, centred on the anchor |
| Overlay.LabelBesideGuideMidpoint | src/components/designer/drawer.ts:197-217 | the guide is stroked from the anchor to the cursor, and the label sits 5 right of and 5 above the midpoint of that stroked segment, at the same place whichever way round the guide is drawn |
| Designer.ZoomOutShrinksReplay | src/components/designer/drawer.ts:34-37 | replaying at the scale divided by 1.1 draws the scene reduced by 1.1 and ends in the same context apart from the scale |
| Designer.ZoomOutUndoesZoomIn | src/components/designer/drawer.ts:29-37 | over the reals, zooming in then out, or out then in, restores the scale |
| Designer.ReplayGrows | src/components/designer/drawer.ts:254-267 | running one more command after a replayed prefix gives the replay of the longer prefix |
| Designer.Drawer.constructor | src/components/designer/drawer.ts:13-27 | a new drawer has the given context, an empty log and no anchor |
| Designer.Drawer.ZoomIn | src/components/designer/drawer.ts:29-32 | the log and anchor are kept; the context is the replay's with the scale multiplied by 1.1; the surface is cleared and the old drawing redrawn magnified by 1.1 |
| Designer.Drawer.ZoomOut | src/components/designer/drawer.ts:34-37 | the log and anchor are kept; the scale is divided by 1.1 and the old drawing redrawn reduced by 1.1 |
| Designer.Drawer.MoveTo | src/components/designer/drawer.ts:39-43 | appends exactly one moveTo, moves the pen to the target, draws nothing |
| Designer.Drawer.SetThickness | src/components/designer/drawer.ts:45-52 | appends exactly one setThickness, changes only the thickness, draws nothing |
| Designer.Drawer.DrawDoor | src/components/designer/drawer.ts:54-63 | appends exactly one drawDoor, keeps the context and draws the door at the pen |
| Designer.Drawer.DrawBed | src/components/designer/drawer.ts:65-74 | appends exactly one drawBed, keeps the context and draws the bed at the pen |
| Designer.Drawer.DrawWindowHorizontal | src/components/designer/drawer.ts:76-78 | appends one horizontal drawWindow and moves the pen to (x + length, y) |
| Designer.Drawer.DrawWindowVertical | src/components/designer/drawer.ts:80-82 | appends one vertical drawWindow and moves the pen to (x, y + length) |
| Designer.Drawer.DrawWindow | src/components/designer/drawer.ts:84-92 | appends a single drawWindow; the pen advance comes only from the renderer's update |
| Designer.Drawer.DrawLineHorizontal | src/components/designer/drawer.ts:94-102 | a wall to (x + length, y): a drawLine from the pen and a moveTo to its end, pen at the end |
| Designer.Drawer.DrawLineVertical | src/components/designer/drawer.ts:104-112 | a wall to (x, y + length): a drawLine from the pen and a moveTo to its end, pen at the end |
| Designer.Drawer.DrawLineTo | src/components/designer/drawer.ts:114-123 | appends exactly drawLine(pen, target, thickness) then moveTo(target); the thickness defaults to the pen's at call time; pen ends at the target |
| Designer.Drawer.DrawLine | src/components/designer/drawer.ts:125-138 | appends exactly one drawLine, keeps the context and draws the line |
| Designer.Drawer.RunCommand | src/components/designer/drawer.ts:140-154 | the context becomes the registry dispatch's and the dispatch's operations are drawn; the log is untouched |
| Designer.Drawer.AddCommand | src/components/designer/drawer.ts:254-257 | the log grows by exactly the command, which is run at once |
| Designer.Drawer.RedrawScene | src/components/designer/drawer.ts:259-267 | the log is unchanged; the surface is cleared and the whole log run in order from the live context, scale not reset |
| Designer.Drawer.RunCommands | src/components/designer/drawer.ts:264-266 | the loop runs every command of the log in order: the context and drawing are the replay of the log |
| Designer.Drawer.RunNext | src/components/designer/drawer.ts:264-266 | one loop iteration extends the replayed prefix by one command |
| Designer.Drawer.OnKeyDown | src/components/designer/drawer.ts:167-172 | Escape redraws the scene and clears the anchor; any other key changes nothing; the log never changes |
| Designer.Drawer.OnClick | src/components/designer/drawer.ts:174-177 | a click redraws the scene, draws the cross and replaces the anchor with the clicked point; the log is unchanged |
| Designer.Drawer.OnMouseMove | src/components/designer/drawer.ts:179-186 | with no anchor nothing happens; with one, the scene, the cross and the guide to the cursor are drawn; the log and anchor are unchanged |
| Designer.Drawer.DisplayDistance | src/components/designer/drawer.ts:188-219 | redraws the scene, then the cross at the anchor, then the dashed guide and its label |
| Designer.Drawer.DrawGuide | src/components/designer/drawer.ts:197-217 | draws the dashed red guide between the two scene points and the label at its offset midpoint |
| Designer.Drawer.SetCrossPoint | src/components/designer/drawer.ts:228-232 | draws the cross and makes the point the anchor; log and context unchanged |
| Designer.Drawer.DrawCrossPoint | src/components/designer/drawer.ts:234-248 | draws the red cross with arms of 10 round the point |
| Designer.Drawer.ResetCrossPoint | src/components/designer/drawer.ts:250-252 | clears the anchor; log and context unchanged |
| DrawerFactory.InitContext | src/components/designer/drawer-factory.ts:11-27 | the scale is the smaller canvas-to-scene ratio, the base is (1000, 1000), the pen starts at the base, thick |
| DrawerFactory.SceneFitsCanvas | src/components/designer/drawer-factory.ts:12-16 | the 10 000 by 10 000 scene fits the canvas on both axes, exactly fills one of them, and the scale is positive for a canvas with area |
| DrawerFactory.WorldOriginIsInset | src/components/designer/drawer-factory.ts:12-17 | the world origin lands a tenth of the scene in from the top-left corner |
| DrawerFactory.Build | src/components/designer/drawer-factory.ts:7-9 | the new drawer draws on the given canvas, starts from the fitted context, and has an empty log and no anchor |
| Monolith.MonoStep | index.ts:231-263 | the switch keeps base and scale; only moveTo moves the pen and only setThickness changes the thickness |
| Monolith.Prelude | index.ts:117-119 | the constructor's log is a moveTo followed by a setThickness |
| Monolith.SwitchDrawsAsRegistry | index.ts:231-390 | the switch draws every command exactly as the registry's renderer for its tag does |
| Monolith.SwitchMovesAsRegistryExceptWindows | index.ts:306-328 | the switch updates the pen as the registry does except for a window, which leaves the pen; for a non-zero length the two differ |
| Monolith.WindowPairMatchesRegistryWindow | index.ts:169-183 | the window builder's drawWindow plus moveTo, run by the switch, ends and draws as the registry's single window command |
| Monolith.MonoLog | index.ts:169-183 | the monolith's log for the same builder calls is the registry's log lengthened by exactly one command per window |
| Monolith.MonoLogSnoc | index.ts:169-183 | one more builder call appends a window followed by a moveTo to its far end, measured from where the earlier calls left the pen, and appends any other command as it is |
| Monolith.MonoStepOps | index.ts:231-390 | what the switch draws for one command: the run*Command renderer of its tag, nothing for moveTo, setThickness or an unhandled tag; `SwitchDrawsAsRegistry` ties it to the registry |
| Monolith.MonoFold | index.ts:519-525 | the pen fields after the redraw loop runs the log from a state; `MonoFoldKeepsView` and `MonoFoldConcat` state its properties |
| Monolith.MonoTrace | index.ts:519-525 | everything the redraw loop draws; `MonolithAgreesWithRegistry` ties it to the registry's `Trace` |
| Monolith.MonoLogConcat | index.ts:169-183 | translating two logs in a row is translating each, with the pen carried over |
| Monolith.MonoLogWithoutWindows | index.ts:169-183 | without windows both versions record the same log |
| Monolith.MonoFoldSnoc | index.ts:514-517 | appending a command and running it at once agrees with replaying the longer log |
| Monolith.MonoFoldConcat | index.ts:519-525 | running two logs in turn is running their concatenation |
| Monolith.MonolithAgreesWithRegistry | index.ts:231-390 | on the logs their builders record, the monolith ends in the registry's context and draws the registry's scene |
| Monolith.MonoFoldKeepsView | index.ts:231-263 | no command of the monolith changes the base or the scale |
| Monolith.PreludeForgetsStart | index.ts:117-119 | after the prelude, a run no longer depends on the pen or thickness it started from |
| Monolith.MonoReplayIsIdempotent | index.ts:519-525 | replaying a log that starts with the prelude ends in the state it produced and redraws the same scene |
| Monolith.Drawer.constructor | index.ts:117-122 | records moveTo(base) then setThickness(thick); the pen is at the base, thick; nothing is drawn |
| Monolith.Drawer.MoveTo | index.ts:124-128 | appends one moveTo and moves the pen; the log still starts with the prelude and matches the pen |
| Monolith.Drawer.SetThickness | index.ts:130-137 | appends one setThickness and changes only the thickness |
| Monolith.Drawer.DrawDoor | index.ts:139-148 | appends one drawDoor, keeps pen and thickness, draws the door |
| Monolith.Drawer.DrawBed | index.ts:150-159 | appends one drawBed, keeps pen and thickness, draws the bed |
| Monolith.Drawer.DrawWindowHorizontal | index.ts:161-163 | appends drawWindow then moveTo(x + length, y) and the pen ends there |
| Monolith.Drawer.DrawWindowVertical | index.ts:165-167 | appends drawWindow then moveTo(x, y + length) and the pen ends there |
| Monolith.Drawer.DrawWindow | index.ts:169-183 | appends drawWindow then a moveTo to the window's far end; the pen ends there, thickness kept |
| Monolith.Drawer.DrawLineHorizontal | index.ts:185-193 | a wall to (x + length, y) recorded as drawLine plus moveTo |
| Monolith.Drawer.DrawLineVertical | index.ts:195-203 | a wall to (x, y + length) recorded as drawLine plus moveTo |
| Monolith.Drawer.DrawLineTo | index.ts:205-214 | appends drawLine(pen, target, thickness) then moveTo(target), storing the explicit start so replay does not depend on the pen |
| Monolith.Drawer.DrawLine | index.ts:216-229 | appends one drawLine, keeps pen and thickness, draws the line |
| Monolith.Drawer.RunCommand | index.ts:231-255 | the pen fields follow the switch and its operations are drawn; an unhandled tag changes nothing |
| Monolith.Drawer.AddCommand | index.ts:514-517 | the log grows by exactly the command, which is run at once |
| Monolith.Drawer.AddCommandKeepingValid | index.ts:514-517 | adding a command keeps the log starting with the prelude and the pen where the log puts it |
| Monolith.Drawer.RedrawScene | index.ts:519-525 | the log, pen and thickness are as before the redraw; the surface is cleared and the log's scene drawn again |
| Monolith.Drawer.RunCommands | index.ts:522-524 | the loop runs every command of the log in order from the current pen |
| Monolith.Drawer.RunNext | index.ts:522-524 | one loop iteration extends the replayed prefix by one command |
| Monolith.Drawer.OnKeyDown | index.ts:427-432 | Escape redraws and clears the anchor; other keys change nothing; the log and pen never change |
| Monolith.Drawer.OnClick | index.ts:434-437 | a click redraws, draws the cross and replaces the anchor; the log and pen are unchanged |
| Monolith.Drawer.OnMouseMove | index.ts:439-446 | with an anchor the scene, cross and guide are drawn; without one nothing happens; the log is unchanged |
| Monolith.Drawer.DrawCrossPoint | index.ts:494-508 | draws the red cross round the point |
| Monolith.Drawer.DrawGuide | index.ts:457-477 | draws the dashed red guide and its label |
| Sketch.WallsClose | src/index.ts:294-302 | after the walls the pen is back at the world origin, wherever it started |
| Sketch.SketchEndsAtBedCorner | src/index.ts:294-321 | after the whole script the pen is at (800, 0): the door, bed and wardrobe lines do not move it |
| Sketch.MonoSketchIsTranslation | index.ts:528-558 | the monolith's log for the script is the registry log with a moveTo after each window |
| Sketch.TranslateWithoutWindows | index.ts:169-183 | appending commands without windows appends them unchanged to the monolith's log |
| Sketch.TranslateWindow | index.ts:169-183 | appending a window after a moveTo appends the window and a moveTo to its far end |
| Sketch.RegistryScript | src/index.ts:291-321 | the script records the sketch's 22 commands and leaves the fitted context with the pen at (800, 0) |
| Sketch.RegistryWalls | src/index.ts:294-302 | the wall calls record the walls' log and leave the pen at the origin |
| Sketch.RegistryFurniture | src/index.ts:304-321 | the door, bed and wardrobe calls record their log and leave the pen at (800, 0) |
| Sketch.MonolithScript | index.ts:528-558 | the monolith's script records the prelude and the sketch's 24 commands, pen at (800, 0), thick |
| Sketch.MonolithWalls | index.ts:530-538 | the monolith's wall calls record the walls with a moveTo after each window |
| Sketch.MonolithFurniture | index.ts:540-558 | the monolith's door, bed and wardrobe calls record the same log as the registry's |
| Sketch.BothVersionsDrawTheSameSketch | index.ts:528-558 | on any canvas both versions' logs for the script replay to the same scene and the same context, pen at (800, 0) |

## Left out

- The DOM layer is not part of this model: event-listener wiring, the shadow-DOM component, the toolbars and the event emitter. A key, click or cursor position reaches the model as a parameter already in scene coordinates, so `getScenePointFromMouseEvent` is not modelled.
- The text of the distance label is not modelled. It needs `Math.sqrt`, `scaleSceneLengthToWorldLength` and `Intl.NumberFormat`; only the label's position is.
- Designer.Drawer.DrawGuide, Monolith.Drawer.DrawGuide: the font and the `[5, 3]` dash pattern are reduced to a dashed/solid flag.
- DoorDrawer.Draw: a negative door width is drawn with a negative arc radius. A canvas `arc()` throws on a negative radius. So in the source the leaf's moveTo and lineTo reach the path, while `stroke` and `closePath` never do. The model has no exceptions: its trace always ends with the arc, stroke and closePath.
- Designer.Drawer.DrawDoor: for a negative width the source pushes the command, then throws when the door is drawn, which aborts the rest of the builder chain. Every later `redrawScene` then stops at that door, so Escape no longer clears the anchor and a click no longer sets one. The model returns normally, with the door drawn as for any width, and its redraws run to the end of the log.
- Monolith.Drawer.DrawDoor: the same gap as `Designer.Drawer.DrawDoor`. The monolith's inline door code throws in `arc()` for a negative width after the push, and the model returns normally.
- Colour and style strings are reduced to three colours. The door arc's angles `Math.PI` and `Math.PI / 2` are symbolic values.
- `console.info` and `console.error` output is left out. The unhandled-tag branch is modelled as changing nothing.
- Coordinates and scales are mathematical reals, not IEEE doubles, so rounding is not modelled. In particular, zooming in and then out restores the scale exactly in the model, which a double may not.
- Projection.ScaleSceneLengthToWorldLength: requires a non-zero scale. A zero scale gives Infinity or NaN in the source, which reals cannot express.
- The builders' return of `this` for chaining is left out. A chain of calls is a sequence of method calls.
- The monolith's own factory, with `window.innerWidth` and `innerHeight`, is not modelled. The monolith's script is modelled from the base and scale `DrawerFactory.InitContext` computes, which are the same expressions.
- The canvas size is a parameter of `Surface.Canvas`. The entry points' resizing of the canvas to the window is not modelled.
- The earlier registry drawer of `src/index.ts` is modelled by `Designer.Drawer`. Its lines match the later file's apart from zoom, so it has no separate class.
