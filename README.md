# Server-house portfolio: renderers, room canvas, tour and navigation

This project models the interactive core of a React/TypeScript portfolio
site, "the server house", in Dafny:

- **The Canvas 2D renderer** (`Canvas2D`, `Canvas2DRack`, `Canvas2DFlow`,
  `Canvas2DParticles`, from `src/utils/canvas2d.ts`). The context is a log
  of the calls the renderer makes on it. A small interpreter, `Paint`,
  gives that log a meaning: the dots, rectangles and strokes left on the
  canvas. A server rack is proved to paint its frame, its eight units,
  24 LEDs, 32 ventilation lines and, when active, its power bar. A data
  flow paints one stroke along a polyline that never shrinks as the
  progress grows. A particle frame paints one dot per particle and keeps
  exactly the particles with more than one frame of life left. `Paint`
  follows the context's own rules for odd values: the `globalAlpha`
  setter ignores an alpha outside [0, 1] or not finite, `arc` does nothing
  with an infinite radius and throws on a negative one. A particle whose
  `life` and `maxLife` have opposite signs therefore stops the frame with
  an IndexSizeError; particles whose life lies in [0, maxLife] paint dots
  fading with `life / maxLife`, and a frame keeps them in that range.
- **The WebGL2 renderer** (`WebGL`, `Mesh`, `CubeTables`, from
  `src/utils/webgl2.ts`). The context is again a call log. GPU objects are
  numbered, so what the log creates, deletes and leaves live is a function
  of it. The model proves:
  - the shader and program build, with each of its failure paths;
  - the uniforms each frame leaves behind;
  - the cube mesh and the three matrices.
  - `destroy` does not delete the four buffers `renderServerRoom` creates
    on every frame: they are never recorded, so they outlive the renderer.
- **The `CanvasRenderer` component** (`CanvasRendererComponent`, from
  `src/components/CanvasRenderer.tsx`).
  - Renderer selection: WebGL2 first when `use3D` is set, otherwise, or
    after a failure, Canvas 2D. When the WebGL2 context was granted but
    its shaders failed, the canvas is already bound to WebGL2 and the 2D
    fallback cannot get a context; the model proves this case ends with
    no renderer.
  - The animation loop over `requestAnimationFrame`, with at most one
    frame pending at a time.
  - The six room layouts drawn on the 2D canvas.
  - The effects' cleanups, resizing and prop changes.
- **The 3D environment** (`HypercubePalace`, `ThreeEnvironment`, from
  `src/components/ThreeEnvironment_rebuilt.tsx`).
  - The tesseract's vertex and edge tables are shown to be the 4-cube:
    every edge joins vertices that differ in one coordinate, every vertex
    has degree four, and no edge appears twice.
  - The guided tour is a small state machine, and the camera controls
    are locked while it runs.
- **The robot guide** (`RobotGuideComponent`, from
  `src/components/RobotGuide.tsx`). Its speech bubble, message cycling,
  typing timeouts and Return Home button.
- **The `Portfolio3D` page** (`Portfolio3DComponent`, from
  `src/components/Portfolio3D.tsx`). The rooms table, room selection, the
  two-phase walk to a room and back home, the room modal and the loading
  overlay.

Browser concepts become explicit state:
- the canvas element and its context mode (`Dom`), following the HTML
  rule that a canvas bound to one context kind returns null for another;
- the `width` and `height` attributes, which store the assigned number
  truncated to a whole `unsigned long` (Web IDL) and fall back to their
  defaults above 2^31 - 1 (HTML reflection);
- pending animation frames and timers, which are fields, with each firing
  a method call;
- the clock and `devicePixelRatio`, which are parameters.

## Model

| member | source | states |
|---|---|---|
| Dom.DeviceScale | src/utils/canvas2d.ts:17 | `devicePixelRatio \|\| 1`: never 0, and the ratio itself whenever it is non-zero |
| Dom.ToUnsignedLong | src/utils/canvas2d.ts:20-21 | the Web IDL conversion of the assigned number to `unsigned long`: below 2^32, and the floor of any value in [0, 2^32) |
| Dom.AttributeValue | src/utils/canvas2d.ts:20-21 | the stored `width`/`height`: at most 2^31 - 1; the floor of the assigned `rect.width * dpr` when that is in [0, 2^31); the attribute default for values in [2^31, 2^32) |
| Dom.Canvas.GetContext | src/utils/canvas2d.ts:8 | `getContext(kind)` returns a context exactly when the canvas grants that kind, and then binds the canvas to it; otherwise the canvas is unchanged |
| Base.Floor | src/utils/canvas2d.ts:88 | `Math.floor`: the greatest integer not above the argument |
| Base.JsMod | src/components/CanvasRenderer.tsx:109 | JavaScript `%` truncates: the result lies in [0, b) for a non-negative dividend and in (-b, 0] for a negative one |
| Base.JsModPeriodic | src/components/CanvasRenderer.tsx:109 | on non-negative dividends `%` repeats with period `b` |
| Base.Lerp | src/utils/canvas2d.ts:94-95 | the interpolated point is the start at fraction 0 and the end at fraction 1 |
| Canvas2D.NewCanvas2DRenderer | src/utils/canvas2d.ts:6-14 | the constructor succeeds exactly when the canvas grants a 2D context; then the renderer has run `setupCanvas` and the canvas holds the truncated backing size, otherwise it fails with the 2D-context error and leaves the canvas unchanged |
| Canvas2D.Canvas2DRenderer.Bind | src/utils/canvas2d.ts:12-13 | a new renderer on a 2D-bound canvas: no frame, nothing cancelled, the backing store sized to the bounding box times the device scale as the attributes store it (`BackingWidth`/`BackingHeight`), the log the setup calls |
| Canvas2D.Canvas2DRenderer.SetupCanvas | src/utils/canvas2d.ts:16-26 | backing store = `getBoundingClientRect()` size times the device scale, truncated as the `width`/`height` attributes store it; the context is reset by the resize and then scaled once, so scales never compound |
| Canvas2D.Canvas2DRenderer.Resize | src/utils/canvas2d.ts:183-185 | the same effect as `setupCanvas`: the truncated backing size and the setup calls |
| Canvas2D.Canvas2DRenderer.DrawServerRack | src/utils/canvas2d.ts:29-70 | appends exactly the rack's calls: frame, eight units, power bar when active |
| Canvas2D.Canvas2DRenderer.DrawUnit | src/utils/canvas2d.ts:39-62 | one unit: background, three LEDs, four ventilation lines |
| Canvas2D.Canvas2DRenderer.DrawDataFlow | src/utils/canvas2d.ts:73-104 | appends nothing for fewer than two points, otherwise the style calls, the drawn path and the stroke |
| Canvas2D.Canvas2DRenderer.DrawFlowSegments | src/utils/canvas2d.ts:91-100 | the segment loop emits one `lineTo` for every vertex of the drawn path after the first |
| Canvas2D.FlowStepsMatchPath | src/utils/canvas2d.ts:91-100 | the loop's vertices (whole segments, then the interpolated point) are the drawn path without its first point |
| Canvas2D.PathAt | src/utils/canvas2d.ts:86-100 | a drawn path starts at `points[0]` and has between 1 and `points.length` vertices |
| Canvas2D.DrawnPath | src/utils/canvas2d.ts:86-100 | the path drawn for a progress value starts at `points[0]` and has at most `points.length` vertices |
| Canvas2D.Canvas2DRenderer.AnimateParticles | src/utils/canvas2d.ts:147-177 | succeeds exactly when no particle's arc throws; then every particle moves by its velocity and loses one life in place, the result is the filter of the moved particles by positive life, and the log gains each particle's draw calls, then the alpha reset; otherwise it fails with IndexSizeError, the particles before the throwing one are moved, the rest untouched, and the log ends with the throwing particle's calls before `arc`, with no alpha reset |
| Canvas2D.Canvas2DRenderer.AdvanceParticles | src/utils/canvas2d.ts:158-171 | the `forEach` loop: in array order, each particle is drawn and then moved and aged in place, until the first particle whose arc throws; it returns that particle's index (or the length), and only the particles before it are moved |
| Canvas2D.FirstThrowIsFirst | src/utils/canvas2d.ts:158-164 | the number of particles drawn before an arc throws: no particle before it throws, and the one at it does |
| Canvas2D.Canvas2DRenderer.LiveParticles | src/utils/canvas2d.ts:176 | the `filter` loop keeps, in order, exactly the particles with positive life |
| Canvas2D.Advance | src/utils/canvas2d.ts:167-170 | one particle step: position plus velocity, life minus one, everything else kept |
| Canvas2D.AdvanceAll | src/utils/canvas2d.ts:158-171 | the step applied to every particle, order and count kept |
| Canvas2D.Canvas2DRenderer.DrawCircuitBoard | src/utils/canvas2d.ts:107-144 | one opaque circuit-pattern entry for the random pattern |
| Canvas2D.Canvas2DRenderer.Clear | src/utils/canvas2d.ts:179-181 | clears the whole backing store |
| Canvas2D.Canvas2DRenderer.Destroy | src/utils/canvas2d.ts:187-191 | cancels the frame id exactly when one is set and truthy |
| Canvas2D.LedColors | src/utils/canvas2d.ts:46 | three LED colours per unit |
| Canvas2DRack.RackPaint | src/utils/canvas2d.ts:29-70 | a rack paints its frame, the eight slot backgrounds and, when active, the power bar as rectangles; three LEDs per slot as dots; four vent lines per slot as strokes; nothing else |
| Canvas2DRack.RackLeds | src/utils/canvas2d.ts:45-52 | 24 LED dots; LED k of slot i is at `(x+15+8k, slot top + half a slot)`; all gray when idle, green/amber/red per slot when active |
| Canvas2DRack.RackVents | src/utils/canvas2d.ts:54-62 | 32 vertical vent strokes; line j of slot i at `x+width-30+5j`, 3 px inside the slot, 1 px wide |
| Canvas2DRack.RackRects | src/utils/canvas2d.ts:32-69 | 9 rectangles when idle and 10 when active: the frame, the slot backgrounds in order, then the power bar |
| Canvas2DRack.LedPaint | src/utils/canvas2d.ts:47-51 | one LED's calls paint a single filled dot in its colour |
| Canvas2DRack.VentPaint | src/utils/canvas2d.ts:57-62 | one vent line's calls paint a single stroked segment |
| Canvas2DRack.SlotPaint | src/utils/canvas2d.ts:39-62 | one server unit paints its background, its three LEDs and its four vents |
| Canvas2DFlow.FlowPaint | src/utils/canvas2d.ts:73-104 | a data flow paints nothing with fewer than two points; otherwise exactly one 2-px stroke in its colour along the drawn path, leaving the shadow blur at 0 |
| Canvas2DFlow.FlowFractionRange | src/utils/canvas2d.ts:86-89 | the segment fraction is in [0, 1), and the index plus the fraction is `progress * (n-1)` |
| Canvas2DFlow.DrawnPathAtStart | src/utils/canvas2d.ts:86-100 | progress at or below 0 draws only the first point |
| Canvas2DFlow.DrawnPathAtEnd | src/utils/canvas2d.ts:86-100 | progress at or above 1 draws the whole polyline |
| Canvas2DFlow.FlowIndexMonotone | src/utils/canvas2d.ts:87-89 | more progress gives at least as many whole segments, and at least the same fraction when the index is the same |
| Canvas2DFlow.DrawnPathMonotone | src/utils/canvas2d.ts:86-100 | more progress never draws less: the shorter path is a prefix of the longer, up to its last, partly drawn, vertex |
| Canvas2DParticles.ParticlePaint | src/utils/canvas2d.ts:159-165 | one particle paints one dot at its position with radius `2·life/maxLife`, in the alpha `life/maxLife` when the setter accepts it and the previous alpha otherwise; with a zero `maxLife` the arc is skipped and no dot is painted |
| Canvas2DParticles.FramePaint | src/utils/canvas2d.ts:156-173 | a completed frame paints exactly `ParticleDots`, one dot per particle with a non-zero `maxLife`, in array order, before the move, nothing else, and leaves the global alpha at 1 |
| Canvas2DParticles.LifeRatioAccepted | src/utils/canvas2d.ts:159-160 | the `globalAlpha` setter accepts `life/maxLife` exactly when `life` lies between 0 and `maxLife` |
| Canvas2DParticles.ArcThrowsSigns | src/utils/canvas2d.ts:164 | the arc throws exactly when `life` and `maxLife` have opposite signs |
| Canvas2DParticles.InRangeNeverThrows | src/utils/canvas2d.ts:158-171 | when every particle's life lies in [0, maxLife] with maxLife > 0, no arc throws and the frame draws them all |
| Canvas2DParticles.InRangeFrameDots | src/utils/canvas2d.ts:159-165 | for such particles each dot has radius `2·life/maxLife` and opacity `life/maxLife`, whatever the alpha was before |
| Canvas2DParticles.SurvivorsInRange | src/utils/canvas2d.ts:168-176 | a frame keeps that range: every particle it returns is in range again, with life left |
| Canvas2DParticles.SurvivorsMembers | src/utils/canvas2d.ts:176 | the filter keeps a particle exactly when its life is positive |
| Canvas2DParticles.FrameSurvivors | src/utils/canvas2d.ts:158-176 | the survivors of a frame are exactly the particles that had more than one life left, moved on, in order |
| WebGL.NewWebGL2Renderer | src/utils/webgl2.ts:9-18 | fails with 'WebGL2 not supported' when no WebGL2 context is granted; otherwise the canvas stays bound, with the truncated backing size, and the result is `initShaders`' error or a renderer with a live program, all ten uniforms and no buffers |
| WebGL.WebGL2Renderer.Bind | src/utils/webgl2.ts:9-16 | a new renderer on a WebGL2-bound canvas: no program, uniforms or buffers; the canvas given the truncated backing size; one viewport call over that whole-number size |
| WebGL.WebGL2Renderer.SetupCanvas | src/utils/webgl2.ts:20-31 | backing store = `getBoundingClientRect()` size times the device scale, truncated as the attributes store it, then a viewport over the stored size |
| WebGL.WebGL2Renderer.CreateShaderObject | src/utils/webgl2.ts:33-47 | a shader comes back exactly when the GPU creates it and it compiles; one that fails to compile is deleted |
| WebGL.FailedShaderReleased | src/utils/webgl2.ts:33-47 | `createShader` leaves a shader live only when it compiled |
| WebGL.WebGL2Renderer.InitShaders | src/utils/webgl2.ts:161-196 | throws exactly the first failure in source order (shaders, program creation, link); on success uses the program and locates all ten uniforms |
| WebGL.WebGL2Renderer.BuildProgram | src/utils/webgl2.ts:168-196 | creates, attaches, links and uses the program, or reports which step failed |
| WebGL.WebGL2Renderer.LocateUniforms | src/utils/webgl2.ts:185-196 | the uniform loop sends one `getUniformLocation` per uniform name, in order, after the log it started from |
| WebGL.InitObjects | src/utils/webgl2.ts:161-196 | `initShaders` leaves live exactly the compiled shaders and the created program, whatever fails later; it deletes only what it created |
| WebGL.InitSucceeds | src/utils/webgl2.ts:161-196 | on success the calls are: two shaders created and compiled, then the program created, attached, linked, used and its uniforms located |
| WebGL.WebGL2Renderer.RenderServerRoom | src/utils/webgl2.ts:264-323 | nothing without a program; otherwise the four buffer uploads, attributes, uniforms and one indexed draw, with four new objects |
| WebGL.FrameObjects | src/utils/webgl2.ts:270-284 | a frame creates exactly its four buffers and deletes nothing |
| WebGL.FrameUniforms | src/utils/webgl2.ts:308-317 | after a frame the shader's activity and room type are the ones that frame was given |
| WebGL.FrameDraws | src/utils/webgl2.ts:320-322 | a frame draws once, as its last call, all 36 indices |
| WebGL.WebGL2Renderer.Clear | src/utils/webgl2.ts:358-361 | clears colour and depth to opaque black |
| WebGL.WebGL2Renderer.Resize | src/utils/webgl2.ts:363-365 | `setupCanvas` again: the truncated backing size and a viewport over it |
| WebGL.WebGL2Renderer.Destroy | src/utils/webgl2.ts:367-380 | cancels a truthy frame id, deletes the recorded buffers and then the program |
| WebGL.DestroyReleases | src/utils/webgl2.ts:367-380 | `destroy` creates nothing and deletes exactly the recorded buffers and the program |
| WebGL.FrameBuffersOutliveDestroy | src/utils/webgl2.ts:270-284 | the buffers a frame creates are never recorded, so after `destroy` all four are still live |
| Mesh.CreateCube | src/utils/webgl2.ts:200-261 | 24 vertices with positions, normals and texture coordinates, and 36 indices |
| Mesh.IndicesWellFormed | src/utils/webgl2.ts:251-258 | every index names one of the 24 vertices; face f's six indices are two triangles over its four corners |
| Mesh.FaceSlices | src/utils/webgl2.ts:206-234 | the flat tables are the six faces' slices end to end |
| Mesh.NormalsPerFace | src/utils/webgl2.ts:221-234 | a face's four normals are one unit axis vector, and no two faces share one |
| Mesh.NormalsDistinct | src/utils/webgl2.ts:221-234 | the six faces have six different normals |
| Mesh.TexCoordsInUnitSquare | src/utils/webgl2.ts:236-249 | every texture coordinate is 0 or 1 |
| Mesh.ModelViewTranslates | src/utils/webgl2.ts:337-345 | the model-view matrix moves points 5 units away along z and does nothing else |
| Mesh.NormalMatrixIsIdentity | src/utils/webgl2.ts:347-356 | the normal matrix is the identity, whatever matrix it is given |
| Mesh.PerspectiveProjects | src/utils/webgl2.ts:325-335 | x and y are scaled by the focal length over the aspect ratio and by the focal length, clip-space w is minus the view depth, and after division by w the near plane lands at depth -1 and the far plane at depth 1 |
| CanvasRendererComponent.MountOutcome | src/components/CanvasRenderer.tsx:29-48 | WebGL2 exactly when `use3D`, the context is granted and the shaders build; 2D without `use3D` exactly when 2D is granted; with `use3D`, 2D exactly when WebGL2 was refused and 2D granted |
| CanvasRendererComponent.ShaderFailureLeavesNoRenderer | src/components/CanvasRenderer.tsx:40-47 | a fresh canvas supporting both contexts, on a GPU that cannot compile a shader, ends with no renderer: the fallback meets a WebGL2-bound canvas |
| CanvasRendererComponent.Construct | src/components/CanvasRenderer.tsx:29-48 | the try/catch yields a renderer exactly as `MountOutcome` says, of that kind, freshly built; the canvas is bound, and given the truncated backing size, exactly when a constructor bound it |
| CanvasRendererComponent.CanvasRenderer.InitRenderer | src/components/CanvasRenderer.tsx:25-48 | without a canvas nothing happens; otherwise the renderer, `isLoaded`, the binding and the truncated backing size follow `MountOutcome`, and a cleanup is registered |
| CanvasRendererComponent.CanvasRenderer.LoadRenderer | src/components/CanvasRenderer.tsx:29-48 | with a canvas: the renderer, `isLoaded`, the canvas binding and its truncated backing size all follow `MountOutcome`; a new renderer is freshly allocated |
| CanvasRendererComponent.CanvasRenderer.DestroyRenderer | src/components/CanvasRenderer.tsx:50-57 | the cleanup destroys the current renderer and leaves no frame pending |
| CanvasRendererComponent.CanvasRenderer.Unmount | src/components/CanvasRenderer.tsx:50-57 | unmounting leaves no frame pending and destroys the renderer when the renderer effect had set one up |
| CanvasRendererComponent.CanvasRenderer.AtMostOneFrame | src/components/CanvasRenderer.tsx:184-193 | at most one frame callback is pending, and it is the one `animationRef` holds |
| CanvasRendererComponent.CanvasRenderer.RequestFrame | src/components/CanvasRenderer.tsx:184 | schedules a new frame with a fresh id and records it |
| CanvasRendererComponent.CanvasRenderer.CancelFrame | src/components/CanvasRenderer.tsx:190-192 | no frame is pending afterwards |
| CanvasRendererComponent.CanvasRenderer.Animate | src/components/CanvasRenderer.tsx:64-185 | one frame at time `(now-startTime)/1000`: a WebGL2 renderer clears and renders the room with activity 1.0 or 0.3; a 2D renderer clears and, while the canvas is attached, draws the board and the room; a new frame is scheduled unless the canvas went away |
| CanvasRendererComponent.CanvasRenderer.FireFrame | src/components/CanvasRenderer.tsx:184 | the pending frame callback runs `animate` |
| CanvasRendererComponent.FrameGL | src/components/CanvasRenderer.tsx:70-73 | a WebGL2 frame starts with the clear calls and draws only when there is a program |
| CanvasRendererComponent.Frame2D | src/components/CanvasRenderer.tsx:74-176 | a 2D frame clears the backing store, then, only while attached, draws the circuit board at density 0.2 and the room's calls |
| CanvasRendererComponent.RenderFrameGL | src/components/CanvasRenderer.tsx:70-73 | the WebGL2 branch appends exactly `FrameGL`, using four object numbers when it draws |
| CanvasRendererComponent.PaintFrame | src/components/CanvasRenderer.tsx:74-176 | the 2D branch appends exactly `Frame2D` |
| CanvasRendererComponent.DrawRoom | src/components/CanvasRenderer.tsx:88-175 | the room switch appends the calls of the room's drawing list |
| CanvasRendererComponent.DrawServerRoom | src/components/CanvasRenderer.tsx:89-99 | four racks, 120 px apart |
| CanvasRendererComponent.DrawDatabaseRoom | src/components/CanvasRenderer.tsx:101-110 | the centred rack, then the blue flow |
| CanvasRendererComponent.DrawLaboratory | src/components/CanvasRenderer.tsx:112-125 | three columns of two racks, column by column |
| CanvasRendererComponent.DrawWarehouse | src/components/CanvasRenderer.tsx:127-132 | three shelves |
| CanvasRendererComponent.DrawHub | src/components/CanvasRenderer.tsx:134-160 | the hub rack, then six nodes, each followed by its line when active |
| CanvasRendererComponent.DrawStatus | src/components/CanvasRenderer.tsx:162-174 | a header, then three columns |
| CanvasRendererComponent.RoomRackCount | src/components/CanvasRenderer.tsx:88-175 | racks per room: 4, 1, 6, 3, 7, 4 for rooms 0-5, none for other room types |
| CanvasRendererComponent.RoomsWithoutFlows | src/components/CanvasRenderer.tsx:88-175 | only the database room and the hub draw data flows |
| CanvasRendererComponent.DatabaseRoomFlow | src/components/CanvasRenderer.tsx:101-110 | one blue flow through three points on the rack's centre line, the middle one at the centre, left to right |
| CanvasRendererComponent.HubRoomRacks | src/components/CanvasRenderer.tsx:134-145 | the hub rack centred on the canvas, node k centred at 150·cos and 100·sin of k·60° from there |
| CanvasRendererComponent.HubRoomLines | src/components/CanvasRenderer.tsx:141-159 | active: six green lines from the hub's centre to each node's centre; idle: none |
| CanvasRendererComponent.ProgressInRange | src/components/CanvasRenderer.tsx:109 | a flow's progress `(t % p)/p` is in [0, 1) once the clock has started |
| CanvasRendererComponent.FlowProgressInRange | src/components/CanvasRenderer.tsx:101-159 | every flow a room draws has progress in [0, 1) |
| CanvasRendererComponent.ProgressPeriodic | src/components/CanvasRenderer.tsx:109 | the progress repeats after one period |
| CanvasRendererComponent.DatabaseFlowPeriodic | src/components/CanvasRenderer.tsx:109 | the database flow repeats every 3 s |
| CanvasRendererComponent.HubFlowPeriodic | src/components/CanvasRenderer.tsx:155 | each hub line repeats every 0.5 s |
| CanvasRendererComponent.CanvasRenderer.StartAnimation | src/components/CanvasRenderer.tsx:60-188 | the loop starts exactly when loaded with a renderer: start time = now, a frame at time 0 drawn and the next scheduled |
| CanvasRendererComponent.CanvasRenderer.StartLoop | src/components/CanvasRenderer.tsx:63-188 | with a renderer: start time = now, the frame at time 0 drawn, and the next frame pending whenever a frame can be drawn |
| CanvasRendererComponent.CanvasRenderer.RerunAnimation | src/components/CanvasRenderer.tsx:60-194 | the animation effect's cleanup, then a restart, as in `StartAnimation` |
| CanvasRendererComponent.CanvasRenderer.ChangeProps | src/components/CanvasRenderer.tsx:194 | a changed room type or activity restarts the loop from time 0; unchanged props change nothing |
| CanvasRendererComponent.CanvasRenderer.HandleResize | src/components/CanvasRenderer.tsx:196-200 | gives the current renderer's canvas the truncated backing size and logs its setup calls; without a renderer nothing changes |
| CanvasRendererComponent.CanvasRenderer.Mount | src/components/CanvasRenderer.tsx:25-188 | after mounting, loaded exactly when attached and `MountOutcome` gives a renderer; then of that kind, with a frame pending |
| CanvasRendererComponent.CanvasRenderer.SwapRenderer | src/components/CanvasRenderer.tsx:25-58 | the renderer effect re-run for a new `use3D`: the old renderer's `destroy` ran and its frame is cancelled; then the renderer, `isLoaded` and the canvas binding follow `MountOutcome` on the binding the canvas had, so when every constructor throws the destroyed renderer stays current and loaded; a new renderer is freshly built |
| CanvasRendererComponent.CanvasRenderer.ChangeUse3D | src/components/CanvasRenderer.tsx:25-58 | as written: toggling `use3D` on a loaded component leaves it loaded with no frame pending |
| CanvasRendererComponent.CanvasRenderer.ChangeUse3DRestarting | src/components/CanvasRenderer.tsx:60-194 | corrected: after a toggle, a loaded component on an attached canvas has a frame pending |
| CanvasRendererComponent.CanvasRenderer.Detach | src/components/CanvasRenderer.tsx:78-79 | the canvas ref is cleared |
| HypercubePalace.VerticesAreSigns | src/components/ThreeEnvironment_rebuilt.tsx:19-26 | 16 vertices, every coordinate ±1, the first eight with w = -1 and the last eight with w = 1 |
| HypercubePalace.VertexFormula | src/components/ThreeEnvironment_rebuilt.tsx:19-26 | vertex i is corner i%4 of its square, with z from bit 2 and w from bit 3 of i |
| HypercubePalace.EdgesByBlock | src/components/ThreeEnvironment_rebuilt.tsx:54-66 | the edge table is the inner cube, the outer cube and eight connecting rungs |
| HypercubePalace.EdgeAt | src/components/ThreeEnvironment_rebuilt.tsx:54-66 | closed form of every edge |
| HypercubePalace.EdgesJoin | src/components/ThreeEnvironment_rebuilt.tsx:54-66 | 32 edges, each joining two vertices that differ in exactly one coordinate |
| HypercubePalace.DegreeFour | src/components/ThreeEnvironment_rebuilt.tsx:54-66 | every vertex ends exactly four edges |
| HypercubePalace.OuterIsInnerShifted | src/components/ThreeEnvironment_rebuilt.tsx:56-65 | outer-cube edges are the inner cube's shifted by 8; the connecting edges are [i, i+8] |
| HypercubePalace.NoDuplicateEdges | src/components/ThreeEnvironment_rebuilt.tsx:54-66 | no two edges join the same two vertices, in either direction |
| ThreeEnvironment.TourVisitsEveryRoom | src/components/ThreeEnvironment_rebuilt.tsx:342-350 | the tour visits the six rooms of the `Portfolio3D` page in table order, then the overview |
| ThreeEnvironment.Tour.StartTour | src/components/ThreeEnvironment_rebuilt.tsx:353-357 | active, step 0, progress 0 |
| ThreeEnvironment.Tour.NextTourStep | src/components/ThreeEnvironment_rebuilt.tsx:359-367 | below the last step: one step on, progress reset; at step 6: tour ends, step 0, progress kept; the step stays in [0, 7) |
| ThreeEnvironment.Tour.EndTour | src/components/ThreeEnvironment_rebuilt.tsx:369-372 | inactive, step 0, progress unchanged |
| ThreeEnvironment.Tour.Controls | src/components/ThreeEnvironment_rebuilt.tsx:404-410 | pan, rotate and zoom are enabled exactly when no tour runs; distance between 5 and 50 |
| ThreeEnvironment.Tour.ShownPanel | src/components/ThreeEnvironment_rebuilt.tsx:417-453 | the start button exactly when no tour runs, otherwise the current waypoint's title and "Step n of 7" with 1 ≤ n ≤ 7 |
| RobotGuideComponent.NextIndex | src/components/RobotGuide.tsx:67-69 | the next message index is `(i + 1) mod 3` and stays in [0, 3) |
| RobotGuideComponent.ContextualMessage | src/components/RobotGuide.tsx:27-38 | moving is checked first ("Accessing…"), then home (the current message), else "Exploring…" |
| RobotGuideComponent.ReturnHomeShownAsWritten | src/components/RobotGuide.tsx:313 | as written: the button shows when idle and neither coordinate is 50 |
| RobotGuideComponent.ReturnHomeMissingOnMidline | src/components/RobotGuide.tsx:313 | at a position with exactly one coordinate 50, such as (50, 20), idle, the bubble says to click 'Return Home', but the as-written button is hidden |
| RobotGuideComponent.ReturnHomeShown | src/components/RobotGuide.tsx:53 | corrected: the button shows exactly when the robot is idle away from home |
| RobotGuideComponent.ReturnHomeMatchesMessage | src/components/RobotGuide.tsx:27-38 | with the corrected rule the button shows exactly when the contextual message tells the user to click it |
| RobotGuideComponent.RobotGuide.ShowEffect | src/components/RobotGuide.tsx:45-59 | moving or unmounted hides the message; idle away shows it at once; idle at home starts the 2 s delay |
| RobotGuideComponent.RobotGuide.StartDelayFires | src/components/RobotGuide.tsx:48-50 | the delay shows the message and starts the 4.5 s interval |
| RobotGuideComponent.RobotGuide.CycleEffect | src/components/RobotGuide.tsx:62-76 | the interval runs exactly while the message is shown at home |
| RobotGuideComponent.RobotGuide.Mount | src/components/RobotGuide.tsx:40-59 | after mounting: the delay pending exactly when idle at home, the message shown when idle away and hidden when moving |
| RobotGuideComponent.RobotGuide.SetProps | src/components/RobotGuide.tsx:45-76 | a render with the same position and `isMoving` changes nothing; a changed one re-runs the effects: the 2 s delay is pending exactly when mounted and idle at home, the interval runs exactly while the message is shown at home, arriving home keeps the message as it was, idle away shows it; moving or unmounted hides it with no timer |
| RobotGuideComponent.RobotGuide.IntervalTick | src/components/RobotGuide.tsx:64-72 | a tick starts typing and queues an advance |
| RobotGuideComponent.RobotGuide.HandleMessageClick | src/components/RobotGuide.tsx:78-88 | acts exactly when the message is shown, not typing and at home: typing starts and an advance is queued; otherwise nothing changes |
| RobotGuideComponent.RobotGuide.ClickDot | src/components/RobotGuide.tsx:274-282 | a click on a drawn dot: when not typing, typing starts and selecting dot k is queued; otherwise nothing changes |
| RobotGuideComponent.RobotGuide.TypingTimeoutFires | src/components/RobotGuide.tsx:66-71 | the oldest timeout advances the index (2 wraps to 0) or sets it to the clicked dot, and typing ends |
| RobotGuideComponent.RobotGuide.Bubble | src/components/RobotGuide.tsx:240-250 | the bubble shows exactly while the message is shown: the current message at home, "Exploring…" elsewhere, never "Accessing…" |
| RobotGuideComponent.RobotGuide.Dots | src/components/RobotGuide.tsx:269-290 | the dots show exactly in a shown bubble at home, with the current message's dot lit |
| Portfolio3DComponent.Find | src/components/Portfolio3D.tsx:70 | `rooms.find` by id: the index of the first room with that id, or none when no room has it |
| Portfolio3DComponent.RoomIdsDistinct | src/components/Portfolio3D.tsx:18-67 | the six room ids are distinct |
| Portfolio3DComponent.FindsEveryRoom | src/components/Portfolio3D.tsx:18-70 | looking up a room's own id finds that room |
| Portfolio3DComponent.RoomNamed | src/components/Portfolio3D.tsx:70 | a room is found exactly when some room has that id, and it is that room |
| Portfolio3DComponent.RenderRoomContent | src/components/Portfolio3D.tsx:95-117 | nothing without a selection or for an unknown id; otherwise the component at the room's own index in the table |
| Portfolio3DComponent.Portfolio3D.HandleRoomClick | src/components/Portfolio3D.tsx:69-82 | an unknown id changes nothing; a known one sets moving and the selection at once and queues the walk to the room's position |
| Portfolio3DComponent.Portfolio3D.NavigateToRoom | src/components/Portfolio3D.tsx:98-104 | the main server core's navigation is `handleRoomClick`, guard included |
| Portfolio3DComponent.Portfolio3D.HandleReturnHome | src/components/Portfolio3D.tsx:84-93 | moving, modal closed and selection cleared at once; the walk home is queued |
| Portfolio3DComponent.Portfolio3D.TimerFires | src/components/Portfolio3D.tsx:77-92 | a walk to a room ends at its position with the content shown; a walk home ends at (50, 50); moving clears |
| Portfolio3DComponent.Portfolio3D.Shown | src/components/Portfolio3D.tsx:132-161 | the loading overlay is up exactly while moving; an open modal shows the selected room's name and component |

## Left out

- Shader sources, the GLSL programs and the GPU's output are not modelled. A GPU is described by which of its steps succeed.
- Floating point is modelled by exact reals. `Math.cos` and `Math.sin` at the hub's multiples of 60° are taken as exact, with `sin 60°` as the nearest double.
- `createPerspectiveMatrix` is modelled with its focal scale `f` as a parameter, since `Math.tan` is not available on reals.
- `drawCircuitBoard` draws a random pattern on every call, so it is one opaque log entry.
- `window.devicePixelRatio` and `Date.now()` are parameters. The element's `getBoundingClientRect()` size and its `clientWidth`/`clientHeight` are fixed fields of the canvas: a layout change is not modelled.
- Console logging is left out.
- `style.width` and `style.height` are left out.
- The winding of the cube's triangles is not modelled.
- Registering and removing the `resize` listener is left out; a resize event is the `HandleResize` call.
- A 2D renderer's `animationId` is never assigned by the source, so `destroy` never cancels anything for it. The model shows this but does not change it.
- The tour waypoints' positions, targets and descriptions are left out; nothing in the component moves the camera to them.
- The 4D rotation and projection and the rest of the three.js scene are left out. These are `project4DTo3D`, the village, the knight and the trees.
- The anime.js animations of the robot guide are left out, and so is the CSS of every component.
- The rooms' own components (MainServerCore and the others) are not part of this model. `renderRoomContent` yields which one is shown.
- React's scheduling is simplified. An effect re-runs when a dependency changes, in declaration order. Timeouts with equal delays fire in the order they were set. `SetProps` runs a robot-guide effect on the final state of the render when one of its dependencies changed.
- Portfolio3DComponent.Portfolio3D.HandleRoomClick, Portfolio3DComponent.Portfolio3D.NavigateToRoom and Portfolio3DComponent.Portfolio3D.HandleReturnHome: each keeps `Valid` only when called while the robot is at rest. The full-screen loading overlay keeps clicks away during a walk. This is a property of the page's layout, which is not modelled.
- CanvasRendererComponent.CanvasRenderer.Animate: the particle branch for active rooms is empty in the source, so nothing is drawn for it.
- Canvas2DRack.RackPaint: says what is painted, not the exact pixels; overlapping marks are kept as a list.

## Findings

| source | as written | input that shows it | evidently intended | confidence | as-written member | corrected member |
|---|---|---|---|---|---|---|
| src/components/RobotGuide.tsx:313 | Return Home shows when `!isMoving && x !== 50 && y !== 50` | a `position` prop with exactly one coordinate equal to 50, e.g. (50, 20), robot idle: the bubble says "Click 'Return Home'" but there is no button; latent, since no page that renders the guide moves the robot to such a position | `x !== 50 \|\| y !== 50`, the away test of line 53 | high; not executed | RobotGuideComponent.ReturnHomeMissingOnMidline | RobotGuideComponent.ReturnHomeMatchesMessage |
| src/components/CanvasRenderer.tsx:194 | the animation effect depends on `[isLoaded, roomType, isActive]`, not on `use3D` | a loaded renderer with a frame pending, then `use3D` toggles: the renderer effect's cleanup cancels the frame, `isLoaded` stays true, and nothing schedules a new frame; latent where `use3D` is passed as a constant | the loop restarts on the new renderer (`use3D` in the dependencies) | high; not executed | CanvasRendererComponent.CanvasRenderer.ChangeUse3D | CanvasRendererComponent.CanvasRenderer.ChangeUse3DRestarting |
