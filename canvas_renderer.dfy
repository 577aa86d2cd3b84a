/** The `CanvasRenderer` component (src/components/CanvasRenderer.tsx):
    it picks a renderer for its canvas (WebGL2 when `use3D` is set, with a
    2D fallback), runs an animation loop of frames and draws, on the 2D
    path, one of six room layouts out of server racks and data-flow lines.

    React's effects and their cleanups become methods; `Date.now()` and
    the device pixel ratio are parameters; `requestAnimationFrame` hands
    out the ids 1, 2, 3, ... in order, and the browser's queue of pending
    frame callbacks is the set `scheduled`. */
module CanvasRendererComponent {
  import opened Base
  import opened Dom
  import opened Canvas2D
  import GL = WebGL
  import Mesh

  // ---------------------------------------------------------------------
  // What one 2D frame draws after the circuit board

  /** A rack's box: `drawServerRack(x, y, width, height, isActive)`. */
  datatype Box = Box(x: real, y: real, width: real, height: real)

  /** The two colours of the data-flow lines. */
  datatype Tint = Blue | Green

  /** The length of a flow's cycle. */
  type Period = r: real | 0.0 < r witness 1.0

  /** A `drawDataFlow(points, progress, color)` call whose progress is the
      fraction of the current period that `clock` has run through. */
  datatype Line = Line(points: seq<Point>, clock: real, period: Period, tint: Tint)

  /** `(clock % period) / period`, with JavaScript's `%`. */
  function Progress(l: Line): real {
    JsMod(l.clock, l.period) / l.period
  }

  /** One drawing call of the room switch. */
  datatype Draw = RackAt(box: Box) | FlowAlong(line: Line)

  function TintColor(tint: Tint): Color {
    if tint == Blue then "#3b82f6" else "#10b981"
  }

  /** sin(60 degrees) as the nearest double. */
  const Sin60: real := 0.8660254037844386

  /** `Math.cos((i / 6) * Math.PI * 2)` for the six hub nodes. */
  function HubCos(i: nat): real {
    if i == 0 then 1.0
    else if i == 1 || i == 5 then 0.5
    else if i == 2 || i == 4 then -0.5
    else -1.0
  }

  /** `Math.sin((i / 6) * Math.PI * 2)` for the six hub nodes. */
  function HubSin(i: nat): real {
    if i == 0 || i == 3 then 0.0
    else if i < 3 then Sin60
    else -Sin60
  }

  function Center(b: Box): Point {
    Point(b.x + b.width / 2.0, b.y + b.height / 2.0)
  }

  /** The context commands of one drawing call. */
  function DrawCommands(d: Draw, active: bool): seq<Command> {
    match d
    case RackAt(b) => RackCommands(b.x, b.y, b.width, b.height, active)
    case FlowAlong(l) => FlowCommands(l.points, Progress(l), TintColor(l.tint))
  }

  function DrawCommandsOf(active: bool): Draw -> seq<Command> {
    d => DrawCommands(d, active)
  }

  /** The context commands of a series of drawing calls, in order. */
  function DrawsCommands(ds: seq<Draw>, active: bool): seq<Command> {
    ConcatMap(ds, DrawCommandsOf(active))
  }

  function RackOf(d: Draw): seq<Box> {
    if d.RackAt? then [d.box] else []
  }

  function LineOf(d: Draw): seq<Line> {
    if d.FlowAlong? then [d.line] else []
  }

  /** The racks among some drawing calls, in order. */
  function Racks(ds: seq<Draw>): seq<Box> {
    ConcatMap(ds, RackOf)
  }

  /** The data-flow lines among some drawing calls, in order. */
  function Flows(ds: seq<Draw>): seq<Line> {
    ConcatMap(ds, LineOf)
  }

  function RackDraw(b: Box): seq<Draw> {
    [RackAt(b)]
  }

  /** One rack call per box. */
  function AsRacks(boxes: seq<Box>): seq<Draw> {
    ConcatMap(boxes, RackDraw)
  }

  // Room 0, the server room: four racks in a row.
  function ServerRoomRacks(height: real, n: nat): seq<Box> {
    if n == 0 then [] else ServerRoomRacks(height, n - 1) + [Box(20.0 + (n - 1) as real * 120.0, 50.0, 100.0, height - 100.0)]
  }

  // Room 1, the database room: one wide rack with a flow across it.
  function DatabaseRack(width: real, height: real): Box {
    Box(width / 2.0 - 75.0, 30.0, 150.0, height - 60.0)
  }

  function DatabaseLine(width: real, height: real, time: real): Line {
    Line([Point(width / 4.0, height / 2.0), Point(width / 2.0, height / 2.0), Point(3.0 * width / 4.0, height / 2.0)],
         time, 3.0, Blue)
  }

  // Room 2, the code laboratory: column i, row j is call 2 * i + j.
  function LabRack(k: nat): Box {
    Box(20.0 + (k / 2) as real * 150.0, 30.0 + (k % 2) as real * 200.0, 120.0, 150.0)
  }

  function LabRacks(n: nat): seq<Box> {
    if n == 0 then [] else LabRacks(n - 1) + [LabRack(n - 1)]
  }

  // Room 3, the project warehouse: three shelves.
  function Shelves(width: real): seq<Box> {
    [Box(50.0, 50.0, width - 100.0, 80.0), Box(50.0, 150.0, width - 100.0, 80.0), Box(50.0, 250.0, width - 100.0, 80.0)]
  }

  // Room 4, the communication hub: a central rack and six nodes round it.
  const NodeCount: nat := 6

  function HubRack(centerX: real, centerY: real): Box {
    Box(centerX - 60.0, centerY - 100.0, 120.0, 200.0)
  }

  function NodeRack(centerX: real, centerY: real, i: nat): Box {
    Box(centerX + HubCos(i) * 150.0 - 30.0, centerY + HubSin(i) * 100.0 - 40.0, 60.0, 80.0)
  }

  function NodeLine(centerX: real, centerY: real, time: real, i: nat): Line {
    var node := NodeRack(centerX, centerY, i);
    Line([Point(centerX, centerY), Point(node.x + 30.0, node.y + 40.0)], time * 2.0 + i as real, 1.0, Green)
  }

  /** The drawing calls of round `i` of the node loop. */
  function NodeDraws(centerX: real, centerY: real, active: bool, time: real, i: nat): seq<Draw> {
    [RackAt(NodeRack(centerX, centerY, i))] + (if active then [FlowAlong(NodeLine(centerX, centerY, time, i))] else [])
  }

  /** The drawing calls of the first `n` rounds of the node loop. */
  function HubNodes(centerX: real, centerY: real, active: bool, time: real, n: nat): seq<Draw> {
    if n == 0 then [] else HubNodes(centerX, centerY, active, time, n - 1) + NodeDraws(centerX, centerY, active, time, n - 1)
  }

  // Room 5, system status: a header rack and three columns.
  function StatusHeader(width: real): Box {
    Box(20.0, 20.0, width - 40.0, 60.0)
  }

  function StatusColumns(width: real, height: real, n: nat): seq<Box> {
    if n == 0 then []
    else StatusColumns(width, height, n - 1)
         + [Box(20.0 + (n - 1) as real * ((width - 80.0) / 3.0), 100.0, (width - 80.0) / 3.0 - 10.0, height - 140.0)]
  }

  /** How many racks the server room, the laboratory and the status
      room's column loop draw. */
  const ServerRackCount: nat := 4
  const LabRackCount: nat := 6
  const StatusColumnCount: nat := 3

  function ServerRoom(height: real): seq<Draw> {
    AsRacks(ServerRoomRacks(height, ServerRackCount))
  }

  function DatabaseRoom(width: real, height: real, time: real): seq<Draw> {
    [RackAt(DatabaseRack(width, height)), FlowAlong(DatabaseLine(width, height, time))]
  }

  function Laboratory(): seq<Draw> {
    AsRacks(LabRacks(LabRackCount))
  }

  function Warehouse(width: real): seq<Draw> {
    AsRacks(Shelves(width))
  }

  function HubRoom(active: bool, width: real, height: real, time: real): seq<Draw> {
    [RackAt(HubRack(width / 2.0, height / 2.0))] + HubNodes(width / 2.0, height / 2.0, active, time, NodeCount)
  }

  function StatusRoom(width: real, height: real): seq<Draw> {
    AsRacks([StatusHeader(width)] + StatusColumns(width, height, StatusColumnCount))
  }

  /** The drawing calls of the `switch (roomType)` for a canvas of CSS size
      `width` x `height` at `time` seconds; any other room type draws
      nothing. */
  function RoomDraws(roomType: int, active: bool, width: real, height: real, time: real): seq<Draw> {
    if roomType == 0 then ServerRoom(height)
    else if roomType == 1 then DatabaseRoom(width, height, time)
    else if roomType == 2 then Laboratory()
    else if roomType == 3 then Warehouse(width)
    else if roomType == 4 then HubRoom(active, width, height, time)
    else if roomType == 5 then StatusRoom(width, height)
    else []
  }

  /** How many racks each room shows. */
  function ExpectedRacks(roomType: int): nat {
    if roomType == 0 then 4
    else if roomType == 1 then 1
    else if roomType == 2 then 6
    else if roomType == 3 then 3
    else if roomType == 4 then 7
    else if roomType == 5 then 4
    else 0
  }

  // ---------------------------------------------------------------------
  // Properties of the room layouts

  /** A series of rack calls shows exactly its boxes and no flow. */
  lemma {:induction false} AsRacksParts(boxes: seq<Box>)
    ensures Racks(AsRacks(boxes)) == boxes && Flows(AsRacks(boxes)) == []
    decreases |boxes|
  {
    if boxes != [] {
      var front := boxes[..|boxes| - 1];
      var last := boxes[|boxes| - 1];
      assert boxes == front + [last];
      ConcatMapAppend(front, [last], RackDraw);
      ConcatMapSingle(last, RackDraw);
      ConcatMapAppend(AsRacks(front), [RackAt(last)], RackOf);
      ConcatMapAppend(AsRacks(front), [RackAt(last)], LineOf);
      ConcatMapSingle(RackAt(last), RackOf);
      ConcatMapSingle(RackAt(last), LineOf);
      AsRacksParts(front);
    }
  }

  lemma {:induction false} ServerRoomSize(height: real, n: nat)
    ensures |ServerRoomRacks(height, n)| == n
  {
    if n > 0 {
      ServerRoomSize(height, n - 1);
    }
  }

  lemma {:induction false} LabSize(n: nat)
    ensures |LabRacks(n)| == n
  {
    if n > 0 {
      LabSize(n - 1);
    }
  }

  lemma {:induction false} StatusSize(width: real, height: real, n: nat)
    ensures |StatusColumns(width, height, n)| == n
  {
    if n > 0 {
      StatusSize(width, height, n - 1);
    }
  }

  /** Round i of the node loop draws node i's rack and, when active, the
      line to it. */
  lemma NodeDrawsParts(centerX: real, centerY: real, active: bool, time: real, i: nat)
    ensures Racks(NodeDraws(centerX, centerY, active, time, i)) == [NodeRack(centerX, centerY, i)]
    ensures Flows(NodeDraws(centerX, centerY, active, time, i))
            == if active then [NodeLine(centerX, centerY, time, i)] else []
  {
    var rack := RackAt(NodeRack(centerX, centerY, i));
    ConcatMapSingle(rack, RackOf);
    ConcatMapSingle(rack, LineOf);
    if active {
      var flow := FlowAlong(NodeLine(centerX, centerY, time, i));
      ConcatMapSingle(flow, RackOf);
      ConcatMapSingle(flow, LineOf);
      ConcatMapAppend([rack], [flow], RackOf);
      ConcatMapAppend([rack], [flow], LineOf);
    } else {
      assert NodeDraws(centerX, centerY, active, time, i) == [rack];
    }
  }

  /** The first `n` rounds of the node loop show rack k for node k. */
  lemma {:induction false} HubNodeRacks(centerX: real, centerY: real, active: bool, time: real, n: nat)
    ensures var racks := Racks(HubNodes(centerX, centerY, active, time, n));
            |racks| == n && forall k :: 0 <= k < n ==> racks[k] == NodeRack(centerX, centerY, k)
  {
    if n > 0 {
      var m := n - 1;
      var prev := HubNodes(centerX, centerY, active, time, m);
      var step := NodeDraws(centerX, centerY, active, time, m);
      HubNodeRacks(centerX, centerY, active, time, m);
      assert HubNodes(centerX, centerY, active, time, n) == prev + step;
      ConcatMapAppend(prev, step, RackOf);
      NodeDrawsParts(centerX, centerY, active, time, m);
      RacksSnoc(Racks(prev), Racks(step), centerX, centerY, m);
    }
  }

  /** The node racks of rounds below `n`, followed by round n's. */
  lemma RacksSnoc(prev: seq<Box>, step: seq<Box>, centerX: real, centerY: real, n: nat)
    requires |prev| == n && forall k :: 0 <= k < n ==> prev[k] == NodeRack(centerX, centerY, k)
    requires step == [NodeRack(centerX, centerY, n)]
    ensures |prev + step| == n + 1
    ensures forall k :: 0 <= k < n + 1 ==> (prev + step)[k] == NodeRack(centerX, centerY, k)
  {
  }

  /** When active, the first `n` rounds draw line k to node k; when idle,
      no line at all. */
  lemma {:induction false} HubNodeLines(centerX: real, centerY: real, active: bool, time: real, n: nat)
    ensures var lines := Flows(HubNodes(centerX, centerY, active, time, n));
            |lines| == (if active then n else 0)
            && forall k :: 0 <= k < |lines| ==> lines[k] == NodeLine(centerX, centerY, time, k)
  {
    if n > 0 {
      HubNodeLines(centerX, centerY, active, time, n - 1);
      ConcatMapAppend(HubNodes(centerX, centerY, active, time, n - 1), NodeDraws(centerX, centerY, active, time, n - 1), LineOf);
      NodeDrawsParts(centerX, centerY, active, time, n - 1);
      LinesSnoc(Flows(HubNodes(centerX, centerY, active, time, n - 1)),
                Flows(NodeDraws(centerX, centerY, active, time, n - 1)), centerX, centerY, active, time, n - 1);
    }
  }

  /** The node lines of rounds below `n`, followed by round n's. */
  lemma LinesSnoc(prev: seq<Line>, step: seq<Line>, centerX: real, centerY: real, active: bool, time: real, n: nat)
    requires |prev| == (if active then n else 0)
    requires forall k :: 0 <= k < |prev| ==> prev[k] == NodeLine(centerX, centerY, time, k)
    requires step == if active then [NodeLine(centerX, centerY, time, n)] else []
    ensures |prev + step| == (if active then n + 1 else 0)
    ensures forall k :: 0 <= k < |prev + step| ==> (prev + step)[k] == NodeLine(centerX, centerY, time, k)
  {
  }


  lemma HubRackParts(active: bool, width: real, height: real, time: real)
    ensures Racks(HubRoom(active, width, height, time))
            == [HubRack(width / 2.0, height / 2.0)] + Racks(HubNodes(width / 2.0, height / 2.0, active, time, NodeCount))
  {
    var hub := RackAt(HubRack(width / 2.0, height / 2.0));
    ConcatMapAppend([hub], HubNodes(width / 2.0, height / 2.0, active, time, NodeCount), RackOf);
    ConcatMapSingle(hub, RackOf);
  }

  lemma HubFlowParts(active: bool, width: real, height: real, time: real)
    ensures Flows(HubRoom(active, width, height, time)) == Flows(HubNodes(width / 2.0, height / 2.0, active, time, NodeCount))
  {
    var hub := RackAt(HubRack(width / 2.0, height / 2.0));
    ConcatMapAppend([hub], HubNodes(width / 2.0, height / 2.0, active, time, NodeCount), LineOf);
    ConcatMapSingle(hub, LineOf);
  }


  lemma DatabaseParts(width: real, height: real, time: real)
    ensures Racks(DatabaseRoom(width, height, time)) == [DatabaseRack(width, height)]
    ensures Flows(DatabaseRoom(width, height, time)) == [DatabaseLine(width, height, time)]
  {
    var rack := RackAt(DatabaseRack(width, height));
    var flow := FlowAlong(DatabaseLine(width, height, time));
    assert DatabaseRoom(width, height, time) == [rack] + [flow];
    ConcatMapAppend([rack], [flow], RackOf);
    ConcatMapAppend([rack], [flow], LineOf);
    ConcatMapSingle(rack, RackOf);
    ConcatMapSingle(rack, LineOf);
    ConcatMapSingle(flow, RackOf);
    ConcatMapSingle(flow, LineOf);
  }

  /** Each room shows its fixed number of racks: four in the server room,
      one in the database room, six in the laboratory, three in the
      warehouse, the hub and six nodes in the hub, a header and three
      columns on the status screen, and none for an unknown room. */
  lemma RoomRackCount(roomType: int, active: bool, width: real, height: real, time: real)
    ensures |Racks(RoomDraws(roomType, active, width, height, time))| == ExpectedRacks(roomType)
  {
    if roomType == 0 {
      AsRacksParts(ServerRoomRacks(height, ServerRackCount));
      ServerRoomSize(height, 4);
    } else if roomType == 1 {
      DatabaseParts(width, height, time);
    } else if roomType == 2 {
      AsRacksParts(LabRacks(LabRackCount));
      LabSize(6);
    } else if roomType == 3 {
      AsRacksParts(Shelves(width));
    } else if roomType == 4 {
      HubRoomRacks(active, width, height, time);
    } else if roomType == 5 {
      AsRacksParts([StatusHeader(width)] + StatusColumns(width, height, StatusColumnCount));
      StatusSize(width, height, 3);
    }
  }

  /** Only the database room and the hub draw data-flow lines. */
  lemma RoomsWithoutFlows(roomType: int, active: bool, width: real, height: real, time: real)
    requires roomType != 1 && roomType != 4
    ensures Flows(RoomDraws(roomType, active, width, height, time)) == []
  {
    if roomType == 0 {
      AsRacksParts(ServerRoomRacks(height, ServerRackCount));
    } else if roomType == 2 {
      AsRacksParts(LabRacks(LabRackCount));
    } else if roomType == 3 {
      AsRacksParts(Shelves(width));
    } else if roomType == 5 {
      AsRacksParts([StatusHeader(width)] + StatusColumns(width, height, StatusColumnCount));
    }
  }

  /** The database room's one flow is blue and runs through three points
      on the horizontal line through the rack's centre, the middle one at
      that centre, left to right on a canvas of positive width. */
  lemma DatabaseRoomFlow(width: real, height: real, time: real)
    ensures var racks := Racks(DatabaseRoom(width, height, time));
            var flows := Flows(DatabaseRoom(width, height, time));
            && |racks| == 1 && |flows| == 1 && |flows[0].points| == 3
            && flows[0].points[1] == Center(racks[0])
            && (forall p :: p in flows[0].points ==> p.y == Center(racks[0]).y)
            && (0.0 < width ==> flows[0].points[0].x < flows[0].points[1].x < flows[0].points[2].x)
            && flows[0].tint == Blue
  {
    DatabaseParts(width, height, time);
  }

  /** The hub room shows the hub's rack, centred on the canvas, then node
      k's rack, centred 150 px across and 100 px down times the cosine and
      sine of k * 60 degrees from there. */
  lemma HubRoomRacks(active: bool, width: real, height: real, time: real)
    ensures var racks := Racks(HubRoom(active, width, height, time));
            && |racks| == 7
            && racks[0] == HubRack(width / 2.0, height / 2.0)
            && Center(racks[0]) == Point(width / 2.0, height / 2.0)
            && (forall k :: 0 <= k < 6 ==>
                  && racks[k + 1] == NodeRack(width / 2.0, height / 2.0, k)
                  && Center(racks[k + 1]) == Point(width / 2.0 + HubCos(k) * 150.0, height / 2.0 + HubSin(k) * 100.0))
  {
    HubRackParts(active, width, height, time);
    HubNodeRacks(width / 2.0, height / 2.0, active, time, NodeCount);
  }

  lemma NodeLineJoinsCentres(centerX: real, centerY: real, time: real, k: nat)
    ensures NodeLine(centerX, centerY, time, k).points
            == [Center(HubRack(centerX, centerY)), Center(NodeRack(centerX, centerY, k))]
  {
  }

  /** An active hub draws six green lines, line k running from the centre
      of the hub's rack to the centre of node k's rack; an idle one draws
      none. */
  lemma HubRoomLines(active: bool, width: real, height: real, time: real)
    ensures var flows := Flows(HubRoom(active, width, height, time));
            && |flows| == (if active then NodeCount else 0)
            && (forall k :: 0 <= k < |flows| ==>
                  && flows[k].points == [Center(HubRack(width / 2.0, height / 2.0)), Center(NodeRack(width / 2.0, height / 2.0, k))]
                  && flows[k].tint == Green)
  {
    var flows := Flows(HubRoom(active, width, height, time));
    HubLines(active, width, height, time);
    forall k | 0 <= k < |flows|
      ensures flows[k].points == [Center(HubRack(width / 2.0, height / 2.0)), Center(NodeRack(width / 2.0, height / 2.0, k))]
    {
      NodeLineJoinsCentres(width / 2.0, height / 2.0, time, k);
    }
  }

  /** A line whose clock has started shows a progress in [0, 1). */
  lemma ProgressInRange(l: Line)
    requires 0.0 <= l.clock
    ensures 0.0 <= Progress(l) < 1.0
  {
    FractionBelowOne(JsMod(l.clock, l.period), l.period);
  }

  lemma FractionBelowOne(m: real, p: real)
    requires 0.0 <= m < p
    ensures 0.0 <= m / p < 1.0
  {
  }

  /** Every flow's progress lies in [0, 1) once the clock has started. */
  lemma FlowProgressInRange(roomType: int, active: bool, width: real, height: real, time: real)
    requires 0.0 <= time
    ensures var flows := Flows(RoomDraws(roomType, active, width, height, time));
            forall k :: 0 <= k < |flows| ==> 0.0 <= Progress(flows[k]) < 1.0
  {
    var flows := Flows(RoomDraws(roomType, active, width, height, time));
    if roomType == 1 {
      DatabaseParts(width, height, time);
      ProgressInRange(flows[0]);
    } else if roomType == 4 {
      HubLines(active, width, height, time);
      forall k | 0 <= k < |flows|
        ensures 0.0 <= Progress(flows[k]) < 1.0
      {
        ProgressInRange(flows[k]);
      }
    } else {
      RoomsWithoutFlows(roomType, active, width, height, time);
    }
  }

  /** Advancing the clock by one period leaves the progress unchanged. */
  lemma ProgressPeriodic(l: Line)
    requires 0.0 <= l.clock
    ensures Progress(l.(clock := l.clock + l.period)) == Progress(l)
  {
    JsModPeriodic(l.clock, l.period);
  }

  /** The database flow repeats every three seconds. */
  lemma DatabaseFlowPeriodic(width: real, height: real, time: real)
    requires 0.0 <= time
    ensures var later := Flows(DatabaseRoom(width, height, time + 3.0));
            var now := Flows(DatabaseRoom(width, height, time));
            |later| == |now| == 1 && later[0].points == now[0].points && Progress(later[0]) == Progress(now[0])
  {
    DatabaseParts(width, height, time);
    DatabaseParts(width, height, time + 3.0);
    ProgressPeriodic(DatabaseLine(width, height, time));
  }

  /** Each hub line repeats every half second. */
  lemma HubFlowPeriodic(active: bool, width: real, height: real, time: real)
    requires 0.0 <= time
    ensures var later := Flows(HubRoom(active, width, height, time + 0.5));
            var now := Flows(HubRoom(active, width, height, time));
            && |later| == |now|
            && forall k :: 0 <= k < |now| ==> later[k].points == now[k].points && Progress(later[k]) == Progress(now[k])
  {
    HubLines(active, width, height, time);
    HubLines(active, width, height, time + 0.5);
    HubLinesPeriodic(Flows(HubRoom(active, width, height, time + 0.5)), Flows(HubRoom(active, width, height, time)),
                     width / 2.0, height / 2.0, time);
  }

  /** The hub room's lines are the node lines, one per node when active. */
  lemma HubLines(active: bool, width: real, height: real, time: real)
    ensures var flows := Flows(HubRoom(active, width, height, time));
            && |flows| == (if active then NodeCount else 0)
            && forall k :: 0 <= k < |flows| ==> flows[k] == NodeLine(width / 2.0, height / 2.0, time, k)
  {
    var centerX, centerY := width / 2.0, height / 2.0;
    HubFlowParts(active, width, height, time);
    HubNodeLines(centerX, centerY, active, time, NodeCount);
    SameNodeLines(Flows(HubRoom(active, width, height, time)), Flows(HubNodes(centerX, centerY, active, time, NodeCount)),
                  centerX, centerY, time, if active then NodeCount else 0);
  }

  /** Lines equal to the first `count` node lines are those node lines. */
  lemma SameNodeLines(flows: seq<Line>, nodes: seq<Line>, centerX: real, centerY: real, time: real, count: nat)
    requires flows == nodes && |nodes| == count
    requires forall k :: 0 <= k < |nodes| ==> nodes[k] == NodeLine(centerX, centerY, time, k)
    ensures |flows| == count && forall k :: 0 <= k < |flows| ==> flows[k] == NodeLine(centerX, centerY, time, k)
  {
  }

  /** Lines that are the node lines at `time + 0.5` and at `time` agree
      in their points and their progress. */
  lemma HubLinesPeriodic(later: seq<Line>, now: seq<Line>, centerX: real, centerY: real, time: real)
    requires 0.0 <= time && |later| == |now|
    requires forall k :: 0 <= k < |later| ==> later[k] == NodeLine(centerX, centerY, time + 0.5, k)
    requires forall k :: 0 <= k < |now| ==> now[k] == NodeLine(centerX, centerY, time, k)
    ensures forall k :: 0 <= k < |now| ==> later[k].points == now[k].points && Progress(later[k]) == Progress(now[k])
  {
    forall k | 0 <= k < |now|
      ensures later[k].points == now[k].points && Progress(later[k]) == Progress(now[k])
    {
      NodeLinePeriodic(centerX, centerY, time, k);
    }
  }

  /** Half a second later, node k's line has the same points and progress. */
  lemma NodeLinePeriodic(centerX: real, centerY: real, time: real, k: nat)
    requires 0.0 <= time
    ensures var now := NodeLine(centerX, centerY, time, k);
            var later := NodeLine(centerX, centerY, time + 0.5, k);
            later.points == now.points && Progress(later) == Progress(now)
  {
    var now := NodeLine(centerX, centerY, time, k);
    assert NodeLine(centerX, centerY, time + 0.5, k) == now.(clock := now.clock + now.period);
    ProgressPeriodic(now);
  }


  // ---------------------------------------------------------------------
  // Drawing a room on a 2D renderer

  lemma DrawsSnoc(ds: seq<Draw>, d: Draw, active: bool)
    ensures DrawsCommands(ds + [d], active) == DrawsCommands(ds, active) + DrawCommands(d, active)
  {
    ConcatMapAppend(ds, [d], DrawCommandsOf(active));
    ConcatMapSingle(d, DrawCommandsOf(active));
  }

  /** One `drawServerRack` call, recorded as the next drawing call. */
  method EmitRack(r: Canvas2DRenderer, ghost start: seq<Command>, ghost done: seq<Draw>, box: Box, active: bool)
    requires r.log == start + DrawsCommands(done, active)
    modifies r`log
    ensures r.log == start + DrawsCommands(done + [RackAt(box)], active)
  {
    r.DrawServerRack(box.x, box.y, box.width, box.height, active);
    DrawsSnoc(done, RackAt(box), active);
    ConcatAssoc(start, DrawsCommands(done, active), RackCommands(box.x, box.y, box.width, box.height, active));
  }

  /** One `drawDataFlow` call, recorded as the next drawing call. */
  method EmitFlow(r: Canvas2DRenderer, ghost start: seq<Command>, ghost done: seq<Draw>, ghost active: bool, line: Line)
    requires r.log == start + DrawsCommands(done, active)
    modifies r`log
    ensures r.log == start + DrawsCommands(done + [FlowAlong(line)], active)
  {
    r.DrawDataFlow(line.points, Progress(line), TintColor(line.tint));
    DrawsSnoc(done, FlowAlong(line), active);
    ConcatAssoc(start, DrawsCommands(done, active), FlowCommands(line.points, Progress(line), TintColor(line.tint)));
  }

  lemma AsRacksSnoc(boxes: seq<Box>, b: Box)
    ensures AsRacks(boxes + [b]) == AsRacks(boxes) + [RackAt(b)]
  {
    ConcatMapAppend(boxes, [b], RackDraw);
    ConcatMapSingle(b, RackDraw);
  }

  lemma NoDraws(log: seq<Command>, active: bool)
    ensures log + DrawsCommands([], active) == log
  {
    assert DrawsCommands([], active) == [];
  }

  /** The `switch (roomType)` of the 2D frame. */
  method DrawRoom(r: Canvas2DRenderer, roomType: int, active: bool, width: real, height: real, time: real)
    modifies r`log
    ensures r.log == old(r.log) + DrawsCommands(RoomDraws(roomType, active, width, height, time), active)
  {
    if roomType == 0 {
      DrawServerRoom(r, active, height);
    } else if roomType == 1 {
      DrawDatabaseRoom(r, active, width, height, time);
    } else if roomType == 2 {
      DrawLaboratory(r, active);
    } else if roomType == 3 {
      DrawWarehouse(r, active, width);
    } else if roomType == 4 {
      DrawHub(r, active, width, height, time);
    } else if roomType == 5 {
      DrawStatus(r, active, width, height);
    } else {
      NoDraws(r.log, active);
    }
  }

  /** Case 0: four racks in a row. */
  method DrawServerRoom(r: Canvas2DRenderer, active: bool, height: real)
    modifies r`log
    ensures r.log == old(r.log) + DrawsCommands(ServerRoom(height), active)
  {
    ghost var start := r.log;
    NoDraws(start, active);
    for i := 0 to 4
      invariant r.log == start + DrawsCommands(AsRacks(ServerRoomRacks(height, i)), active)
    {
      EmitServerRack(r, start, active, height, i);
    }
  }

  /** Round `i` of the server room's loop: rack i, 120 px right of rack i - 1. */
  method EmitServerRack(r: Canvas2DRenderer, ghost start: seq<Command>, active: bool, height: real, i: nat)
    requires r.log == start + DrawsCommands(AsRacks(ServerRoomRacks(height, i)), active)
    modifies r`log
    ensures r.log == start + DrawsCommands(AsRacks(ServerRoomRacks(height, i + 1)), active)
  {
    var box := Box(20.0 + i as real * 120.0, 50.0, 100.0, height - 100.0);
    ghost var before := ServerRoomRacks(height, i);
    var n := i + 1;
    assert n - 1 == i;
    assert ServerRoomRacks(height, n) == before + [box];
    AsRacksSnoc(before, box);
    EmitRack(r, start, AsRacks(before), box, active);
  }

  /** Case 1: the database rack, then the blue flow across it. */
  method DrawDatabaseRoom(r: Canvas2DRenderer, active: bool, width: real, height: real, time: real)
    modifies r`log
    ensures r.log == old(r.log) + DrawsCommands(DatabaseRoom(width, height, time), active)
  {
    ghost var start := r.log;
    NoDraws(start, active);
    var rack := Box(width / 2.0 - 75.0, 30.0, 150.0, height - 60.0);
    EmitRack(r, start, [], rack, active);
    assert [] + [RackAt(rack)] == [RackAt(rack)];
    var dbPoints := [Point(width / 4.0, height / 2.0), Point(width / 2.0, height / 2.0), Point(3.0 * width / 4.0, height / 2.0)];
    EmitFlow(r, start, [RackAt(rack)], active, Line(dbPoints, time, 3.0, Blue));
    assert [RackAt(rack)] + [FlowAlong(Line(dbPoints, time, 3.0, Blue))] == DatabaseRoom(width, height, time);
  }

  lemma LabRackCell(i: nat, j: nat)
    requires j < 2
    ensures LabRack(2 * i + j) == Box(20.0 + i as real * 150.0, 30.0 + j as real * 200.0, 120.0, 150.0)
  {
    assert (2 * i + j) / 2 == i && (2 * i + j) % 2 == j;
  }

  /** Case 2: three columns of two racks; `count` is the number of racks drawn so far. */
  method DrawLaboratory(r: Canvas2DRenderer, active: bool)
    modifies r`log
    ensures r.log == old(r.log) + DrawsCommands(Laboratory(), active)
  {
    ghost var start := r.log;
    ghost var count: nat := 0;
    NoDraws(start, active);
    for i := 0 to 3
      invariant count == 2 * i
      invariant r.log == start + DrawsCommands(AsRacks(LabRacks(count)), active)
    {
      for j := 0 to 2
        invariant count == 2 * i + j
        invariant r.log == start + DrawsCommands(AsRacks(LabRacks(count)), active)
      {
        var box := Box(20.0 + i as real * 150.0, 30.0 + j as real * 200.0, 120.0, 150.0);
        LabRackCell(i, j);
        AsRacksSnoc(LabRacks(count), box);
        EmitRack(r, start, AsRacks(LabRacks(count)), box, active);
        count := count + 1;
      }
    }
  }

  /** Case 3: three shelves. */
  method DrawWarehouse(r: Canvas2DRenderer, active: bool, width: real)
    modifies r`log
    ensures r.log == old(r.log) + DrawsCommands(Warehouse(width), active)
  {
    ghost var start := r.log;
    NoDraws(start, active);
    var top := Box(50.0, 50.0, width - 100.0, 80.0);
    var middle := Box(50.0, 150.0, width - 100.0, 80.0);
    var bottom := Box(50.0, 250.0, width - 100.0, 80.0);
    AsRacksSnoc([], top);
    AsRacksSnoc([top], middle);
    AsRacksSnoc([top, middle], bottom);
    assert AsRacks([]) == [];
    assert [top] + [middle] == [top, middle];
    assert [top, middle] + [bottom] == Shelves(width);
    EmitRack(r, start, AsRacks([]), top, active);
    EmitRack(r, start, AsRacks([top]), middle, active);
    EmitRack(r, start, AsRacks([top, middle]), bottom, active);
  }

  /** Case 4: the hub rack, then six nodes, each with its line when active. */
  method DrawHub(r: Canvas2DRenderer, active: bool, width: real, height: real, time: real)
    modifies r`log
    ensures r.log == old(r.log) + DrawsCommands(HubRoom(active, width, height, time), active)
  {
    ghost var start := r.log;
    NoDraws(start, active);
    var centerX := width / 2.0;
    var centerY := height / 2.0;
    var hub := Box(centerX - 60.0, centerY - 100.0, 120.0, 200.0);
    EmitRack(r, start, [], hub, active);
    for i := 0 to 6
      invariant r.log == start + DrawsCommands([RackAt(hub)] + HubNodes(centerX, centerY, active, time, i), active)
    {
      EmitNode(r, start, [RackAt(hub)] + HubNodes(centerX, centerY, active, time, i), centerX, centerY, active, time, i);
      ConcatAssoc([RackAt(hub)], HubNodes(centerX, centerY, active, time, i), NodeDraws(centerX, centerY, active, time, i));
    }
  }

  /** Round `i` of the hub's node loop: node i's rack and, when active,
      the line to it. */
  method EmitNode(r: Canvas2DRenderer, ghost start: seq<Command>, ghost done: seq<Draw>,
                  centerX: real, centerY: real, active: bool, time: real, i: nat)
    requires r.log == start + DrawsCommands(done, active)
    modifies r`log
    ensures r.log == start + DrawsCommands(done + NodeDraws(centerX, centerY, active, time, i), active)
  {
    var x := centerX + HubCos(i) * 150.0 - 30.0;
    var y := centerY + HubSin(i) * 100.0 - 40.0;
    var rack := Box(x, y, 60.0, 80.0);
    EmitRack(r, start, done, rack, active);
    if active {
      var connectionPoints := [Point(centerX, centerY), Point(x + 30.0, y + 40.0)];
      var line := Line(connectionPoints, time * 2.0 + i as real, 1.0, Green);
      EmitFlow(r, start, done + [RackAt(rack)], active, line);
      ConcatAssoc(done, [RackAt(rack)], [FlowAlong(line)]);
    }
  }

  /** Case 5: a header rack, then three columns. */
  method DrawStatus(r: Canvas2DRenderer, active: bool, width: real, height: real)
    modifies r`log
    ensures r.log == old(r.log) + DrawsCommands(StatusRoom(width, height), active)
  {
    ghost var start := r.log;
    NoDraws(start, active);
    var header := Box(20.0, 20.0, width - 40.0, 60.0);
    AsRacksSnoc([], header);
    assert AsRacks([]) == [];
    EmitRack(r, start, AsRacks([]), header, active);
    for i := 0 to 3
      invariant r.log == start + DrawsCommands(AsRacks([header] + StatusColumns(width, height, i)), active)
    {
      EmitColumn(r, start, header, width, height, active, i);
    }
  }

  /** Round `i` of the status room's column loop. */
  method EmitColumn(r: Canvas2DRenderer, ghost start: seq<Command>, header: Box,
                    width: real, height: real, active: bool, i: nat)
    requires r.log == start + DrawsCommands(AsRacks([header] + StatusColumns(width, height, i)), active)
    modifies r`log
    ensures r.log == start + DrawsCommands(AsRacks([header] + StatusColumns(width, height, i + 1)), active)
  {
    var column := Box(20.0 + i as real * ((width - 80.0) / 3.0), 100.0, (width - 80.0) / 3.0 - 10.0, height - 140.0);
    ghost var before := StatusColumns(width, height, i);
    var n := i + 1;
    assert n - 1 == i;
    assert StatusColumns(width, height, n) == before + [column];
    ConcatAssoc([header], before, [column]);
    AsRacksSnoc([header] + before, column);
    EmitRack(r, start, AsRacks([header] + before), column, active);
  }

  // ---------------------------------------------------------------------
  // Choosing a renderer

  /** What `rendererRef.current` holds. */
  datatype Backend = Draws2D(painter: Canvas2DRenderer) | DrawsGL(gl: GL.WebGL2Renderer)

  function KindOf(b: Backend): ContextKind {
    if b.Draws2D? then TwoD else WebGL2
  }

  /** The kind of renderer the renderer effect ends up with on a canvas of
      the given abilities in context mode `mode`, or None when every
      constructor it tries throws. `new WebGL2Renderer` binds the canvas to
      a WebGL2 context before it builds its shaders, so when the shaders
      fail the 2D fallback asks a canvas that is already bound. */
  function MountOutcome(use3D: bool, supports2D: bool, supportsWebGL2: bool, gpu: Gpu, mode: ContextMode): (r: Option<ContextKind>)
    ensures r == Some(WebGL2) <==> use3D && Granted(WebGL2, supportsWebGL2, mode) && GL.InitFailure(gpu).None?
    ensures !use3D ==> (r == Some(TwoD) <==> Granted(TwoD, supports2D, mode))
    ensures use3D ==> (r == Some(TwoD) <==> !Granted(WebGL2, supportsWebGL2, mode) && Granted(TwoD, supports2D, mode))
  {
    if use3D && Granted(WebGL2, supportsWebGL2, mode) then
      if GL.InitFailure(gpu).None? then Some(WebGL2)
      else if Granted(TwoD, supports2D, Bound(WebGL2)) then Some(TwoD)
      else None
    else if Granted(TwoD, supports2D, mode) then Some(TwoD)
    else None
  }

  /** The fallback never rescues a shader failure: a fresh canvas that
      supports both contexts, on a GPU that cannot compile the fragment
      shader, ends up with no renderer at all. */
  lemma ShaderFailureLeavesNoRenderer()
    ensures MountOutcome(true, true, true, Gpu(true, true, false, true, true), Unbound) == None
  {
    assert GL.InitFailure(Gpu(true, true, false, true, true)) == Some(ShaderCreationFailed);
  }

  /** Whether the renderer effect leaves the canvas bound to a context
    (it may bind WebGL2 and still end up with no renderer). */
  predicate Binds(use3D: bool, supportsWebGL2: bool, mode: ContextMode, outcome: Option<ContextKind>) {
    outcome.Some? || (use3D && Granted(WebGL2, supportsWebGL2, mode))
  }

  /** The canvas's context mode after the renderer effect. */
  function ModeAfter(use3D: bool, supportsWebGL2: bool, mode: ContextMode, outcome: Option<ContextKind>): ContextMode {
    if outcome.Some? then Bound(outcome.value)
    else if Binds(use3D, supportsWebGL2, mode, outcome) then Bound(WebGL2)
    else mode
  }

  /** `setupCanvas` sized the backing store for the device pixel ratio. */
  ghost predicate Sized(canvas: Canvas, devicePixelRatio: real)
    reads canvas
  {
    canvas.width == canvas.BackingWidth(devicePixelRatio)
    && canvas.height == canvas.BackingHeight(devicePixelRatio)
  }

  /** A renderer as its constructor leaves it. */
  ghost predicate Fresh(b: Backend, canvas: Canvas, devicePixelRatio: real)
    reads canvas, if b.Draws2D? then b.painter else b.gl
  {
    match b
    case Draws2D(p) =>
      && p.canvas == canvas && p.log == SetupCommands(devicePixelRatio) && p.animationId == None && p.cancelled == []
    case DrawsGL(g) =>
      && g.canvas == canvas && g.Valid()
      && g.log == [GL.Viewport(canvas.width, canvas.height)] + GL.InitCalls(canvas.gpu, 0)
      && g.program.Some? && g.buffers == [] && g.animationId == None && g.cancelled == []
  }

  /** The renderer's `destroy` ran, and nothing else about it changed. */
  twostate predicate BackendDestroyed(b: Backend)
    reads if b.Draws2D? then b.painter as object else b.gl
  {
    match b
    case Draws2D(p) =>
      && p.log == old(p.log) && p.animationId == old(p.animationId)
      && p.cancelled == old(p.cancelled)
                        + (if p.animationId.Some? && p.animationId.value != 0 then [p.animationId.value] else [])
    case DrawsGL(g) =>
      && g.log == old(g.log) + GL.DestroyCalls(g.buffers, g.program)
      && g.nextHandle == old(g.nextHandle) && g.program == old(g.program)
      && g.uniforms == old(g.uniforms) && g.buffers == old(g.buffers)
      && g.animationId == old(g.animationId)
      && g.cancelled == old(g.cancelled)
                        + (if g.animationId.Some? && g.animationId.value != 0 then [g.animationId.value] else [])
  }

  /** The `try`/`catch` of the renderer effect: WebGL2 first when `use3D`
      is set, then one 2D attempt if it threw; 2D alone otherwise. */
  method Construct(canvas: Canvas, use3D: bool, devicePixelRatio: real) returns (made: Option<Backend>)
    modifies canvas`mode, canvas`width, canvas`height
    ensures var outcome := MountOutcome(use3D, canvas.supports2D, canvas.supportsWebGL2, canvas.gpu, old(canvas.mode));
            && (made.Some? <==> outcome.Some?)
            && (made.Some? ==> KindOf(made.value) == outcome.value)
            && canvas.mode == ModeAfter(use3D, canvas.supportsWebGL2, old(canvas.mode), outcome)
            && (Binds(use3D, canvas.supportsWebGL2, old(canvas.mode), outcome) ==> Sized(canvas, devicePixelRatio))
            && (!Binds(use3D, canvas.supportsWebGL2, old(canvas.mode), outcome) ==> unchanged(canvas))
    ensures made.Some? ==> fresh(if made.value.Draws2D? then made.value.painter as object else made.value.gl)
                           && Fresh(made.value, canvas, devicePixelRatio)
  {
    made := None;
    if use3D {
      var gl := GL.NewWebGL2Renderer(canvas, devicePixelRatio);
      if gl.Success? {
        return Some(DrawsGL(gl.value));
      }
      var fallback := NewCanvas2DRenderer(canvas, devicePixelRatio);
      if fallback.Success? {
        made := Some(Draws2D(fallback.value));
      }
    } else {
      var painter := NewCanvas2DRenderer(canvas, devicePixelRatio);
      if painter.Success? {
        made := Some(Draws2D(painter.value));
      }
    }
  }

  // ---------------------------------------------------------------------
  // What one frame draws

  /** `isActive ? 1.0 : 0.3`. */
  function Activity(isActive: bool): real {
    if isActive then 1.0 else 0.3
  }

  /** `(Date.now() - startTime) / 1000`. */
  function Seconds(now: real, startTime: real): real {
    (now - startTime) / 1000.0
  }

  /** The calls of a WebGL2 frame: `clear`, then `renderServerRoom`, which
      draws only when the renderer has a program. */
  function FrameGL(h: nat, program: Option<nat>, roomType: int, activity: real, time: real, width: real, height: real): (r: seq<GL.GLCall>)
    ensures |r| >= 2 && r[..2] == [GL.ClearColor(0.0, 0.0, 0.0, 1.0), GL.ClearColorAndDepth]
    ensures program.None? <==> |r| == 2
  {
    [GL.ClearColor(0.0, 0.0, 0.0, 1.0), GL.ClearColorAndDepth]
    + (if program.Some? then GL.FrameCalls(h, Mesh.CreateCube(), roomType, activity, time, width, height) else [])
  }

  /** The commands of a 2D frame: `clear`, then, while the canvas is still
      attached, the circuit board at density 0.2 over the element's box and
      the room's layout. */
  function Frame2D(backingWidth: real, backingHeight: real, attached: bool, roomType: int, active: bool,
                   width: real, height: real, time: real): (r: seq<Command>)
    ensures |r| >= 1 && r[0] == ClearRect(0.0, 0.0, backingWidth, backingHeight)
    ensures attached ==> |r| >= 2 && r[1] == CircuitPattern(0.0, 0.0, width, height, 0.2)
                         && r[2..] == DrawsCommands(RoomDraws(roomType, active, width, height, time), active)
    ensures !attached ==> |r| == 1
  {
    [ClearRect(0.0, 0.0, backingWidth, backingHeight)]
    + (if attached then [CircuitPattern(0.0, 0.0, width, height, 0.2)] + DrawsCommands(RoomDraws(roomType, active, width, height, time), active)
       else [])
  }

  /** The WebGL2 branch of `animate`. */
  method RenderFrameGL(g: GL.WebGL2Renderer, roomType: int, activity: real, time: real)
    requires g.Valid()
    modifies g`log, g`nextHandle
    ensures g.log == old(g.log) + FrameGL(old(g.nextHandle), g.program, roomType, activity, time, g.canvas.width, g.canvas.height)
    ensures g.nextHandle == old(g.nextHandle) + (if g.program.Some? then 4 else 0)
    ensures g.Valid()
  {
    g.Clear();
    ghost var cleared := g.log;
    g.RenderServerRoom(roomType, activity, time);
    if g.program.Some? {
      ConcatAssoc(old(g.log), [GL.ClearColor(0.0, 0.0, 0.0, 1.0), GL.ClearColorAndDepth],
                  GL.FrameCalls(old(g.nextHandle), Mesh.CreateCube(), roomType, activity, time, g.canvas.width, g.canvas.height));
    }
  }

  /** The 2D branch of `animate`: `clear`, then, when `canvasRef.current`
      is still set, the circuit board and the room. */
  method PaintFrame(p: Canvas2DRenderer, attached: bool, roomType: int, active: bool, time: real)
    modifies p`log
    ensures p.log == old(p.log) + Frame2D(p.canvas.width, p.canvas.height, attached, roomType, active,
                                          p.canvas.clientWidth as real, p.canvas.clientHeight as real, time)
  {
    p.Clear();
    if !attached {
      return;
    }
    var width := p.canvas.clientWidth as real;
    var height := p.canvas.clientHeight as real;
    p.DrawCircuitBoard(0.0, 0.0, width, height, 0.2);
    DrawRoom(p, roomType, active, width, height, time);
    ghost var clear := [ClearRect(0.0, 0.0, p.canvas.width, p.canvas.height)];
    ghost var board := [CircuitPattern(0.0, 0.0, width, height, 0.2)];
    ghost var room := DrawsCommands(RoomDraws(roomType, active, width, height, time), active);
    ConcatAssoc(old(p.log) + clear, board, room);
    ConcatAssoc(old(p.log), clear, board + room);
  }

  // ---------------------------------------------------------------------
  // The component

  class CanvasRenderer {
    const canvas: Canvas
    /** Whether `canvasRef.current` holds the canvas. */
    var attached: bool
    // The props.
    var use3D: bool
    var roomType: int
    var isActive: bool
    /** `rendererRef.current`. */
    var renderer: Option<Backend>
    var isLoaded: bool
    /** `animationRef.current`. */
    var animationFrame: Option<nat>
    /** The ids of the frame callbacks the browser has pending. */
    var scheduled: set<nat>
    /** The id the next `requestAnimationFrame` returns. */
    var nextFrameId: nat
    /** The `startTime` of the running animation loop. */
    var startTime: real
    /** Whether the renderer effect and the animation effect, on their
        last run, returned a cleanup. */
    var initCleanup: bool
    var loopCleanup: bool

    /** The renderer object, if any. */
    function RendererObjects(): set<object>
      reads this
    {
      if renderer.None? then {}
      else if renderer.value.Draws2D? then {renderer.value.painter}
      else {renderer.value.gl}
    }

    /** At most one frame is pending, and it is the one `animationRef`
        names; a pending frame belongs to a loop the animation effect
        started; a loaded component holds a renderer, and the renderer
        draws on this canvas. */
    ghost predicate Valid()
      reads this, RendererObjects()
    {
      && 1 <= nextFrameId
      && (animationFrame.Some? ==> 1 <= animationFrame.value < nextFrameId)
      && (forall id :: id in scheduled ==> animationFrame == Some(id))
      && (scheduled != {} ==> loopCleanup)
      && (isLoaded ==> renderer.Some?)
      && (renderer.Some? && renderer.value.Draws2D? ==> renderer.value.painter.canvas == canvas)
      && (renderer.Some? && renderer.value.DrawsGL? ==> renderer.value.gl.canvas == canvas && renderer.value.gl.Valid())
    }

    /** Whether a frame callback is pending. */
    predicate FramePending()
      reads this
    {
      animationFrame.Some? && animationFrame.value in scheduled
    }

    /** The component never runs two animation loops at once. */
    lemma AtMostOneFrame()
      requires Valid()
      ensures scheduled == {} || (animationFrame.Some? && scheduled == {animationFrame.value})
    {
      if scheduled != {} {
        var id :| id in scheduled;
        assert animationFrame == Some(id);
        forall other | other in scheduled
          ensures other == id
        {
          assert animationFrame == Some(other);
        }
      }
    }

    /** A new frame was requested, and it is the only one pending. */
    twostate predicate Rescheduled()
      reads this
    {
      animationFrame == Some(old(nextFrameId)) && scheduled == {old(nextFrameId)} && nextFrameId == old(nextFrameId) + 1
    }

    /** No frame is pending and none was requested. */
    twostate predicate Unscheduled()
      reads this
    {
      animationFrame == old(animationFrame) && scheduled == {} && nextFrameId == old(nextFrameId)
    }

    /** The renderer is the same object, and its fields other than its
        log and its object counter keep their values. */
    twostate predicate KeptRendererFields()
      reads this, RendererObjects()
    {
      && renderer == old(renderer)
      && (renderer.Some? && renderer.value.Draws2D? ==>
            var p := renderer.value.painter;
            p.animationId == old(renderer.value.painter.animationId) && p.cancelled == old(renderer.value.painter.cancelled))
      && (renderer.Some? && renderer.value.DrawsGL? ==>
            var g := renderer.value.gl;
            && g.program == old(renderer.value.gl.program) && g.uniforms == old(renderer.value.gl.uniforms)
            && g.buffers == old(renderer.value.gl.buffers)
            && g.animationId == old(renderer.value.gl.animationId) && g.cancelled == old(renderer.value.gl.cancelled))
    }

    /** One run of `animate` at `time` seconds into the loop: what it drew
        and whether it asked for the next frame. */
    twostate predicate FrameDrawn(time: real)
      reads this, canvas, RendererObjects()
    {
      && KeptRendererFields()
      && (renderer.None? ==> Unscheduled())
      && (renderer.Some? && renderer.value.DrawsGL? ==>
            var g := renderer.value.gl;
            var h := old(renderer.value.gl.nextHandle);
            && g.log == old(renderer.value.gl.log) + FrameGL(h, g.program, roomType, Activity(isActive), time, canvas.width, canvas.height)
            && g.nextHandle == h + (if g.program.Some? then 4 else 0)
            && Rescheduled())
      && (renderer.Some? && renderer.value.Draws2D? ==>
            var p := renderer.value.painter;
            && p.log == old(renderer.value.painter.log) + Frame2D(canvas.width, canvas.height, attached, roomType, isActive,
                                                                 canvas.clientWidth as real, canvas.clientHeight as real, time)
            && (if attached then Rescheduled() else Unscheduled()))
    }

    /** The component before its effects first run. */
    constructor (canvas: Canvas, attached: bool, use3D: bool, roomType: int, isActive: bool)
      ensures this.canvas == canvas && this.attached == attached
      ensures this.use3D == use3D && this.roomType == roomType && this.isActive == isActive
      ensures renderer == None && !isLoaded && animationFrame == None && scheduled == {} && nextFrameId == 1
      ensures !initCleanup && !loopCleanup
      ensures Valid()
    {
      this.canvas := canvas;
      this.attached := attached;
      this.use3D := use3D;
      this.roomType := roomType;
      this.isActive := isActive;
      renderer := None;
      isLoaded := false;
      animationFrame := None;
      scheduled := {};
      nextFrameId := 1;
      startTime := 0.0;
      initCleanup := false;
      loopCleanup := false;
    }

    /** `animationRef.current = requestAnimationFrame(animate)`. */
    method RequestFrame()
      requires Valid() && loopCleanup && scheduled == {}
      modifies this`animationFrame, this`scheduled, this`nextFrameId
      ensures Rescheduled()
      ensures Valid()
    {
      animationFrame := Some(nextFrameId);
      scheduled := {nextFrameId};
      nextFrameId := nextFrameId + 1;
    }

    /** `if (animationRef.current) cancelAnimationFrame(animationRef.current)`:
        `animationRef` keeps the cancelled id. */
    method CancelFrame()
      requires Valid()
      modifies this`scheduled
      ensures scheduled == {} && !FramePending()
      ensures Valid()
    {
      if animationFrame.Some? && animationFrame.value != 0 {
        scheduled := scheduled - {animationFrame.value};
      }
      AtMostOneFrame();
    }

    /** The `animate` callback, run `now` milliseconds into the page. */
    method Animate(now: real)
      requires Valid() && loopCleanup && scheduled == {}
      modifies this`animationFrame, this`scheduled, this`nextFrameId, RendererObjects()
      ensures FrameDrawn(Seconds(now, startTime))
      ensures renderer.Some? && (attached || renderer.value.DrawsGL?) ==> FramePending()
      ensures Valid()
    {
      var currentTime := Seconds(now, startTime);
      if renderer.None? {
        return;
      }
      match renderer.value {
        case DrawsGL(g) => AnimateGL(g, currentTime);
        case Draws2D(p) => Animate2D(p, currentTime);
      }
    }

    /** `animate` with a WebGL2 renderer: clear, render the room and ask
        for the next frame. */
    method AnimateGL(g: GL.WebGL2Renderer, time: real)
      requires Valid() && loopCleanup && scheduled == {} && renderer == Some(DrawsGL(g))
      modifies this`animationFrame, this`scheduled, this`nextFrameId, g`log, g`nextHandle
      ensures FrameDrawn(time)
      ensures FramePending()
      ensures Valid()
    {
      RenderFrameGL(g, roomType, Activity(isActive), time);
      RequestFrame();
    }

    /** `animate` with a 2D renderer: clear, draw while the canvas is
        attached, and ask for the next frame unless it went away. */
    method Animate2D(p: Canvas2DRenderer, time: real)
      requires Valid() && loopCleanup && scheduled == {} && renderer == Some(Draws2D(p))
      modifies this`animationFrame, this`scheduled, this`nextFrameId, p`log
      ensures FrameDrawn(time)
      ensures attached ==> FramePending()
      ensures Valid()
    {
      PaintFrame(p, attached, roomType, isActive, time);
      assert p.canvas == canvas && Valid();
      if attached {
        RequestFrame();
      }
    }

    /** The browser runs the pending frame callback. */
    method FireFrame(now: real)
      requires Valid() && FramePending()
      modifies this`animationFrame, this`scheduled, this`nextFrameId, RendererObjects()
      ensures FrameDrawn(Seconds(now, startTime))
      ensures Valid()
    {
      scheduled := scheduled - {animationFrame.value};
      AtMostOneFrame();
      Animate(now);
    }

    /** The renderer effect, which depends on `use3D`, run with the
        current `use3D`. */
    method InitRenderer(devicePixelRatio: real)
      requires Valid()
      modifies this`renderer, this`isLoaded, this`initCleanup, canvas`mode, canvas`width, canvas`height
      ensures initCleanup == attached
      ensures !attached ==> renderer == old(renderer) && isLoaded == old(isLoaded) && unchanged(canvas)
      ensures attached ==>
                var outcome := MountOutcome(use3D, canvas.supports2D, canvas.supportsWebGL2, canvas.gpu, old(canvas.mode));
                && (outcome.None? ==> renderer == old(renderer) && isLoaded == old(isLoaded))
                && (outcome.Some? ==> renderer.Some? && KindOf(renderer.value) == outcome.value && isLoaded)
                && canvas.mode == ModeAfter(use3D, canvas.supportsWebGL2, old(canvas.mode), outcome)
                && (Binds(use3D, canvas.supportsWebGL2, old(canvas.mode), outcome) ==> Sized(canvas, devicePixelRatio))
                && (!Binds(use3D, canvas.supportsWebGL2, old(canvas.mode), outcome) ==>
                      canvas.width == old(canvas.width) && canvas.height == old(canvas.height))
      ensures renderer != old(renderer) ==> fresh(RendererObjects()) && Fresh(renderer.value, canvas, devicePixelRatio)
      ensures Valid()
    {
      if !attached {
        initCleanup := false;
        return;
      }
      LoadRenderer(devicePixelRatio);
    }

    /** The renderer effect on a mounted canvas: construct a renderer and,
        when one was made, keep it and mark the component loaded. */
    method LoadRenderer(devicePixelRatio: real)
      requires Valid() && attached
      modifies this`renderer, this`isLoaded, this`initCleanup, canvas`mode, canvas`width, canvas`height
      ensures initCleanup
      ensures var outcome := MountOutcome(use3D, canvas.supports2D, canvas.supportsWebGL2, canvas.gpu, old(canvas.mode));
              && (outcome.None? ==> renderer == old(renderer) && isLoaded == old(isLoaded))
              && (outcome.Some? ==> renderer.Some? && KindOf(renderer.value) == outcome.value && isLoaded)
              && canvas.mode == ModeAfter(use3D, canvas.supportsWebGL2, old(canvas.mode), outcome)
              && (Binds(use3D, canvas.supportsWebGL2, old(canvas.mode), outcome) ==> Sized(canvas, devicePixelRatio))
              && (!Binds(use3D, canvas.supportsWebGL2, old(canvas.mode), outcome) ==>
                    canvas.width == old(canvas.width) && canvas.height == old(canvas.height))
      ensures renderer != old(renderer) ==> fresh(RendererObjects()) && Fresh(renderer.value, canvas, devicePixelRatio)
      ensures Valid()
    {
      var made := Construct(canvas, use3D, devicePixelRatio);
      if made.Some? {
        renderer := made;
        isLoaded := true;
      }
      initCleanup := true;
    }

    /** The renderer's `destroy` ran, and nothing else about it changed. */
    twostate predicate Destroyed()
      reads this, RendererObjects()
    {
      && renderer == old(renderer)
      && (renderer.Some? ==> BackendDestroyed(renderer.value))
    }

    /** The renderer effect's cleanup: destroy the renderer, then cancel
        the frame `animationRef` names. */
    method DestroyRenderer()
      requires Valid()
      modifies this`scheduled, RendererObjects()
      ensures Destroyed()
      ensures scheduled == {} && !FramePending()
      ensures Valid()
    {
      if renderer.Some? {
        match renderer.value {
          case Draws2D(p) => p.Destroy();
          case DrawsGL(g) => g.Destroy();
        }
      }
      CancelFrame();
    }

    /** The animation effect, which depends on `isLoaded`, `roomType` and
        `isActive`: nothing unless loaded with a renderer; otherwise the loop's clock starts at `now` and the first
        frame is drawn at once. */
    method StartAnimation(now: real)
      requires Valid() && scheduled == {}
      modifies this`startTime, this`loopCleanup, this`animationFrame, this`scheduled, this`nextFrameId, RendererObjects()
      ensures loopCleanup == (isLoaded && renderer.Some?)
      ensures !loopCleanup ==> startTime == old(startTime) && Unscheduled() && unchanged(RendererObjects())
      ensures loopCleanup ==> startTime == now && Seconds(now, startTime) == 0.0 && FrameDrawn(Seconds(now, startTime))
      ensures loopCleanup && (attached || renderer.value.DrawsGL?) ==> FramePending()
      ensures Valid()
    {
      if !isLoaded || renderer.None? {
        loopCleanup := false;
        return;
      }
      StartLoop(now);
    }

    /** The animation effect with a loaded renderer: the loop's clock
        starts at `now`, then `animate` draws the first frame. */
    method StartLoop(now: real)
      requires Valid() && scheduled == {} && renderer.Some?
      modifies this`startTime, this`loopCleanup, this`animationFrame, this`scheduled, this`nextFrameId, RendererObjects()
      ensures loopCleanup && startTime == now && Seconds(now, startTime) == 0.0 && FrameDrawn(Seconds(now, startTime))
      ensures attached || renderer.value.DrawsGL? ==> FramePending()
      ensures Valid()
    {
      startTime := now;
      loopCleanup := true;
      Animate(now);
    }

    /** The animation effect runs again: its previous cleanup, if it
        returned one, cancels the pending frame first. */
    method RerunAnimation(now: real)
      requires Valid()
      modifies this`startTime, this`loopCleanup, this`animationFrame, this`scheduled, this`nextFrameId, RendererObjects()
      ensures loopCleanup == (isLoaded && renderer.Some?)
      ensures !loopCleanup ==> startTime == old(startTime) && scheduled == {} && unchanged(RendererObjects())
      ensures loopCleanup ==> startTime == now && Seconds(now, startTime) == 0.0 && FrameDrawn(Seconds(now, startTime))
      ensures loopCleanup && (attached || renderer.value.DrawsGL?) ==> FramePending()
      ensures Valid()
    {
      if loopCleanup {
        CancelFrame();
      }
      StartAnimation(now);
    }

    /** `handleResize`: forwarded to the renderer when there is one. */
    method HandleResize(devicePixelRatio: real)
      requires Valid()
      modifies RendererObjects(), canvas`width, canvas`height
      ensures KeptRendererFields()
      ensures renderer.None? ==> canvas.width == old(canvas.width) && canvas.height == old(canvas.height)
      ensures renderer.Some? ==> canvas.width == canvas.BackingWidth(devicePixelRatio)
                                 && canvas.height == canvas.BackingHeight(devicePixelRatio)
      ensures renderer.Some? && renderer.value.Draws2D? ==>
                renderer.value.painter.log == old(renderer.value.painter.log) + SetupCommands(devicePixelRatio)
      ensures renderer.Some? && renderer.value.DrawsGL? ==>
                && renderer.value.gl.log == old(renderer.value.gl.log) + [GL.Viewport(canvas.width, canvas.height)]
                && renderer.value.gl.nextHandle == old(renderer.value.gl.nextHandle)
      ensures Valid()
    {
      if renderer.Some? {
        match renderer.value {
          case Draws2D(p) => p.Resize(devicePixelRatio);
          case DrawsGL(g) => g.Resize(devicePixelRatio);
        }
      }
    }

    /** New `roomType`/`isActive` props: when either differs, the animation
        effect's cleanup runs and the effect runs again. */
    method ChangeProps(roomType: int, isActive: bool, now: real)
      requires Valid()
      modifies this`roomType, this`isActive, this`startTime, this`loopCleanup, this`animationFrame, this`scheduled,
               this`nextFrameId, RendererObjects()
      ensures this.roomType == roomType && this.isActive == isActive
      ensures roomType == old(this.roomType) && isActive == old(this.isActive) ==>
                unchanged(this) && unchanged(RendererObjects())
      ensures roomType != old(this.roomType) || isActive != old(this.isActive) ==>
                && loopCleanup == (isLoaded && renderer.Some?)
                && (loopCleanup ==> startTime == now && Seconds(now, startTime) == 0.0 && FrameDrawn(Seconds(now, startTime)))
                && (!loopCleanup ==> scheduled == {})
      ensures Valid()
    {
      if roomType == this.roomType && isActive == this.isActive {
        return;
      }
      this.roomType := roomType;
      this.isActive := isActive;
      RerunAnimation(now);
    }

    /** The first commit: the renderer effect runs; when it loaded a
        renderer, `setIsLoaded(true)` re-renders and the animation effect
        starts the loop. */
    method Mount(devicePixelRatio: real, now: real)
      requires Valid() && renderer == None && !isLoaded && scheduled == {}
      modifies this`renderer, this`isLoaded, this`initCleanup, canvas`mode, canvas`width, canvas`height,
               this`startTime, this`loopCleanup, this`animationFrame, this`scheduled, this`nextFrameId
      ensures Valid()
      ensures var outcome := MountOutcome(use3D, canvas.supports2D, canvas.supportsWebGL2, canvas.gpu, old(canvas.mode));
              && (isLoaded <==> attached && outcome.Some?)
              && (isLoaded ==> KindOf(renderer.value) == outcome.value && startTime == now && FramePending())
              && (!isLoaded ==> renderer == None && scheduled == {})
    {
      InitRenderer(devicePixelRatio);
      StartAnimation(now);
    }

    /** The renderer effect re-run for a new `use3D`: its cleanup, when
        the last run returned one, then its body. */
    method SwapRenderer(use3D: bool, devicePixelRatio: real)
      requires Valid()
      modifies this`use3D, this`renderer, this`isLoaded, this`initCleanup, canvas`mode, canvas`width, canvas`height,
               this`scheduled, RendererObjects()
      ensures this.use3D == use3D
      ensures old(initCleanup) ==> scheduled == {}
      ensures !old(initCleanup) ==> scheduled == old(scheduled)
      ensures old(isLoaded) ==> isLoaded
      ensures isLoaded && !old(isLoaded) ==> attached
      ensures old(initCleanup) && old(renderer).Some? ==> BackendDestroyed(old(renderer).value)
      ensures !attached ==> renderer == old(renderer) && isLoaded == old(isLoaded)
      ensures attached ==>
                var outcome := MountOutcome(use3D, canvas.supports2D, canvas.supportsWebGL2, canvas.gpu, old(canvas.mode));
                && (outcome.None? ==> renderer == old(renderer) && isLoaded == old(isLoaded))
                && (outcome.Some? ==> renderer.Some? && KindOf(renderer.value) == outcome.value && isLoaded)
                && canvas.mode == ModeAfter(use3D, canvas.supportsWebGL2, old(canvas.mode), outcome)
      ensures renderer != old(renderer) ==> fresh(RendererObjects()) && Fresh(renderer.value, canvas, devicePixelRatio)
      ensures Valid()
    {
      if initCleanup {
        DestroyRenderer();
      }
      this.use3D := use3D;
      InitRenderer(devicePixelRatio);
    }

    /** A new `use3D` prop, as the component is written: the renderer
        effect's cleanup and body run again, but the animation effect,
        whose dependencies do not include the renderer, runs again only
        when `isLoaded` flips. A component that was already loaded is left
        with no pending frame: its animation stops. */
    method ChangeUse3D(use3D: bool, devicePixelRatio: real, now: real)
      requires Valid()
      modifies this`use3D, this`renderer, this`isLoaded, this`initCleanup, canvas`mode, canvas`width, canvas`height,
               this`startTime, this`loopCleanup, this`animationFrame, this`scheduled, this`nextFrameId, RendererObjects()
      ensures this.use3D == use3D
      ensures use3D == old(this.use3D) ==> unchanged(this) && unchanged(canvas) && unchanged(RendererObjects())
      ensures use3D != old(this.use3D) && old(isLoaded) && old(initCleanup) ==> isLoaded && !FramePending()
      ensures use3D != old(this.use3D) && !old(isLoaded) && isLoaded ==> FramePending()
      ensures Valid()
    {
      if use3D == this.use3D {
        return;
      }
      var wasLoaded := isLoaded;
      SwapRenderer(use3D, devicePixelRatio);
      if !wasLoaded && isLoaded {
        RerunAnimation(now);
      }
    }

    /** A new `use3D` prop with the animation effect also re-run, as if it
        depended on `use3D`: a loaded component whose canvas is attached
        keeps animating with whichever renderer it now holds. */
    method ChangeUse3DRestarting(use3D: bool, devicePixelRatio: real, now: real)
      requires Valid()
      modifies this`use3D, this`renderer, this`isLoaded, this`initCleanup, canvas`mode, canvas`width, canvas`height,
               this`startTime, this`loopCleanup, this`animationFrame, this`scheduled, this`nextFrameId, RendererObjects()
      ensures this.use3D == use3D
      ensures use3D == old(this.use3D) ==> unchanged(this) && unchanged(canvas) && unchanged(RendererObjects())
      ensures use3D != old(this.use3D) && isLoaded && attached ==> FramePending()
      ensures Valid()
    {
      if use3D == this.use3D {
        return;
      }
      SwapRenderer(use3D, devicePixelRatio);
      RerunAnimation(now);
    }

    /** React detaches `canvasRef` when the component unmounts; a frame
        may still fire before the effects' cleanups run. */
    method Detach()
      modifies this`attached
      ensures !attached
    {
      attached := false;
    }

    /** Unmounting: both effects' cleanups run, so the renderer is
        destroyed and no frame is left pending. */
    method Unmount()
      requires Valid()
      modifies this`scheduled, RendererObjects()
      ensures initCleanup ==> Destroyed()
      ensures !initCleanup ==> unchanged(RendererObjects())
      ensures scheduled == {} && !FramePending()
      ensures Valid()
    {
      if initCleanup {
        DestroyRenderer();
      }
      if loopCleanup {
        CancelFrame();
      }
    }
  }
}
