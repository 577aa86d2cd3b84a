/** The `HypercubePalace` component of
    src/components/ThreeEnvironment_rebuilt.tsx: the tesseract it draws is
    two constant tables, its 16 vertices in 4-space and its 32 edges as
    pairs of vertex indices. The rotation and the projection to 3-space
    are floating-point trigonometry and are not modelled. */
module HypercubePalace {
  /** A point of 4-space: one row of `tesseractVertices`. */
  datatype Vertex = Vertex(x: int, y: int, z: int, w: int)

  /** One `[startIdx, endIdx]` pair of `tesseractEdges`. */
  datatype Edge = Edge(from: nat, to: nat)

  /** `tesseractVertices`: the inner cube (w = -1), then the outer cube (w = 1). */
  const Vertices: seq<Vertex> := [
    Vertex(-1, -1, -1, -1), Vertex(1, -1, -1, -1), Vertex(1, 1, -1, -1), Vertex(-1, 1, -1, -1),
    Vertex(-1, -1, 1, -1), Vertex(1, -1, 1, -1), Vertex(1, 1, 1, -1), Vertex(-1, 1, 1, -1),
    Vertex(-1, -1, -1, 1), Vertex(1, -1, -1, 1), Vertex(1, 1, -1, 1), Vertex(-1, 1, -1, 1),
    Vertex(-1, -1, 1, 1), Vertex(1, -1, 1, 1), Vertex(1, 1, 1, 1), Vertex(-1, 1, 1, 1)]

  /** `tesseractEdges`, in its three groups: the inner cube's edges
      (bottom face, top face, vertical edges), the outer cube's, and the
      edges joining the two. */
  const InnerEdges: seq<Edge> := [
    Edge(0, 1), Edge(1, 2), Edge(2, 3), Edge(3, 0),
    Edge(4, 5), Edge(5, 6), Edge(6, 7), Edge(7, 4),
    Edge(0, 4), Edge(1, 5), Edge(2, 6), Edge(3, 7)]

  const OuterEdges: seq<Edge> := [
    Edge(8, 9), Edge(9, 10), Edge(10, 11), Edge(11, 8),
    Edge(12, 13), Edge(13, 14), Edge(14, 15), Edge(15, 12),
    Edge(8, 12), Edge(9, 13), Edge(10, 14), Edge(11, 15)]

  const ConnectingEdges: seq<Edge> := [
    Edge(0, 8), Edge(1, 9), Edge(2, 10), Edge(3, 11),
    Edge(4, 12), Edge(5, 13), Edge(6, 14), Edge(7, 15)]

  const Edges: seq<Edge> := InnerEdges + OuterEdges + ConnectingEdges

  // ---------------------------------------------------------------------
  // The tables' structure

  function Sign(b: bool): int { if b then 1 else -1 }

  /** The four corners of one face square, in the tables' order:
      (-1,-1), (1,-1), (1,1), (-1,1) in x and y. */
  function Face(z: int, w: int): seq<Vertex> {
    [Vertex(-1, -1, z, w), Vertex(1, -1, z, w), Vertex(1, 1, z, w), Vertex(-1, 1, z, w)]
  }

  /** Vertex `i` in closed form: corner `i % 4` of its square, z from
      bit 2 of `i` and w from bit 3. */
  function Corner(i: nat): Vertex {
    var c := i % 4;
    Vertex(if c == 0 || c == 3 then -1 else 1, if c < 2 then -1 else 1, Sign((i / 4) % 2 == 1), Sign(i >= 8))
  }

  lemma VertexFormula(i: nat)
    requires i < 16
    ensures Vertices[i] == Corner(i)
  {
    assert Vertices == Face(-1, -1) + Face(1, -1) + Face(-1, 1) + Face(1, 1);
  }

  /** The four sides of the face square whose first corner is `b`. */
  function Cycle(b: nat): seq<Edge> {
    [Edge(b, b + 1), Edge(b + 1, b + 2), Edge(b + 2, b + 3), Edge(b + 3, b)]
  }

  /** The `n` edges joining `b + i` to `b + i + shift`. */
  function Rungs(b: nat, shift: nat, n: nat): seq<Edge> {
    if n == 0 then [] else Rungs(b, shift, n - 1) + [Edge(b + n - 1, b + n - 1 + shift)]
  }

  lemma {:induction false} RungAt(b: nat, shift: nat, n: nat)
    ensures |Rungs(b, shift, n)| == n
    ensures forall i :: 0 <= i < n ==> Rungs(b, shift, n)[i] == Edge(b + i, b + i + shift)
  {
    if n > 0 {
      RungAt(b, shift, n - 1);
    }
  }

  /** The twelve edges of the cube whose first vertex is `b`. */
  function Cube(b: nat): seq<Edge> {
    Cycle(b) + Cycle(b + 4) + Rungs(b, 4, 4)
  }

  /** Each group of the edge table is a cube or a set of rungs. */
  lemma EdgesByBlock()
    ensures InnerEdges == Cube(0) && OuterEdges == Cube(8) && ConnectingEdges == Rungs(0, 8, 8)
  {
    RungAt(0, 4, 4);
    RungAt(8, 4, 4);
    RungAt(0, 8, 8);
  }

  lemma CycleAt(b: nat, t: nat)
    requires t < 4
    ensures Cycle(b)[t] == Edge(b + t, b + (t + 1) % 4)
  {
  }

  /** Edge `k` of the table, block by block. */
  lemma EdgeAt(k: nat)
    requires k < 32
    ensures |Edges| == 32
    ensures k < 4 ==> Edges[k] == Cycle(0)[k]
    ensures 4 <= k < 8 ==> Edges[k] == Cycle(4)[k - 4]
    ensures 8 <= k < 12 ==> Edges[k] == Edge(k - 8, k - 4)
    ensures 12 <= k < 16 ==> Edges[k] == Cycle(8)[k - 12]
    ensures 16 <= k < 20 ==> Edges[k] == Cycle(12)[k - 16]
    ensures 20 <= k < 24 ==> Edges[k] == Edge(k - 12, k - 8)
    ensures 24 <= k ==> Edges[k] == Edge(k - 24, k - 16)
  {
    EdgesByBlock();
    RungAt(0, 4, 4);
    RungAt(8, 4, 4);
    RungAt(0, 8, 8);
  }

  // ---------------------------------------------------------------------
  // Properties of the tables

  /** The number of coordinates in which two vertices differ. */
  function Differences(a: Vertex, b: Vertex): nat {
    (if a.x != b.x then 1 else 0) + (if a.y != b.y then 1 else 0) + (if a.z != b.z then 1 else 0) + (if a.w != b.w then 1 else 0)
  }

  /** The edge names two vertices of the table that differ in exactly one
      coordinate: it is an edge of the 4-cube. */
  predicate Joins(e: Edge) {
    e.from < 16 && e.to < 16 && Differences(Vertices[e.from], Vertices[e.to]) == 1
  }

  lemma CycleJoins(m: nat, t: nat)
    requires m < 4 && t < 4
    ensures Joins(Cycle(4 * m)[t])
  {
    CycleAt(4 * m, t);
    VertexFormula(4 * m + t);
    VertexFormula(4 * m + (t + 1) % 4);
    assert (4 * m + t) / 4 == m && (4 * m + t) % 4 == t;
    assert (4 * m + (t + 1) % 4) / 4 == m && (4 * m + (t + 1) % 4) % 4 == (t + 1) % 4;
  }

  /** A rung from vertex `i` to `i + d`, with `d` 4 or 8 and that bit of
      `i` clear, changes z or w alone. */
  lemma RungJoins(i: nat, d: nat)
    requires (d == 4 && i % 8 < 4 && i < 12) || (d == 8 && i < 8)
    ensures Joins(Edge(i, i + d))
  {
    VertexFormula(i);
    VertexFormula(i + d);
    RungCorners(i, d);
  }

  /** The closed-form corners of a rung differ in z or in w alone. */
  lemma RungCorners(i: nat, d: nat)
    requires (d == 4 && i % 8 < 4 && i < 12) || (d == 8 && i < 8)
    ensures Differences(Corner(i), Corner(i + d)) == 1
  {
    assert (i + d) % 4 == i % 4;
    if d == 4 {
      assert (i / 4) % 2 == 0 && ((i + 4) / 4) % 2 == 1;
    } else {
      assert ((i + 8) / 4) % 2 == (i / 4) % 2;
    }
  }

  /** Edge `k` of the table is an edge of the 4-cube. */
  lemma EdgeJoins(k: nat)
    requires k < 32
    ensures |Edges| == 32 && Joins(Edges[k])
  {
    EdgeAt(k);
    if k < 4 {
      CycleJoins(0, k);
    } else if k < 8 {
      CycleJoins(1, k - 4);
    } else if k < 12 {
      RungJoins(k - 8, 4);
    } else if k < 16 {
      CycleJoins(2, k - 12);
    } else if k < 20 {
      CycleJoins(3, k - 16);
    } else if k < 24 {
      RungJoins(k - 12, 4);
    } else {
      RungJoins(k - 24, 8);
    }
  }

  /** Every edge of the table is an edge of the 4-cube. */
  lemma EdgesJoin()
    ensures |Edges| == 32
    ensures forall k :: 0 <= k < |Edges| ==> Joins(Edges[k])
  {
    EdgeAt(0);
    forall k | 0 <= k < |Edges|
      ensures Joins(Edges[k])
    {
      EdgeJoins(k);
    }
  }

  predicate Touches(e: Edge, v: nat) {
    e.from == v || e.to == v
  }

  /** The number of edges of `es` that end at `v`. */
  function Degree(es: seq<Edge>, v: nat): nat {
    if es == [] then 0 else Degree(es[..|es| - 1], v) + (if Touches(es[|es| - 1], v) then 1 else 0)
  }

  lemma {:induction false} DegreeAppend(a: seq<Edge>, b: seq<Edge>, v: nat)
    ensures Degree(a + b, v) == Degree(a, v) + Degree(b, v)
    decreases |b|
  {
    if b == [] {
      assert a + b == a;
    } else {
      assert (a + b)[..|a + b| - 1] == a + b[..|b| - 1];
      DegreeAppend(a, b[..|b| - 1], v);
    }
  }

  lemma DegreeCycle(b: nat, v: nat)
    ensures Degree(Cycle(b), v) == if b <= v < b + 4 then 2 else 0
  {
    var c := Cycle(b);
    assert Degree(c[..1], v) == (if Touches(c[0], v) then 1 else 0) by {
      assert c[..1][..0] == [];
    }
    assert Degree(c[..2], v) == Degree(c[..1], v) + (if Touches(c[1], v) then 1 else 0) by {
      assert c[..2][..1] == c[..1];
    }
    assert Degree(c[..3], v) == Degree(c[..2], v) + (if Touches(c[2], v) then 1 else 0) by {
      assert c[..3][..2] == c[..2];
    }
  }

  lemma {:induction false} DegreeRungs(b: nat, shift: nat, n: nat, v: nat)
    requires n <= shift
    ensures Degree(Rungs(b, shift, n), v) == if b <= v < b + n || b + shift <= v < b + shift + n then 1 else 0
  {
    if n > 0 {
      DegreeRungs(b, shift, n - 1, v);
      assert Rungs(b, shift, n)[..n - 1] == Rungs(b, shift, n - 1) by { RungAt(b, shift, n); RungAt(b, shift, n - 1); }
      RungAt(b, shift, n);
    }
  }

  /** Every vertex ends exactly four edges, one per coordinate. */
  lemma DegreeFour(v: nat)
    requires v < 16
    ensures Degree(Edges, v) == 4
  {
    EdgesByBlock();
    DegreeAppend(InnerEdges, OuterEdges, v);
    DegreeAppend(InnerEdges + OuterEdges, ConnectingEdges, v);
    DegreeAppend(Cycle(0) + Cycle(4), Rungs(0, 4, 4), v);
    DegreeAppend(Cycle(0), Cycle(4), v);
    DegreeAppend(Cycle(8) + Cycle(12), Rungs(8, 4, 4), v);
    DegreeAppend(Cycle(8), Cycle(12), v);
    DegreeCycle(0, v);
    DegreeCycle(4, v);
    DegreeCycle(8, v);
    DegreeCycle(12, v);
    DegreeRungs(0, 4, 4, v);
    DegreeRungs(8, 4, 4, v);
    DegreeRungs(0, 8, 8, v);
  }

  /** Sixteen vertices, every coordinate -1 or 1; the first eight have
      w = -1 and the last eight w = 1. */
  lemma VerticesAreSigns()
    ensures |Vertices| == 16
    ensures forall i :: 0 <= i < |Vertices| ==>
              var p := Vertices[i];
              && p.x in {-1, 1} && p.y in {-1, 1} && p.z in {-1, 1}
              && (p.w == -1 <==> i < 8) && (p.w == 1 <==> 8 <= i)
  {
    forall i | 0 <= i < |Vertices|
      ensures var p := Vertices[i];
              && p.x in {-1, 1} && p.y in {-1, 1} && p.z in {-1, 1}
              && (p.w == -1 <==> i < 8) && (p.w == 1 <==> 8 <= i)
    {
      VertexFormula(i);
    }
  }

  /** The outer cube's edges are the inner cube's shifted by 8, and the
      connecting edges join `i` to `i + 8`. */
  lemma OuterIsInnerShifted()
    ensures |Edges| == 32
    ensures forall k :: 0 <= k < 12 ==> Edges[12 + k] == Edge(Edges[k].from + 8, Edges[k].to + 8)
    ensures forall k :: 24 <= k < 32 ==> Edges[k] == Edge(k - 24, k - 16)
  {
    EdgeAt(0);
    forall k | 0 <= k < 12
      ensures Edges[12 + k] == Edge(Edges[k].from + 8, Edges[k].to + 8)
    {
      EdgeAt(k);
      EdgeAt(12 + k);
      if k < 4 {
        CycleAt(0, k);
        CycleAt(8, k);
      } else if k < 8 {
        CycleAt(4, k - 4);
        CycleAt(12, k - 4);
      }
    }
    forall k | 24 <= k < 32
      ensures Edges[k] == Edge(k - 24, k - 16)
    {
      EdgeAt(k);
    }
  }

  // An edge's lower end and its span locate it in the table, so no two
  // entries join the same two vertices.
  function Low(e: Edge): nat { if e.from < e.to then e.from else e.to }
  function Span(e: Edge): nat { if e.from < e.to then e.to - e.from else e.from - e.to }

  predicate SameEnds(a: Edge, b: Edge) {
    (a.from == b.from && a.to == b.to) || (a.from == b.to && a.to == b.from)
  }

  function CycleStart(b: nat): nat {
    if b < 4 then 0 else if b < 8 then 4 else if b < 12 then 12 else 16
  }

  /** Where in the table the edge with lower end `low` and span `span` sits. */
  function Position(low: nat, span: nat): nat {
    if span == 8 then 24 + low
    else if span == 4 then (if low < 8 then 8 + low else 20 + (low - 8))
    else if span == 3 then CycleStart(low) + 3
    else CycleStart(low) + low % 4
  }

  lemma PositionOfEdge(k: nat)
    requires k < 32
    ensures Position(Low(Edges[k]), Span(Edges[k])) == k
  {
    EdgeAt(k);
    if k < 4 {
      CyclePosition(0, k);
    } else if k < 8 {
      CyclePosition(4, k - 4);
    } else if 12 <= k < 16 {
      CyclePosition(8, k - 12);
    } else if 16 <= k < 20 {
      CyclePosition(12, k - 16);
    }
  }

  /** Edge `t` of the 4-cycle from vertex `b` sits `t` places into its block. */
  lemma CyclePosition(b: nat, t: nat)
    requires b == 0 || b == 4 || b == 8 || b == 12
    requires t < 4
    ensures Position(Low(Cycle(b)[t]), Span(Cycle(b)[t])) == CycleStart(b) + t
  {
    CycleAt(b, t);
    if t < 3 {
      assert Cycle(b)[t] == Edge(b + t, b + t + 1);
      assert CycleStart(b + t) == CycleStart(b) && (b + t) % 4 == t;
    } else {
      assert Cycle(b)[t] == Edge(b + 3, b);
    }
  }

  /** No edge appears twice, in either direction. */
  lemma NoDuplicateEdges()
    ensures forall j, k :: 0 <= j < k < |Edges| ==> !SameEnds(Edges[j], Edges[k])
  {
    EdgeAt(0);
    forall j, k | 0 <= j < k < |Edges|
      ensures !SameEnds(Edges[j], Edges[k])
    {
      PositionOfEdge(j);
      PositionOfEdge(k);
    }
  }
}

/** The guided tour of the `ThreeEnvironment` component in
    src/components/ThreeEnvironment_rebuilt.tsx: three pieces of React
    state, `tourActive`, `currentTourStep` and `tourProgress`, changed by
    the Start, Next and End buttons, and the camera controls that follow
    `tourActive`. */
module ThreeEnvironment {
  import opened Base
  import Portfolio3DComponent

  /** One entry of `tourWaypoints`: the room it presents (none for the
      closing overview) and its title. */
  datatype Waypoint = Waypoint(room: Option<string>, name: string)

  const TourWaypoints: seq<Waypoint> := [
    Waypoint(Some("main-server-core"), "4D Hypercube Palace"),
    Waypoint(Some("code-laboratory"), "Code Laboratory"),
    Waypoint(Some("database-room"), "Data Vault"),
    Waypoint(Some("project-warehouse"), "Project Forge"),
    Waypoint(Some("communication-hub"), "Communication Tower"),
    Waypoint(Some("system-status"), "System Shrine"),
    Waypoint(None, "Kingdom Overview")]

  /** The tour visits the rooms of the `Portfolio3D` page, each once, in
      the order of its rooms table, and ends on the overview. */
  lemma TourVisitsEveryRoom()
    ensures |TourWaypoints| == |Portfolio3DComponent.Rooms| + 1
    ensures forall i :: 0 <= i < |Portfolio3DComponent.Rooms| ==>
              TourWaypoints[i].room == Some(Portfolio3DComponent.Rooms[i].id)
    ensures TourWaypoints[|TourWaypoints| - 1].room == None
  {
    assert Portfolio3DComponent.Rooms[0].id == "main-server-core";
  }

  /** The props of `<OrbitControls>`. */
  datatype OrbitControls = OrbitControls(enablePan: bool, enableRotate: bool, enableZoom: bool,
                                         maxDistance: int, minDistance: int)

  /** The tour panel at the bottom of the screen: the START TOUR button,
      or the current waypoint's title with "Step n of m". */
  datatype Panel = StartButton | TourPanel(title: string, stepNumber: nat, stepCount: nat)

  class Tour {
    var tourActive: bool
    var currentTourStep: int
    var tourProgress: real

    /** The step always names a waypoint, and nothing ever sets the
        progress to anything but 0. */
    predicate Valid()
      reads this
    {
      0 <= currentTourStep < |TourWaypoints| && tourProgress == 0.0
    }

    constructor ()
      ensures !tourActive && currentTourStep == 0 && tourProgress == 0.0
      ensures Valid()
    {
      tourActive := false;
      currentTourStep := 0;
      tourProgress := 0.0;
    }

    /** `startTour`. */
    method StartTour()
      modifies this
      ensures tourActive && currentTourStep == 0 && tourProgress == 0.0
      ensures Valid()
    {
      tourActive := true;
      currentTourStep := 0;
      tourProgress := 0.0;
    }

    /** `nextTourStep`: on to the next waypoint, or, from the last one,
        the tour ends and the step goes back to 0. */
    method NextTourStep()
      requires Valid()
      modifies this
      ensures old(currentTourStep) < |TourWaypoints| - 1 ==>
                currentTourStep == old(currentTourStep) + 1 && tourProgress == 0.0 && tourActive == old(tourActive)
      ensures old(currentTourStep) == |TourWaypoints| - 1 ==>
                !tourActive && currentTourStep == 0 && tourProgress == old(tourProgress)
      ensures Valid()
    {
      if currentTourStep < |TourWaypoints| - 1 {
        currentTourStep := currentTourStep + 1;
        tourProgress := 0.0;
      } else {
        tourActive := false;
        currentTourStep := 0;
      }
    }

    /** `endTour`: the progress is left as it is. */
    method EndTour()
      requires Valid()
      modifies this
      ensures !tourActive && currentTourStep == 0 && tourProgress == old(tourProgress)
      ensures Valid()
    {
      tourActive := false;
      currentTourStep := 0;
    }

    /** The camera controls: the user may pan, rotate and zoom only while
        no tour runs. */
    function Controls(): (c: OrbitControls)
      reads this
      ensures c.enablePan == c.enableRotate == c.enableZoom
      ensures c.enablePan <==> !tourActive
      ensures c.minDistance == 5 && c.maxDistance == 50
    {
      OrbitControls(!tourActive, !tourActive, !tourActive, 50, 5)
    }

    /** What the tour panel shows. */
    function ShownPanel(): (p: Panel)
      requires Valid()
      reads this
      ensures p.StartButton? <==> !tourActive
      ensures p.TourPanel? ==> 1 <= p.stepNumber <= p.stepCount == |TourWaypoints|
                               && p.title == TourWaypoints[p.stepNumber - 1].name
    {
      if !tourActive then StartButton
      else TourPanel(TourWaypoints[currentTourStep].name, currentTourStep + 1, |TourWaypoints|)
    }
  }
}
