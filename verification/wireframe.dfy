/** The wireframe car: a fixed table of 24 vertices and 43 edges.

    Coordinates: x across the car, y up-down (negative is up), z along the car
    (positive is the front). Each edge names two entries of the vertex table,
    and drawing an edge looks both of them up, so the table is only usable if
    every index is in range. */
module Wireframe {

  datatype Vertex = Vertex(x: int, y: int, z: int)

  datatype Edge = Edge(a: int, b: int)

  const Vertices: seq<Vertex> := [
    // nose / front bumper
    Vertex(-35, 10, 110), Vertex(35, 10, 110),
    Vertex(-35, 0, 110), Vertex(35, 0, 110),
    // hood start / front wheel well
    Vertex(-38, 10, 80), Vertex(38, 10, 80),
    Vertex(-38, -5, 80), Vertex(38, -5, 80),
    // windshield base
    Vertex(-38, -8, 30), Vertex(38, -8, 30),
    // roof front
    Vertex(-30, -25, 10), Vertex(30, -25, 10),
    // roof back
    Vertex(-30, -25, -20), Vertex(30, -25, -20),
    // rear window base / deck
    Vertex(-38, -8, -40), Vertex(38, -8, -40),
    // rear bumper top
    Vertex(-38, 0, -90), Vertex(38, 0, -90),
    // rear bumper bottom
    Vertex(-38, 10, -90), Vertex(38, 10, -90),
    // side skirts
    Vertex(-38, 15, 80), Vertex(38, 15, 80),
    Vertex(-38, 15, -40), Vertex(38, 15, -40)
  ]

  const Edges: seq<Edge> := [
    // front face
    Edge(0, 1), Edge(2, 3), Edge(0, 2), Edge(1, 3),
    // nose to hood
    Edge(0, 4), Edge(1, 5), Edge(2, 6), Edge(3, 7),
    // hood
    Edge(6, 7), Edge(6, 8), Edge(7, 9),
    // windshield
    Edge(8, 9), Edge(8, 10), Edge(9, 11), Edge(10, 11),
    // roof
    Edge(10, 12), Edge(11, 13), Edge(12, 13),
    // rear window
    Edge(12, 14), Edge(13, 15), Edge(14, 15),
    // rear deck
    Edge(14, 16), Edge(15, 17), Edge(16, 17),
    // rear face
    Edge(16, 18), Edge(17, 19), Edge(18, 19),
    // side lines
    Edge(4, 20), Edge(5, 21),
    Edge(20, 22), Edge(21, 23),
    Edge(22, 18), Edge(23, 19),
    Edge(4, 6), Edge(5, 7),
    Edge(8, 14), Edge(9, 15),
    Edge(6, 8), Edge(7, 9),
    Edge(14, 16), Edge(15, 17),
    Edge(16, 18), Edge(17, 19)
  ]

  /** An edge joins two different entries of a vertex table of n entries. */
  predicate ValidEdge(e: Edge, n: int) {
    0 <= e.a < n && 0 <= e.b < n && e.a != e.b
  }

  /** The right-hand vertex of pair k is the left-hand one mirrored in x. */
  predicate MirrorPair(vs: seq<Vertex>, k: int)
    requires 0 <= k && 2 * k + 1 < |vs|
  {
    vs[2 * k + 1] == vs[2 * k].(x := -vs[2 * k].x)
  }

  lemma TableSizes()
    ensures |Vertices| == 24
    ensures |Edges| == 43
  {
  }

  /** Every edge of the car joins two distinct vertices of the table. */
  lemma EdgesValid()
    ensures forall i :: 0 <= i < |Edges| ==> ValidEdge(Edges[i], |Vertices|)
  {
  }

  /** The vertex table lists the car's left side and right side in pairs. */
  lemma VerticesMirrored()
    ensures forall k :: 0 <= k < 12 ==> MirrorPair(Vertices, k)
  {
    forall k | 0 <= k < 12
      ensures MirrorPair(Vertices, k)
    {
      assert 2 * k + 1 < 24;
    }
  }

  /** The edge list repeats some edges: the hood side [6, 8] is listed twice. */
  lemma EdgesRepeat()
    ensures Edges[9] == Edges[37] == Edge(6, 8)
    ensures exists i, j :: 0 <= i < j < |Edges| && Edges[i] == Edges[j]
  {
    assert Edges[9] == Edges[37];
  }

  /** The car is small: every vertex lies within 38 across and 110 along. */
  lemma VerticesExtent()
    ensures forall i :: 0 <= i < |Vertices| ==>
      -38 <= Vertices[i].x <= 38 && -110 <= Vertices[i].z <= 110
  {
  }
}
