/** Perspective projection of the scene onto the canvas.

    A point is turned about the vertical axis by the current angle and then
    scaled by fov / (fov + z' + 300), where z' is its depth after turning.
    The cosine and sine of the angle are kept abstract: any pair of reals in
    [-1, 1]; no trigonometry is needed for the facts proved here. JavaScript
    division by zero gives an infinite scale, modelled as Infinite. */
module Projection {
  import Wireframe
  import Scanner

  /** Field of view. */
  const Fov: real := 400.0

  /** How far the camera is pulled back from the scene. */
  const CameraBack: real := 300.0

  /** The picture is shifted down by this much. */
  const Drop: real := 50.0

  /** Half the size of the ground grid; also the safe range for x and z. */
  const Extent: real := 200.0

  /** Spacing of the ground grid lines. */
  const GridStep: int := 40

  /** Height of the ground plane. */
  const GroundY: real := 20.0

  datatype Point = Point(x: real, y: real, z: real)

  /** Cosine and sine of the rotation angle. */
  datatype Turn = Turn(cos: real, sin: real)

  datatype Canvas = Canvas(width: real, height: real)

  /** Screen position and scale of a projected point. */
  datatype Projected = OnScreen(x: real, y: real, scale: real) | Infinite

  datatype Segment = Segment(a: Point, b: Point)

  predicate Bounded(t: Turn) {
    -1.0 <= t.cos <= 1.0 && -1.0 <= t.sin <= 1.0
  }

  function Abs(r: real): real {
    if r < 0.0 then -r else r
  }

  /** Rotation about the vertical (y) axis. */
  function Rotate(p: Point, t: Turn): Point {
    Point(p.x * t.cos - p.z * t.sin, p.y, p.z * t.cos + p.x * t.sin)
  }

  /** The denominator of the perspective scale. */
  function Depth(p: Point, t: Turn): real {
    Fov + Rotate(p, t).z + CameraBack
  }

  function Project(p: Point, t: Turn, c: Canvas): (r: Projected)
    ensures r.Infinite? <==> Depth(p, t) == 0.0
    ensures r.OnScreen? ==> r.scale * Depth(p, t) == Fov
  {
    var q := Rotate(p, t);
    var d := Fov + q.z + CameraBack;
    if d == 0.0 then Infinite
    else
      var scale := Fov / d;
      OnScreen(q.x * scale + c.width / 2.0, q.y * scale + c.height / 2.0 + Drop, scale)
  }

  /** The points the page projects all lie in this range of x and z. */
  predicate InRange(p: Point) {
    -Extent <= p.x <= Extent && -Extent <= p.z <= Extent
  }

  /** A finite projection whose scale is positive and at most 4/3. */
  predicate Visible(r: Projected) {
    r.OnScreen? && 4.0 / 11.0 <= r.scale <= 4.0 / 3.0
  }

  lemma ScaledBound(a: real, c: real)
    requires -1.0 <= c <= 1.0
    ensures Abs(a * c) <= Abs(a)
  {
    var m := Abs(a);
    assert m * (1.0 - c) >= 0.0 && m * (1.0 + c) >= 0.0;
    assert m * (1.0 - c) == m - m * c;
    assert m * (1.0 + c) == m + m * c;
    if a < 0.0 {
      assert a * c == -(m * c);
    }
  }

  lemma SumBound(u: real, v: real, a: real, b: real)
    requires Abs(u) <= a && Abs(v) <= b
    ensures Abs(u + v) <= a + b
  {
  }

  /** |a c + b s| and |a c - b s| are at most |a| + |b| when c, s are in [-1, 1]. */
  lemma CombinationBound(a: real, b: real, c: real, s: real)
    requires -1.0 <= c <= 1.0 && -1.0 <= s <= 1.0
    ensures Abs(a * c + b * s) <= Abs(a) + Abs(b)
  {
    ScaledBound(a, c);
    ScaledBound(b, s);
    var u := a * c;
    var v := b * s;
    SumBound(u, v, Abs(a), Abs(b));
  }

  /** Turning a point never brings it nearer or further than |x| + |z| in depth. */
  lemma RotationBound(p: Point, t: Turn)
    requires Bounded(t)
    ensures Abs(Rotate(p, t).z) <= Abs(p.x) + Abs(p.z)
  {
    var x, z, c, s := p.x, p.z, t.cos, t.sin;
    CombinationBound(z, x, c, s);
    assert Rotate(p, t).z == z * c + x * s;
  }

  /** For points in range the denominator stays between 300 and 1100. */
  lemma DepthBounds(p: Point, t: Turn)
    requires Bounded(t) && InRange(p)
    ensures CameraBack <= Depth(p, t) <= Fov + CameraBack + 2.0 * Extent
  {
    RotationBound(p, t);
  }

  lemma ScaleBounds(d: real)
    requires 300.0 <= d <= 1100.0
    ensures 4.0 / 11.0 <= Fov / d <= 4.0 / 3.0
  {
    var s := Fov / d;
    assert s * d == 400.0;
  }

  /** Every point in range, at every angle, projects to a finite point with a
      positive scale. */
  lemma ProjectInRange(p: Point, t: Turn, c: Canvas)
    requires Bounded(t) && InRange(p)
    ensures Visible(Project(p, t, c))
  {
    DepthBounds(p, t);
    ScaleBounds(Depth(p, t));
  }

  /** The origin lands at the middle of the canvas, 50 below the centre, with
      scale 400 / 700, whatever the angle. */
  lemma OriginCentre(t: Turn, c: Canvas)
    ensures Project(Point(0.0, 0.0, 0.0), t, c) == OnScreen(c.width / 2.0, c.height / 2.0 + Drop, 4.0 / 7.0)
  {
  }

  /** The ground grid: 11 lines across (one per z from -200 to 200 step 40)
      and 11 lines along (one per x), all on the ground plane. */
  method GridLines() returns (lines: seq<Segment>)
    ensures |lines| == 22
    ensures forall i :: 0 <= i < |lines| ==> InRange(lines[i].a) && InRange(lines[i].b)
    ensures forall i :: 0 <= i < 11 ==>
      lines[i] == Segment(Point(-Extent, GroundY, (-200 + GridStep * i) as real),
                          Point(Extent, GroundY, (-200 + GridStep * i) as real))
    ensures forall i :: 11 <= i < 22 ==>
      lines[i] == Segment(Point((-200 + GridStep * (i - 11)) as real, GroundY, -Extent),
                          Point((-200 + GridStep * (i - 11)) as real, GroundY, Extent))
  {
    lines := [];
    var z := -200;
    while z <= 200
      invariant -200 <= z <= 240 && (z + 200) % GridStep == 0
      invariant |lines| == (z + 200) / GridStep
      invariant forall i :: 0 <= i < |lines| ==> InRange(lines[i].a) && InRange(lines[i].b)
      invariant forall i :: 0 <= i < |lines| ==>
        lines[i] == Segment(Point(-Extent, GroundY, (-200 + GridStep * i) as real),
                            Point(Extent, GroundY, (-200 + GridStep * i) as real))
    {
      lines := lines + [Segment(Point(-Extent, GroundY, z as real), Point(Extent, GroundY, z as real))];
      z := z + GridStep;
    }
    var x := -200;
    while x <= 200
      invariant -200 <= x <= 240 && (x + 200) % GridStep == 0
      invariant |lines| == 11 + (x + 200) / GridStep
      invariant forall i :: 0 <= i < |lines| ==> InRange(lines[i].a) && InRange(lines[i].b)
      invariant forall i :: 0 <= i < 11 ==>
        lines[i] == Segment(Point(-Extent, GroundY, (-200 + GridStep * i) as real),
                            Point(Extent, GroundY, (-200 + GridStep * i) as real))
      invariant forall i :: 11 <= i < |lines| ==>
        lines[i] == Segment(Point((-200 + GridStep * (i - 11)) as real, GroundY, -Extent),
                            Point((-200 + GridStep * (i - 11)) as real, GroundY, Extent))
    {
      lines := lines + [Segment(Point(x as real, GroundY, -Extent), Point(x as real, GroundY, Extent))];
      x := x + GridStep;
    }
  }

  function VertexPoint(v: Wireframe.Vertex): Point {
    Point(v.x as real, v.y as real, v.z as real)
  }

  /** Both ends of every edge are entries of the vertex table, and in range. */
  lemma EdgeEndsInRange(i: int)
    requires 0 <= i < |Wireframe.Edges|
    ensures Wireframe.ValidEdge(Wireframe.Edges[i], |Wireframe.Vertices|)
    ensures InRange(VertexPoint(Wireframe.Vertices[Wireframe.Edges[i].a]))
    ensures InRange(VertexPoint(Wireframe.Vertices[Wireframe.Edges[i].b]))
  {
    Wireframe.EdgesValid();
    Wireframe.VerticesExtent();
  }

  /** The car's edges projected at one angle: both ends of every edge are
      table entries, and each projects to a finite point with positive scale. */
  method CarSegments(t: Turn, c: Canvas) returns (segs: seq<(Projected, Projected)>)
    requires Bounded(t)
    ensures |segs| == |Wireframe.Edges|
    ensures forall i :: 0 <= i < |segs| ==> Visible(segs[i].0) && Visible(segs[i].1)
    ensures forall i :: 0 <= i < |segs| ==>
      && Wireframe.ValidEdge(Wireframe.Edges[i], |Wireframe.Vertices|)
      && segs[i].0 == Project(VertexPoint(Wireframe.Vertices[Wireframe.Edges[i].a]), t, c)
      && segs[i].1 == Project(VertexPoint(Wireframe.Vertices[Wireframe.Edges[i].b]), t, c)
  {
    var es := Wireframe.Edges;
    var vs := Wireframe.Vertices;
    segs := [];
    var i := 0;
    while i < |es|
      invariant 0 <= i <= |es|
      invariant |segs| == i
      invariant forall j :: 0 <= j < i ==> Visible(segs[j].0) && Visible(segs[j].1)
      invariant forall j :: 0 <= j < i ==>
        && Wireframe.ValidEdge(es[j], |vs|)
        && segs[j].0 == Project(VertexPoint(vs[es[j].a]), t, c)
        && segs[j].1 == Project(VertexPoint(vs[es[j].b]), t, c)
    {
      EdgeEndsInRange(i);
      var e := es[i];
      var p := VertexPoint(vs[e.a]);
      var q := VertexPoint(vs[e.b]);
      ProjectInRange(p, t, c);
      ProjectInRange(q, t, c);
      segs := segs + [(Project(p, t, c), Project(q, t, c))];
      i := i + 1;
    }
  }

  /** Centres of the four wheels: front left, front right, rear left, rear right. */
  const WheelCentres: seq<Point> := [
    Point(-38.0, 15.0, 60.0), Point(38.0, 15.0, 60.0),
    Point(-38.0, 15.0, -60.0), Point(38.0, 15.0, -60.0)
  ]

  const WheelRadius: real := 12.0

  /** The sample of a wheel's outline at an angle with cosine ct and sine st:
      the circle lies in the y-z plane at the wheel's x. */
  function WheelPoint(w: Point, ct: real, st: real): Point {
    Point(w.x, w.y + st * WheelRadius, w.z + ct * WheelRadius)
  }

  /** Every sample of every wheel outline is in range. */
  lemma WheelPointsInRange(i: int, ct: real, st: real)
    requires 0 <= i < |WheelCentres|
    requires -1.0 <= ct <= 1.0 && -1.0 <= st <= 1.0
    ensures InRange(WheelPoint(WheelCentres[i], ct, st))
    ensures Abs(WheelPoint(WheelCentres[i], ct, st).z) <= 72.0
  {
  }

  /** Height and depth of the scanner on the nose, slightly in front of it. */
  const NoseY: real := 5.0
  const NoseZ: real := 111.0

  /** The lit part of the scanner. */
  function LightSegment(s: Scanner.State): Segment {
    var ends := Scanner.LightEnds(s);
    Segment(Point(ends.0, NoseY, NoseZ), Point(ends.1, NoseY, NoseZ))
  }

  /** The dim housing, always drawn between the two nominal ends. */
  const Housing: Segment := Segment(Point(-Scanner.Reach, NoseY, NoseZ), Point(Scanner.Reach, NoseY, NoseZ))

  /** The scanner's points are in range whenever the sweep invariant holds,
      including the overshooting positions. */
  lemma ScannerInRange(s: Scanner.State)
    requires Scanner.Inv(s)
    ensures InRange(LightSegment(s).a) && InRange(LightSegment(s).b)
    ensures InRange(Housing.a) && InRange(Housing.b)
  {
    Scanner.LightBounds(s);
  }
}
