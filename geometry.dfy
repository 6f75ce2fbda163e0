/** The geometric vocabulary of the host CAD system as the workbench uses it: vectors,
    placements, sketch curves and sketch constraints. */
module Geometry {

  datatype Vec3 = Vec3(x: real, y: real, z: real)

  const Origin := Vec3(0.0, 0.0, 0.0)

  /** A point in a sketch's own plane */
  function P2(x: real, y: real): Vec3 {
    Vec3(x, y, 0.0)
  }

  /** The rotation Rz(zAngle) composed after Rx(xTilt), both in degrees. Every rotation
      the workbench builds or composes has this form: rotations about z (segment arrays,
      ring staggers), a 90 degree tilt about x (profile sketches and image planes), and
      the identity. The angles are kept as given, not reduced modulo 360. */
  datatype Rotation = Rotation(zAngle: real, xTilt: real)

  const Identity := Rotation(0.0, 0.0)

  function AboutZ(degrees: real): Rotation {
    Rotation(degrees, 0.0)
  }

  function AboutX(degrees: real): Rotation {
    Rotation(0.0, degrees)
  }

  /** `Rotation(Vector(0,0,1), degrees).multiply(r)`: the z rotation applied after r. */
  function ComposeZ(degrees: real, r: Rotation): (c: Rotation)
    ensures c.xTilt == r.xTilt
    ensures c.zAngle - r.zAngle == degrees
  {
    Rotation(r.zAngle + degrees, r.xTilt)
  }

  /** Composing z rotations adds their angles, in either order. */
  lemma ComposeZAdds(a: real, b: real, r: Rotation)
    ensures ComposeZ(a, ComposeZ(b, r)) == ComposeZ(a + b, r) == ComposeZ(b, ComposeZ(a, r))
    ensures ComposeZ(0.0, r) == r
  {
  }

  datatype Placement = Placement(base: Vec3, rotation: Rotation)

  const IdentityPlacement := Placement(Origin, Identity)

  /** The parts of Python's `math` module the workbench calls, passed in as values
      (angles in radians). `coshOverflows(x)` says whether `math.cosh(x)` raises an
      OverflowError, as it does in double precision once |x| exceeds about 710.48. */
  datatype MathLib = MathLib(
    pi: real,
    sin: real -> real,
    cos: real -> real,
    tan: real -> real,
    cosh: real -> real,
    coshOverflows: real -> bool)

  /** `math.radians` */
  function Radians(m: MathLib, degrees: real): real {
    degrees * m.pi / 180.0
  }

  /** Sketch geometry */
  datatype Curve =
    | Point(at: Vec3)
    | LineSegment(start: Vec3, end: Vec3)
    | Circle(center: Vec3, radius: real)
    | BSpline(poles: seq<Vec3>)

  /** A sketch geometry with its construction flag (`addGeometry(g, True)`) */
  datatype Geo = Geo(curve: Curve, construction: bool)

  /** Sketch constraints, each naming geometries by their index in the sketch;
      -1 is the sketch's horizontal axis (whose start is the origin), -2 its vertical
      axis; point positions are 1 = start, 2 = end, 3 = centre. */
  datatype Constraint =
    | Coincident(first: int, firstPos: int, second: int, secondPos: int)
    | Radius(geo: int, value: real)
    | PointOnObject(point: int, pos: int, onGeo: int)
    | Horizontal(geo: int)
    | DistanceY(first: int, firstPos: int, second: int, secondPos: int, value: real)
    | Angle(first: int, second: int, value: real)

  /** A closed polyline: at least two vertices and the last is the first */
  predicate ClosedPolyline(vs: seq<Vec3>) {
    |vs| >= 2 && vs[0] == vs[|vs| - 1]
  }

  /** Mirror image in the sketch's x-axis */
  function MirrorY(v: Vec3): Vec3 {
    Vec3(v.x, -v.y, v.z)
  }

  /** Every vertex has its mirror image in the x-axis among the vertices */
  predicate SymmetricAboutXAxis(vs: seq<Vec3>) {
    forall k :: 0 <= k < |vs| ==> MirrorY(vs[k]) in vs
  }

  /** Straight lines around a closed loop of vertices, the last back to the first */
  function Loop(vs: seq<Vec3>): (g: seq<Geo>)
    requires |vs| >= 1
    ensures |g| == |vs|
    ensures forall k :: 0 <= k < |vs| ==> g[k] == Geo(LineSegment(vs[k], vs[(k + 1) % |vs|]), false)
  {
    seq(|vs|, k requires 0 <= k < |vs| => Geo(LineSegment(vs[k], vs[(k + 1) % |vs|]), false))
  }

  /** End of line k on the start of line k + 1, around a loop of four lines */
  const QuadCoincidences: seq<Constraint> :=
    [Coincident(0, 2, 1, 1), Coincident(1, 2, 2, 1), Coincident(2, 2, 3, 1), Coincident(3, 2, 0, 1)]

  /** A coincidence of one line's end (position 2) with another's start (position 1) */
  predicate CoincidenceHolds(geo: seq<Geo>, c: Constraint) {
    c.Coincident? && c.firstPos == 2 && c.secondPos == 1 &&
    0 <= c.first < |geo| && 0 <= c.second < |geo| &&
    geo[c.first].curve.LineSegment? && geo[c.second].curve.LineSegment? &&
    geo[c.first].curve.end == geo[c.second].curve.start
  }

  /** The four coincidences close a loop of four lines. */
  lemma QuadLoopClosed(vs: seq<Vec3>)
    requires |vs| == 4
    ensures forall c :: c in QuadCoincidences ==> CoincidenceHolds(Loop(vs), c)
  {
    var g := Loop(vs);
    assert g[0].curve.end == g[1].curve.start && g[1].curve.end == g[2].curve.start;
    assert g[2].curve.end == g[3].curve.start && g[3].curve.end == g[0].curve.start;
  }
}
