/** The wedge generator: a sketch of the tapered wedge that fills the gap between two
    segments of a ring of N, drawn as an outer trapezoid, closed by coincident
    constraints, and an inner outline set in from it by the offset distance. */
module WedgeGenerator {
  import opened Wrappers
  import opened Geometry
  import opened Text
  import opened Doc

  const WedgeSketchName := "wedge"
  const NoDocument := "'NoneType' object has no attribute 'addObject'"
  const DivisionByZero := "float division by zero"
  const NotANumber := "could not convert string to float"

  /** `360 / number_of_segments`: the angle of one segment, in degrees */
  function SegmentAngle(n: int): real
    requires n != 0
  {
    360.0 / n as real
  }

  /** Half a segment's angle, in radians: how far each long side of the wedge turns away
      from the axis */
  function HalfAngle(m: MathLib, n: int): real
    requires n != 0
  {
    Radians(m, SegmentAngle(n) / 2.0)
  }

  /** The outer trapezoid p1, p2, p3, p4 for a wedge of length `len` whose short end is
      `width` wide and whose sides open with slope t */
  function OuterVertices(len: real, width: real, t: real): (vs: seq<Vec3>)
    ensures |vs| == 4
  {
    var yLong := width / 2.0 + len * t;
    [P2(0.0, -width / 2.0), P2(0.0, width / 2.0), P2(len, yLong), P2(len, -yLong)]
  }

  /** The inner outline p5, p6, p7, p8 as written: its short end taken from the outer
      short end (at x = 0) moved in by d, its long end from the outer side at x = len - d */
  function InnerVerticesAsWritten(len: real, width: real, d: real, t: real): (vs: seq<Vec3>)
    ensures |vs| == 4
  {
    var offsetSmall := width / 2.0 - d;
    var yLongOffset := offsetSmall + (len - d) * t;
    [P2(d, -offsetSmall), P2(d, offsetSmall), P2(len - d, yLongOffset), P2(len - d, -yLongOffset)]
  }

  /** The inner outline with both ends read from the outer side at their own x, so that
      every inner vertex sits d inside the outer side */
  function InnerVertices(len: real, width: real, d: real, t: real): (vs: seq<Vec3>)
    ensures |vs| == 4
  {
    var yShortOffset := width / 2.0 - d + d * t;
    var yLongOffset := width / 2.0 - d + (len - d) * t;
    [P2(d, -yShortOffset), P2(d, yShortOffset), P2(len - d, yLongOffset), P2(len - d, -yLongOffset)]
  }

  /** The height of the outer top side above the axis at x */
  function OuterSideAt(width: real, t: real, x: real): real {
    width / 2.0 + x * t
  }

  /** The outer loop: the short end at x = 0, width wide about the axis, the long end at
      x = len, and the two long sides both running at slope t away from the axis, so that
      the wedge opens by the full segment angle. */
  lemma OuterShape(len: real, width: real, t: real)
    ensures var vs := OuterVertices(len, width, t);
            vs[0].x == vs[1].x == 0.0 && vs[1].y - vs[0].y == width &&
            vs[2].x == vs[3].x == len &&
            vs[1].y == OuterSideAt(width, t, vs[1].x) && vs[2].y == OuterSideAt(width, t, vs[2].x) &&
            vs[0].y == -OuterSideAt(width, t, vs[0].x) && vs[3].y == -OuterSideAt(width, t, vs[3].x)
  {
  }

  /** Every vertex of either outline has its mirror image in the axis among the outline's
      vertices, at the same x. */
  lemma OutlinesSymmetric(len: real, width: real, d: real, t: real)
    ensures SymmetricAboutXAxis(OuterVertices(len, width, t))
    ensures SymmetricAboutXAxis(InnerVerticesAsWritten(len, width, d, t))
    ensures SymmetricAboutXAxis(InnerVertices(len, width, d, t))
  {
    var o := OuterVertices(len, width, t);
    assert MirrorY(o[0]) == o[1] && MirrorY(o[1]) == o[0] && MirrorY(o[2]) == o[3] && MirrorY(o[3]) == o[2];
    var a := InnerVerticesAsWritten(len, width, d, t);
    assert MirrorY(a[0]) == a[1] && MirrorY(a[1]) == a[0] && MirrorY(a[2]) == a[3] && MirrorY(a[3]) == a[2];
    var c := InnerVertices(len, width, d, t);
    assert MirrorY(c[0]) == c[1] && MirrorY(c[1]) == c[0] && MirrorY(c[2]) == c[3] && MirrorY(c[3]) == c[2];
  }

  /** The cross product of two edges' directions in the sketch plane: zero exactly when
      the edges are parallel */
  function Cross(a0: Vec3, a1: Vec3, b0: Vec3, b1: Vec3): real {
    (a1.x - a0.x) * (b1.y - b0.y) - (a1.y - a0.y) * (b1.x - b0.x)
  }

  /** As written, the top inner side p6 → p7 is parallel to the outer one p2 → p3 only
      when the wedge does not open (t = 0), has no length or has no offset: the cross
      product of their directions is len · t · d. */
  lemma InnerSideTiltsAsWritten(len: real, width: real, d: real, t: real)
    ensures var o := OuterVertices(len, width, t);
            var i := InnerVerticesAsWritten(len, width, d, t);
            Cross(o[1], o[2], i[1], i[2]) == len * t * d
    ensures len != 0.0 && t != 0.0 && d != 0.0 ==>
            var o := OuterVertices(len, width, t);
            var i := InnerVerticesAsWritten(len, width, d, t);
            Cross(o[1], o[2], i[1], i[2]) != 0.0
  {
    var o := OuterVertices(len, width, t);
    var i := InnerVerticesAsWritten(len, width, d, t);
    assert o[2].x - o[1].x == len && o[2].y - o[1].y == len * t;
    assert i[2].x - i[1].x == len - 2.0 * d && i[2].y - i[1].y == (len - d) * t;
    assert len * ((len - d) * t) - (len * t) * (len - 2.0 * d) == len * t * d;
    if len != 0.0 && t != 0.0 && d != 0.0 {
      assert len * t != 0.0;
      assert (len * t) * d != 0.0;
    }
  }

  /** Corrected, the inner outline is the outer one set in by d: its ends are d inside
      the outer ends, every inner side vertex sits d below the outer side at its own x,
      and the inner sides are parallel to the outer ones. */
  lemma InnerOutlineOffset(len: real, width: real, d: real, t: real)
    ensures var o := OuterVertices(len, width, t);
            var i := InnerVertices(len, width, d, t);
            i[0].x == i[1].x == o[0].x + d && i[2].x == i[3].x == o[2].x - d &&
            i[1].y == OuterSideAt(width, t, i[1].x) - d && i[2].y == OuterSideAt(width, t, i[2].x) - d &&
            i[0].y == -(OuterSideAt(width, t, i[0].x) - d) && i[3].y == -(OuterSideAt(width, t, i[3].x) - d) &&
            Cross(o[1], o[2], i[1], i[2]) == 0.0 && Cross(o[3], o[0], i[3], i[0]) == 0.0
  {
    var o := OuterVertices(len, width, t);
    var i := InnerVertices(len, width, d, t);
    assert i[2].y - i[1].y == (len - 2.0 * d) * t;
    assert len * ((len - 2.0 * d) * t) - (len * t) * (len - 2.0 * d) == 0.0;
    assert o[0].x - o[3].x == -len && o[0].y - o[3].y == len * t;
    assert i[0].x - i[3].x == -(len - 2.0 * d) && i[0].y - i[3].y == (len - 2.0 * d) * t;
    assert (-len) * ((len - 2.0 * d) * t) - (len * t) * (-(len - 2.0 * d)) == 0.0;
  }

  /** The wedge sketch: the outer loop's four lines, then the inner loop's four */
  function WedgeGeometry(len: real, width: real, d: real, t: real): (g: seq<Geo>)
    ensures |g| == 8
  {
    Loop(OuterVertices(len, width, t)) + Loop(InnerVertices(len, width, d, t))
  }

  /** The outer loop is closed by its constraints, and each loop's lines join end to
      start, around and back to the first. */
  lemma WedgeLoopsClosed(len: real, width: real, d: real, t: real)
    ensures var geo := WedgeGeometry(len, width, d, t);
            (forall c :: c in QuadCoincidences ==> CoincidenceHolds(geo, c)) &&
            forall k :: 0 <= k < 8 ==>
              geo[k].curve.LineSegment? && geo[k].curve.end == geo[if k % 4 == 3 then k - 3 else k + 1].curve.start
  {
    var geo := WedgeGeometry(len, width, d, t);
    var o := Loop(OuterVertices(len, width, t));
    var i := Loop(InnerVertices(len, width, d, t));
    forall k | 0 <= k < 8
      ensures geo[k].curve.LineSegment? && geo[k].curve.end == geo[if k % 4 == 3 then k - 3 else k + 1].curve.start
    {
      if k < 4 {
        assert geo[k] == o[k];
        assert geo[if k % 4 == 3 then k - 3 else k + 1] == o[(k + 1) % 4];
      } else {
        assert geo[k] == i[k - 4];
        assert geo[if k % 4 == 3 then k - 3 else k + 1] == i[(k - 4 + 1) % 4];
      }
    }
    assert geo[0] == o[0] && geo[1] == o[1] && geo[2] == o[2] && geo[3] == o[3];
  }

  /** The panel's text boxes */
  datatype WedgeInputs = WedgeInputs(length: string, smallEndWidth: string, segments: string, thickness: string, offset: string)

  class WedgeGeneratorPanel {
    var wedgeLength: real
    var wedgeSmallEndWidth: real
    var numberOfSegments: int
    var wedgeThickness: real
    var offsetDistance: real

    constructor ()
      ensures wedgeLength == 100.0 && wedgeSmallEndWidth == 50.0 && numberOfSegments == 16
      ensures wedgeThickness == 10.0 && offsetDistance == 12.7
    {
      wedgeLength := 100.0;
      wedgeSmallEndWidth := 50.0;
      numberOfSegments := 16;
      wedgeThickness := 10.0;
      offsetDistance := 12.7;
    }

    /** `update_values`: each box converted in turn, a failure stopping there with the
        earlier values taken */
    method UpdateValues(inp: WedgeInputs) returns (ok: bool)
      modifies this
      ensures ok <==> ParseReal(inp.length).Some? && ParseReal(inp.smallEndWidth).Some? && ParseInt(inp.segments).Some? &&
                      ParseReal(inp.thickness).Some? && ParseReal(inp.offset).Some?
      ensures wedgeLength == ParseReal(inp.length).GetOr(old(wedgeLength))
      ensures wedgeSmallEndWidth == if ParseReal(inp.length).Some? then ParseReal(inp.smallEndWidth).GetOr(old(wedgeSmallEndWidth)) else old(wedgeSmallEndWidth)
      ensures numberOfSegments ==
        if ParseReal(inp.length).Some? && ParseReal(inp.smallEndWidth).Some?
        then ParseInt(inp.segments).GetOr(old(numberOfSegments)) else old(numberOfSegments)
      ensures wedgeThickness ==
        if ParseReal(inp.length).Some? && ParseReal(inp.smallEndWidth).Some? && ParseInt(inp.segments).Some?
        then ParseReal(inp.thickness).GetOr(old(wedgeThickness)) else old(wedgeThickness)
      ensures offsetDistance ==
        if ParseReal(inp.length).Some? && ParseReal(inp.smallEndWidth).Some? && ParseInt(inp.segments).Some? && ParseReal(inp.thickness).Some?
        then ParseReal(inp.offset).GetOr(old(offsetDistance)) else old(offsetDistance)
    {
      var len := ParseReal(inp.length);
      if len.None? { return false; }
      wedgeLength := len.value;
      var w := ParseReal(inp.smallEndWidth);
      if w.None? { return false; }
      wedgeSmallEndWidth := w.value;
      var n := ParseInt(inp.segments);
      if n.None? { return false; }
      numberOfSegments := n.value;
      var th := ParseReal(inp.thickness);
      if th.None? { return false; }
      wedgeThickness := th.value;
      var d := ParseReal(inp.offset);
      if d.None? { return false; }
      offsetDistance := d.value;
      ok := true;
    }

    /** `bt_make_wedge`: the values read, a new sketch added, then its eight lines and the
        outer loop's four coincidences. Every error is caught and reported; a segment
        count of 0 fails after the sketch was added, so leaves it empty. Returns the
        sketch's index. */
    method BtMakeWedge(doc: Document, hasDoc: bool, m: MathLib, inp: WedgeInputs) returns (r: Result<nat>)
      requires doc.Valid()
      modifies this, doc
      ensures doc.Valid()
      ensures wedgeLength == ParseReal(inp.length).GetOr(old(wedgeLength))
      ensures wedgeSmallEndWidth == if ParseReal(inp.length).Some? then ParseReal(inp.smallEndWidth).GetOr(old(wedgeSmallEndWidth)) else old(wedgeSmallEndWidth)
      ensures numberOfSegments ==
        if ParseReal(inp.length).Some? && ParseReal(inp.smallEndWidth).Some?
        then ParseInt(inp.segments).GetOr(old(numberOfSegments)) else old(numberOfSegments)
      ensures wedgeThickness ==
        if ParseReal(inp.length).Some? && ParseReal(inp.smallEndWidth).Some? && ParseInt(inp.segments).Some?
        then ParseReal(inp.thickness).GetOr(old(wedgeThickness)) else old(wedgeThickness)
      ensures offsetDistance ==
        if ParseReal(inp.length).Some? && ParseReal(inp.smallEndWidth).Some? && ParseInt(inp.segments).Some? && ParseReal(inp.thickness).Some?
        then ParseReal(inp.offset).GetOr(old(offsetDistance)) else old(offsetDistance)
      ensures r.Ok? <==> hasDoc && ParseInt(inp.segments).Some? && ParseInt(inp.segments).value != 0 &&
                         ParseReal(inp.length).Some? && ParseReal(inp.smallEndWidth).Some? &&
                         ParseReal(inp.thickness).Some? && ParseReal(inp.offset).Some?
      ensures var added := NewObject(SketchType, FreshName(WedgeSketchName, Names(old(doc.objects))));
              if r.Ok? then
                r.value == |old(doc.objects)| &&
                numberOfSegments != 0 &&
                doc.objects == old(doc.objects) +
                  [added.(geometry := WedgeGeometry(wedgeLength, wedgeSmallEndWidth, offsetDistance, m.tan(HalfAngle(m, numberOfSegments))),
                          constraints := QuadCoincidences)]
              else if hasDoc && ParseInt(inp.segments) == Some(0) && ParseReal(inp.length).Some? && ParseReal(inp.smallEndWidth).Some? &&
                      ParseReal(inp.thickness).Some? && ParseReal(inp.offset).Some?
              then doc.objects == old(doc.objects) + [added]
              else doc.objects == old(doc.objects)
    {
      var ok := UpdateValues(inp);
      if !ok {
        return Err(NotANumber);
      }
      r := AddWedgeSketch(doc, hasDoc, m);
    }

    /** The part of `bt_make_wedge` after the values are read */
    method AddWedgeSketch(doc: Document, hasDoc: bool, m: MathLib) returns (r: Result<nat>)
      requires doc.Valid()
      modifies doc
      ensures doc.Valid()
      ensures r.Ok? <==> hasDoc && numberOfSegments != 0
      ensures var added := NewObject(SketchType, FreshName(WedgeSketchName, Names(old(doc.objects))));
              if r.Ok? then
                r.value == |old(doc.objects)| &&
                doc.objects == old(doc.objects) +
                  [added.(geometry := WedgeGeometry(wedgeLength, wedgeSmallEndWidth, offsetDistance, m.tan(HalfAngle(m, numberOfSegments))),
                          constraints := QuadCoincidences)]
              else if hasDoc then r == Err(DivisionByZero) && doc.objects == old(doc.objects) + [added]
              else r == Err(NoDocument) && doc.objects == old(doc.objects)
    {
      if !hasDoc {
        return Err(NoDocument);
      }
      var s := doc.AddObject(SketchType, WedgeSketchName);
      if numberOfSegments == 0 {
        return Err(DivisionByZero);
      }
      var t := m.tan(HalfAngle(m, numberOfSegments));
      doc.SetObject(s, doc.objects[s].(geometry := WedgeGeometry(wedgeLength, wedgeSmallEndWidth, offsetDistance, t),
                                       constraints := QuadCoincidences));
      return Ok(s);
    }
  }
}
