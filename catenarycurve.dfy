/** The catenary curve panel: a sketch holding a B-spline through 51 points of the
    catenary y = YStart + sag·(cosh(x/sag) − 1), optionally mirrored on the line y = x,
    closed by two lines back to the sketch's y-axis and origin; then a full revolution of
    the latest such sketch, and a shell of the latest revolution. */
module CatenaryCurve {
  import opened Wrappers
  import opened Text
  import opened Geometry
  import opened Doc

  const SketchName := "CatenaryCurveSketch"
  const RevolveName := "CatenaryRevolve"
  const ShellName := "CatenaryShell"
  const ShellType := "Part::Feature"
  /** `range(50 + 1)`: the number of poles, whatever NumPoints says */
  const PoleCount := 51
  const NoDocument := "No active document"
  const CurveDivisionByZero := "Error adding Catenary Curve sketch: float division by zero"
  const CurveOverflow := "Error adding Catenary Curve sketch: math range error"
  /** What `Part.LineSegment` raises for a line whose two end points are equal */
  const LineRefused := "Error adding Catenary Curve sketch: Both points are equal"
  const NoSketch := "No catenary sketch found to revolve"
  const ThicknessNotPositive := "Wall thickness must be greater than 0"
  const NoRevolve := "No revolve found to shell"
  const NoFaces := "Revolve has no faces to shell"
  /** The sketch stands upright: turned 90 degrees about x */
  const SketchPlacement := Placement(Origin, AboutX(90.0))

  /** The curve's parameters */
  datatype CatenaryParams = CatenaryParams(sag: real, xStart: real, xEnd: real, yStart: real, numPoints: int)

  // ---------------------------------------------------------------------------
  // The poles

  /** `XStart + (XEnd − XStart)·i / NumPoints` */
  function PoleX(c: CatenaryParams, i: nat): real
    requires c.numPoints != 0
  {
    c.xStart + (c.xEnd - c.xStart) * i as real / c.numPoints as real
  }

  /** `YStart + sag·(cosh(x / sag) − 1)` */
  function PoleY(m: MathLib, c: CatenaryParams, x: real): real
    requires c.sag != 0.0
  {
    c.yStart + c.sag * (m.cosh(x / c.sag) - 1.0)
  }

  /** Pole i, with x and y swapped when mirrored */
  function Pole(m: MathLib, c: CatenaryParams, mirror: bool, i: nat): Vec3
    requires c.numPoints != 0 && c.sag != 0.0
  {
    var x := PoleX(c, i);
    var y := PoleY(m, c, x);
    if mirror then Vec3(y, x, 0.0) else Vec3(x, y, 0.0)
  }

  /** The first k poles */
  function PolesUpTo(m: MathLib, c: CatenaryParams, mirror: bool, k: nat): (r: seq<Vec3>)
    requires c.numPoints != 0 && c.sag != 0.0
    ensures |r| == k
  {
    if k == 0 then [] else PolesUpTo(m, c, mirror, k - 1) + [Pole(m, c, mirror, k - 1)]
  }

  /** `math.cosh(x / sag)` overflows for one of the 51 poles */
  predicate CoshOverflows(m: MathLib, c: CatenaryParams)
    requires c.numPoints != 0 && c.sag != 0.0
  {
    exists i :: 0 <= i < PoleCount && m.coshOverflows(PoleX(c, i) / c.sag)
  }

  /** The poles; or the division by zero that a zero NumPoints or sag raises on the first
      pass, before any pole; or the OverflowError of `math.cosh` on the pass that
      overflows */
  function Poles(m: MathLib, c: CatenaryParams, mirror: bool): (r: Result<seq<Vec3>>)
    ensures r.Err? <==> c.numPoints == 0 || c.sag == 0.0 || CoshOverflows(m, c)
    ensures c.numPoints == 0 || c.sag == 0.0 ==> r == Err(CurveDivisionByZero)
    ensures c.numPoints != 0 && c.sag != 0.0 && r.Err? ==> r == Err(CurveOverflow)
    ensures r.Ok? ==> |r.value| == PoleCount
  {
    if c.numPoints == 0 || c.sag == 0.0 then Err(CurveDivisionByZero)
    else if CoshOverflows(m, c) then Err(CurveOverflow)
    else Ok(PolesUpTo(m, c, mirror, PoleCount))
  }

  /** Pole i of the first k is pole i. */
  lemma {:induction false} PolesUpToAt(m: MathLib, c: CatenaryParams, mirror: bool, k: nat, i: nat)
    requires c.numPoints != 0 && c.sag != 0.0 && i < k
    ensures PolesUpTo(m, c, mirror, k)[i] == Pole(m, c, mirror, i)
  {
    if i < k - 1 {
      PolesUpToAt(m, c, mirror, k - 1, i);
    }
  }

  /** There are always 51 poles, all in the sketch plane; unmirrored, pole i is the
      catenary's point over x_i, and mirrored it is that point with x and y swapped. */
  lemma PolesShape(m: MathLib, c: CatenaryParams, i: nat)
    requires Poles(m, c, false).Ok? && i < PoleCount
    ensures var ps := Poles(m, c, false).value;
            var qs := Poles(m, c, true).value;
            |ps| == |qs| == PoleCount &&
            ps[i] == Vec3(PoleX(c, i), PoleY(m, c, PoleX(c, i)), 0.0) &&
            qs[i] == Vec3(ps[i].y, ps[i].x, 0.0)
  {
    PolesUpToAt(m, c, false, PoleCount, i);
    PolesUpToAt(m, c, true, PoleCount, i);
  }

  /** The x values start at XStart and step evenly by (XEnd − XStart)/NumPoints, so
      NumPoints only scales x: x_NumPoints is XEnd when NumPoints is at most 50, and
      with the default 50 the last pole sits over XEnd. */
  lemma PoleXSpacing(c: CatenaryParams, i: nat)
    requires c.numPoints != 0
    ensures PoleX(c, 0) == c.xStart
    ensures PoleX(c, i + 1) - PoleX(c, i) == (c.xEnd - c.xStart) / c.numPoints as real
    ensures c.numPoints > 0 ==> PoleX(c, c.numPoints as nat) == c.xEnd
    ensures c.numPoints == 50 ==> PoleX(c, PoleCount - 1) == c.xEnd
  {
    var n := c.numPoints as real;
    var d := c.xEnd - c.xStart;
    assert d * (i + 1) as real / n - d * i as real / n == d / n by {
      assert d * (i + 1) as real == d * i as real + d;
    }
    if c.numPoints > 0 {
      assert d * c.numPoints as real / n == d;
    }
  }

  /** Where the curve crosses x = 0 it is at height YStart, as cosh(0) = 1. */
  lemma PoleYAtZero(m: MathLib, c: CatenaryParams)
    requires c.sag != 0.0 && m.cosh(0.0) == 1.0
    ensures PoleY(m, c, 0.0) == c.yStart
  {
    assert 0.0 / c.sag == 0.0;
  }

  /** Where both closing lines start: on the sketch's y-axis, level with the end */
  function ClosingStart(end: Vec3): Vec3 {
    Vec3(0.0, end.y, 0.0)
  }

  /** The two lines that close the curve: from (0, end.y) to the last pole and from
      (0, end.y) to the origin */
  function ClosingLines(end: Vec3): seq<Geo> {
    [Geo(LineSegment(ClosingStart(end), end), false), Geo(LineSegment(ClosingStart(end), Origin), false)]
  }

  /** `Part.LineSegment` refuses one of the closing lines: the first when the last pole
      is already on the y-axis, the second when the lines start at the origin */
  predicate ClosingRefused(end: Vec3) {
    ClosingStart(end) == end || ClosingStart(end) == Origin
  }

  /** A pole in the sketch plane is closed off exactly when neither of its coordinates
      is zero. */
  lemma ClosingRefusedOnAxes(end: Vec3)
    requires end.z == 0.0
    ensures ClosingRefused(end) <==> end.x == 0.0 || end.y == 0.0
  {
  }

  /** The sketch's geometry: the B-spline and its two closing lines */
  function CurveGeometry(poles: seq<Vec3>): (r: seq<Geo>)
    requires |poles| > 0
  {
    [Geo(BSpline(poles), false)] + ClosingLines(poles[|poles| - 1])
  }

  /** What the sketch holds when drawing ends: the B-spline, then the closing lines up to
      the one `Part.LineSegment` refuses */
  function DrawnGeometry(poles: seq<Vec3>): (r: seq<Geo>)
    requires |poles| > 0
    ensures !ClosingRefused(poles[|poles| - 1]) ==> r == CurveGeometry(poles)
    ensures ClosingRefused(poles[|poles| - 1]) ==>
              |r| < 3 && r == CurveGeometry(poles)[..|r|] &&
              (|r| == 2 <==> ClosingStart(poles[|poles| - 1]) != poles[|poles| - 1])
  {
    var end := poles[|poles| - 1];
    var spline := [Geo(BSpline(poles), false)];
    if ClosingStart(end) == end then spline
    else if ClosingStart(end) == Origin then spline + [Geo(LineSegment(ClosingStart(end), end), false)]
    else CurveGeometry(poles)
  }

  /** The closing lines start together on the y-axis, the first is horizontal and ends
      at the spline's last pole, and the second ends at the origin. */
  lemma CurveGeometryCloses(poles: seq<Vec3>)
    requires |poles| > 0 && forall k :: 0 <= k < |poles| ==> poles[k].z == 0.0
    ensures var g := CurveGeometry(poles);
            var end := poles[|poles| - 1];
            |g| == 3 && g[0].curve == BSpline(poles) &&
            g[1].curve.LineSegment? && g[2].curve.LineSegment? &&
            g[1].curve.start == g[2].curve.start && g[1].curve.start.x == 0.0 &&
            g[1].curve.start.y == g[1].curve.end.y && g[1].curve.end == end && g[2].curve.end == Origin &&
            forall k :: 0 <= k < 3 ==> !g[k].construction
  {
  }

  /** The 51 poles, one per pass: `for i in range(50 + 1)` appending to `poles`; a pass
      whose `math.cosh` overflows raises */
  method ComputePoles(m: MathLib, c: CatenaryParams, mirror: bool) returns (r: Result<seq<Vec3>>)
    requires c.numPoints != 0 && c.sag != 0.0
    ensures r == Poles(m, c, mirror)
  {
    var poles := [];
    var i: nat := 0;
    while i < PoleCount
      invariant 0 <= i <= PoleCount
      invariant poles == PolesUpTo(m, c, mirror, i)
      invariant forall j :: 0 <= j < i ==> !m.coshOverflows(PoleX(c, j) / c.sag)
    {
      var x := PoleX(c, i);
      if m.coshOverflows(x / c.sag) {
        return Err(CurveOverflow);
      }
      var y := PoleY(m, c, x);
      if mirror {
        x, y := y, x;
      }
      poles := poles + [Vec3(x, y, 0.0)];
      i := i + 1;
    }
    r := Ok(poles);
  }

  // ---------------------------------------------------------------------------
  // Looking up the latest object of a kind

  /** The last of the first n objects whose Name starts with the prefix */
  function LastWithPrefix(objs: seq<DocObject>, prefix: string, n: nat): (r: Option<nat>)
    requires n <= |objs|
    ensures r.Some? ==> r.value < n && StartsWith(objs[r.value].name, prefix)
    ensures r.Some? ==> forall j :: r.value < j < n ==> !StartsWith(objs[j].name, prefix)
    ensures r.None? <==> forall j :: 0 <= j < n ==> !StartsWith(objs[j].name, prefix)
  {
    if n == 0 then None
    else if StartsWith(objs[n - 1].name, prefix) then Some(n - 1)
    else LastWithPrefix(objs, prefix, n - 1)
  }

  /** `[obj for obj in doc.Objects if obj.Name.startswith(prefix)][-1]`, None when the
      list is empty */
  function Latest(objs: seq<DocObject>, prefix: string): Option<nat> {
    LastWithPrefix(objs, prefix, |objs|)
  }

  /** `max(faces, key=z)`: the first face whose centre is highest */
  function HighestFace(zs: seq<real>, n: nat): (r: nat)
    requires 0 < n <= |zs|
    ensures r < n
    ensures forall j :: 0 <= j < n ==> zs[j] <= zs[r]
    ensures forall j :: 0 <= j < r ==> zs[j] < zs[r]
  {
    if n == 1 then 0
    else
      var best := HighestFace(zs, n - 1);
      if zs[n - 1] > zs[best] then n - 1 else best
  }

  // ---------------------------------------------------------------------------
  // The buttons as functions of the document

  datatype Outcome<T> = Outcome(objs: seq<DocObject>, result: Result<T>)

  /** The new sketch, placed upright */
  function NewSketch(objs: seq<DocObject>): DocObject {
    NewObject(SketchType, FreshName(SketchName, Names(objs))).(placement := SketchPlacement)
  }

  /** "Button A" once a document is open: a new sketch, then its curve; a division by
      zero or an overflow leaves the empty sketch behind, and a refused closing line the
      geometry added before it. */
  function DrawCurve(objs: seq<DocObject>, m: MathLib, c: CatenaryParams, mirror: bool): (r: Outcome<nat>)
    ensures |r.objs| == |objs| + 1 && r.objs[..|objs|] == objs
    ensures r.objs[|objs|].typeId == SketchType && r.objs[|objs|].placement == SketchPlacement &&
            StartsWith(r.objs[|objs|].name, SketchName)
    ensures r.result.Ok? ==> r.result.value == |objs| && |r.objs[|objs|].geometry| == 3
  {
    var r := match Poles(m, c, mirror)
      case Err(e) => Outcome(objs + [NewSketch(objs)], Err(e))
      case Ok(ps) =>
        Outcome(objs + [NewSketch(objs).(geometry := DrawnGeometry(ps))],
                if ClosingRefused(ps[|ps| - 1]) then Err(LineRefused) else Ok(|objs|));
    assert r.objs[..|objs|] == objs;
    r
  }

  /** The revolution of the sketch Named `sketch`: a full turn about z through the origin */
  function CatenaryRevolution(name: string, sketch: string): DocObject {
    NewObject(RevolutionType, name).(shape := KernelShape,
      properties := map["Source" := TextValue(sketch), "Axis" := VectorValue(Vec3(0.0, 0.0, 1.0)),
                        "Base" := VectorValue(Origin), "Angle" := Quantity(360.0), "Solid" := BoolValue(true)])
  }

  /** "Revolve Catenary" once a document is open */
  function Revolve(objs: seq<DocObject>): (r: Outcome<nat>)
    ensures r.result.Err? ==> r.objs == objs
    ensures r.result.Ok? ==> r.result.value == |objs| && |r.objs| == |objs| + 1 && r.objs[..|objs|] == objs &&
                             StartsWith(r.objs[|objs|].name, RevolveName)
  {
    match Latest(objs, SketchName)
    case None => Outcome(objs, Err(NoSketch))
    case Some(s) =>
      var r := Outcome(objs + [CatenaryRevolution(FreshName(RevolveName, Names(objs)), objs[s].name)], Ok(|objs|));
      assert r.objs[..|objs|] == objs;
      r
  }

  /** Revolving needs a sketch whose Name starts with "CatenaryCurveSketch"; it then
      appends one full-turn revolution about z of the latest such sketch, and otherwise
      changes nothing. */
  lemma RevolveLatest(objs: seq<DocObject>)
    ensures var r := Revolve(objs);
            (r.result.Ok? <==> exists j :: 0 <= j < |objs| && StartsWith(objs[j].name, SketchName)) &&
            (r.result.Err? ==> r.objs == objs && r.result.message == NoSketch) &&
            (r.result.Ok? ==>
               var s := Latest(objs, SketchName).value;
               r.result.value == |objs| && |r.objs| == |objs| + 1 && r.objs[..|objs|] == objs &&
               StartsWith(objs[s].name, SketchName) &&
               (forall j :: s < j < |objs| ==> !StartsWith(objs[j].name, SketchName)) &&
               r.objs[|objs|].typeId == RevolutionType &&
               r.objs[|objs|].properties["Source"] == TextValue(objs[s].name) &&
               r.objs[|objs|].properties["Angle"] == Quantity(360.0))
  {
    var r := Revolve(objs);
    if r.result.Ok? {
      assert r.objs[..|objs|] == objs;
    }
  }

  /** What the shell is made from: the revolution, the face left open and the signed
      thickness */
  datatype ShellPlan = ShellPlan(revolve: nat, openFace: nat, thickness: real)

  /** The shell object; the thickening itself is the geometry kernel's */
  function CatenaryShell(name: string): DocObject {
    NewObject(ShellType, name).(shape := KernelShape)
  }

  /** "Shell Revolve" once a document is open, given the z of each face centre of the
      latest revolution */
  function Shell(objs: seq<DocObject>, wallThickness: real, faceZ: seq<real>): (r: Outcome<ShellPlan>)
    ensures r.result.Err? ==> r.objs == objs
    ensures r.result.Ok? ==> |r.objs| == |objs| + 1 && r.objs[..|objs|] == objs &&
                             r.result.value.revolve < |objs| && r.result.value.openFace < |faceZ|
  {
    if wallThickness <= 0.0 then Outcome(objs, Err(ThicknessNotPositive))
    else match Latest(objs, RevolveName)
      case None => Outcome(objs, Err(NoRevolve))
      case Some(v) =>
        if faceZ == [] then Outcome(objs, Err(NoFaces))
        else
          var r := Outcome(objs + [CatenaryShell(FreshName(ShellName, Names(objs)))],
                           Ok(ShellPlan(v, HighestFace(faceZ, |faceZ|), -wallThickness)));
          assert r.objs[..|objs|] == objs;
          r
  }

  /** The shell needs a positive wall thickness, a revolution and a face; it then adds
      one object, thickens inward by the wall thickness, and leaves open the highest face
      of the latest revolution. */
  lemma ShellChecks(objs: seq<DocObject>, wallThickness: real, faceZ: seq<real>)
    ensures var r := Shell(objs, wallThickness, faceZ);
            (r.result.Ok? <==> wallThickness > 0.0 && Latest(objs, RevolveName).Some? && faceZ != []) &&
            (r.result.Err? ==> r.objs == objs) &&
            (wallThickness <= 0.0 ==> r.result == Err(ThicknessNotPositive)) &&
            (r.result.Ok? ==>
               var p := r.result.value;
               |r.objs| == |objs| + 1 && r.objs[..|objs|] == objs &&
               r.objs[|objs|].typeId == ShellType && StartsWith(r.objs[|objs|].name, ShellName) &&
               p.thickness < 0.0 && -p.thickness == wallThickness &&
               StartsWith(objs[p.revolve].name, RevolveName) &&
               (forall j :: p.revolve < j < |objs| ==> !StartsWith(objs[j].name, RevolveName)) &&
               p.openFace < |faceZ| && (forall j :: 0 <= j < |faceZ| ==> faceZ[j] <= faceZ[p.openFace]))
  {
    var r := Shell(objs, wallThickness, faceZ);
    if r.result.Ok? {
      assert r.objs[..|objs|] == objs;
    }
  }

  /** A curve drawn, then revolved: the revolution is of the new sketch, which is
      upright and holds the B-spline through the 51 poles and its two closing lines. */
  lemma DrawThenRevolve(objs: seq<DocObject>, m: MathLib, c: CatenaryParams, mirror: bool)
    requires DrawCurve(objs, m, c, mirror).result.Ok?
    ensures var d := DrawCurve(objs, m, c, mirror);
            var s := d.objs[|objs|];
            var r := Revolve(d.objs);
            |d.objs| == |objs| + 1 && d.objs[..|objs|] == objs &&
            s.typeId == SketchType && s.placement == SketchPlacement &&
            s.geometry == CurveGeometry(Poles(m, c, mirror).value) && |Poles(m, c, mirror).value| == PoleCount &&
            r.result == Ok(|d.objs|) && r.objs[|d.objs|].properties["Source"] == TextValue(s.name)
  {
    var d := DrawCurve(objs, m, c, mirror);
    assert d.objs[..|objs|] == objs;
    assert StartsWith(d.objs[|objs|].name, SketchName);
  }

  /** Drawing fails exactly when NumPoints or sag is zero, a pole's `math.cosh`
      overflows, or a closing line is refused. The first two add only the empty upright
      sketch; a refused line leaves the B-spline, and the first line when it is the
      second that is refused. */
  lemma DrawCurveErrors(objs: seq<DocObject>, m: MathLib, c: CatenaryParams, mirror: bool)
    ensures var d := DrawCurve(objs, m, c, mirror);
            var ps := Poles(m, c, mirror);
            (d.result.Err? <==> c.numPoints == 0 || c.sag == 0.0 || CoshOverflows(m, c) ||
                                (ps.Ok? && ClosingRefused(ps.value[PoleCount - 1]))) &&
            (c.numPoints == 0 || c.sag == 0.0 ==> d.result == Err(CurveDivisionByZero)) &&
            (ps.Err? ==> d.objs == objs + [NewSketch(objs)] && d.objs[|objs|].geometry == []) &&
            (ps.Ok? && ClosingRefused(ps.value[PoleCount - 1]) ==>
               d.result == Err(LineRefused) && d.objs == objs + [NewSketch(objs).(geometry := DrawnGeometry(ps.value))] &&
               d.objs[|objs|].geometry[0] == Geo(BSpline(ps.value), false) && |d.objs[|objs|].geometry| < 3)
  {
  }

  /** With the default 50 points and XEnd = 0 the unmirrored curve ends on the y-axis,
      so the first closing line is refused and the sketch keeps only the B-spline. */
  lemma CurveEndingOnAxisIsRefused(objs: seq<DocObject>, m: MathLib, c: CatenaryParams)
    requires Poles(m, c, false).Ok? && c.numPoints == 50 && c.xEnd == 0.0
    ensures var d := DrawCurve(objs, m, c, false);
            d.result == Err(LineRefused) &&
            d.objs[|objs|].geometry == [Geo(BSpline(Poles(m, c, false).value), false)]
  {
    PolesShape(m, c, PoleCount - 1);
    PoleXSpacing(c, PoleCount - 1);
  }

  // ---------------------------------------------------------------------------
  // The panel

  /** The panel's fields */
  datatype CatenaryState = CatenaryState(sag: real, xStart: real, xEnd: real, yStart: real, numPoints: int, wallThickness: real)

  /** The panel's text boxes, in the order `update_values` reads them */
  datatype CatenaryInputs = CatenaryInputs(sag: string, xStart: string, xEnd: string, yStart: string, numPoints: string,
                                           wallThickness: string)

  function CurveParams(s: CatenaryState): CatenaryParams {
    CatenaryParams(s.sag, s.xStart, s.xEnd, s.yStart, s.numPoints)
  }

  /** How many of the converted boxes, from the first, hold a value (6 when all do) */
  function LeadingValues(a: Option<real>, b: Option<real>, c: Option<real>, d: Option<real>, e: Option<int>, f: Option<real>): (k: nat)
    ensures k <= 6
  {
    if a.None? then 0 else if b.None? then 1 else if c.None? then 2 else if d.None? then 3
    else if e.None? then 4 else if f.None? then 5 else 6
  }

  /** How many boxes, from the first, convert before one fails */
  function CatenaryFieldsParsed(inp: CatenaryInputs): (k: nat)
    ensures k <= 6
  {
    LeadingValues(ParseReal(inp.sag), ParseReal(inp.xStart), ParseReal(inp.xEnd), ParseReal(inp.yStart),
                  ParseInt(inp.numPoints), ParseReal(inp.wallThickness))
  }

  /** The fields after `update_values`, each box assigned in turn until one fails */
  function CatenaryUpdated(s: CatenaryState, inp: CatenaryInputs): CatenaryState {
    Assigned(s, ParseReal(inp.sag), ParseReal(inp.xStart), ParseReal(inp.xEnd), ParseReal(inp.yStart),
             ParseInt(inp.numPoints), ParseReal(inp.wallThickness))
  }

  /** The same on the boxes' converted values */
  function Assigned(s: CatenaryState, a: Option<real>, b: Option<real>, c: Option<real>, d: Option<real>, e: Option<int>,
                    f: Option<real>): CatenaryState {
    if a.None? then s else
    var s := s.(sag := a.value);
    if b.None? then s else
    var s := s.(xStart := b.value);
    if c.None? then s else
    var s := s.(xEnd := c.value);
    if d.None? then s else
    var s := s.(yStart := d.value);
    if e.None? then s else
    var s := s.(numPoints := e.value);
    if f.None? then s else s.(wallThickness := f.value)
  }

  /** A field takes its box's value exactly when that box and every one before it
      converted; the rest keep their old values. */
  lemma AssignedFields(s: CatenaryState, a: Option<real>, b: Option<real>, c: Option<real>, d: Option<real>, e: Option<int>,
                       f: Option<real>)
    ensures var u := Assigned(s, a, b, c, d, e, f);
            var k := LeadingValues(a, b, c, d, e, f);
            u.sag == (if k > 0 then a.value else s.sag) &&
            u.xStart == (if k > 1 then b.value else s.xStart) &&
            u.xEnd == (if k > 2 then c.value else s.xEnd) &&
            u.yStart == (if k > 3 then d.value else s.yStart) &&
            u.numPoints == (if k > 4 then e.value else s.numPoints) &&
            u.wallThickness == (if k > 5 then f.value else s.wallThickness)
  {
  }

  /** `update_values` on the panel's text: the fields of `AssignedFields` with the boxes' conversions */
  lemma CatenaryUpdatedFields(s: CatenaryState, inp: CatenaryInputs)
    ensures var u := CatenaryUpdated(s, inp);
            var k := CatenaryFieldsParsed(inp);
            u.sag == (if k > 0 then ParseReal(inp.sag).value else s.sag) &&
            u.xStart == (if k > 1 then ParseReal(inp.xStart).value else s.xStart) &&
            u.xEnd == (if k > 2 then ParseReal(inp.xEnd).value else s.xEnd) &&
            u.yStart == (if k > 3 then ParseReal(inp.yStart).value else s.yStart) &&
            u.numPoints == (if k > 4 then ParseInt(inp.numPoints).value else s.numPoints) &&
            u.wallThickness == (if k > 5 then ParseReal(inp.wallThickness).value else s.wallThickness)
  {
    AssignedFields(s, ParseReal(inp.sag), ParseReal(inp.xStart), ParseReal(inp.xEnd), ParseReal(inp.yStart),
                   ParseInt(inp.numPoints), ParseReal(inp.wallThickness));
  }

  /** The B-spline through the poles, then the line from (0, end.y) to the last pole and
      the line from (0, end.y) to the origin, each line built before it is added and a
      refused one ending the drawing */
  method AddCurveGeometry(doc: Document, i: nat, poles: seq<Vec3>) returns (refused: bool)
    requires doc.Valid() && i < |doc.objects| && |poles| > 0
    modifies doc
    ensures doc.Valid()
    ensures refused == ClosingRefused(poles[|poles| - 1])
    ensures doc.objects == old(doc.objects)[i := old(doc.objects)[i].(geometry := old(doc.objects)[i].geometry + DrawnGeometry(poles))]
  {
    ghost var o := doc.objects[i];
    doc.SetObject(i, doc.objects[i].(geometry := doc.objects[i].geometry + [Geo(BSpline(poles), false)]));
    var end := poles[|poles| - 1];
    var start := Vec3(0.0, end.y, 0.0);
    if start == end {
      assert doc.objects[i].geometry == o.geometry + DrawnGeometry(poles);
      return true;
    }
    doc.SetObject(i, doc.objects[i].(geometry := doc.objects[i].geometry + [Geo(LineSegment(start, end), false)]));
    if start == Origin {
      assert doc.objects[i].geometry == o.geometry + DrawnGeometry(poles);
      return true;
    }
    doc.SetObject(i, doc.objects[i].(geometry := doc.objects[i].geometry + [Geo(LineSegment(start, Origin), false)]));
    assert doc.objects[i].geometry == o.geometry + DrawnGeometry(poles);
    refused := false;
  }

  class CatenaryCurvePanel {
    var sag: real
    var xStart: real
    var xEnd: real
    var yStart: real
    var numPoints: int
    var wallThickness: real

    constructor ()
      ensures State() == CatenaryState(250.0, 0.0, 300.0, 0.0, 50, 0.0)
    {
      sag := 250.0;
      xStart := 0.0;
      xEnd := 300.0;
      yStart := 0.0;
      numPoints := 50;
      wallThickness := 0.0;
    }

    function State(): CatenaryState
      reads this
    {
      CatenaryState(sag, xStart, xEnd, yStart, numPoints, wallThickness)
    }

    /** `update_values`: a ValueError ends the assignments and is swallowed */
    method UpdateValues(inp: CatenaryInputs)
      modifies this
      ensures State() == CatenaryUpdated(old(State()), inp)
    {
      var v := ParseReal(inp.sag);
      if v.None? { return; }
      sag := v.value;
      v := ParseReal(inp.xStart);
      if v.None? { return; }
      xStart := v.value;
      v := ParseReal(inp.xEnd);
      if v.None? { return; }
      xEnd := v.value;
      v := ParseReal(inp.yStart);
      if v.None? { return; }
      yStart := v.value;
      var n := ParseInt(inp.numPoints);
      if n.None? { return; }
      numPoints := n.value;
      v := ParseReal(inp.wallThickness);
      if v.None? { return; }
      wallThickness := v.value;
    }

    /** "Button A": the values updated, then the curve's sketch. A zero NumPoints or sag
        raises on the loop's first pass, before any pole: the check is made up front. */
    method BtA(doc: Document, hasDoc: bool, m: MathLib, inp: CatenaryInputs, mirror: bool) returns (r: Result<nat>)
      requires doc.Valid()
      modifies this, doc
      ensures doc.Valid()
      ensures State() == CatenaryUpdated(old(State()), inp)
      ensures !hasDoc ==> r == Err(NoDocument) && doc.objects == old(doc.objects)
      ensures hasDoc ==> Outcome(doc.objects, r) == DrawCurve(old(doc.objects), m, CurveParams(State()), mirror)
    {
      UpdateValues(inp);
      if !hasDoc {
        return Err(NoDocument);
      }
      ghost var before := doc.objects;
      var i := doc.AddObject(SketchType, SketchName);
      doc.SetObject(i, doc.objects[i].(placement := SketchPlacement));
      assert doc.objects == before + [NewSketch(before)];
      var c := CatenaryParams(sag, xStart, xEnd, yStart, numPoints);
      if numPoints == 0 || sag == 0.0 {
        return Err(CurveDivisionByZero);
      }
      var computed := ComputePoles(m, c, mirror);
      if computed.Err? {
        return Err(computed.message);
      }
      var poles := computed.value;
      assert doc.objects[i].geometry == [] && [] + DrawnGeometry(poles) == DrawnGeometry(poles);
      var refused := AddCurveGeometry(doc, i, poles);
      assert doc.objects == before + [NewSketch(before).(geometry := DrawnGeometry(poles))];
      if refused {
        return Err(LineRefused);
      }
      r := Ok(i);
    }

    /** "Revolve Catenary" */
    method BtRevolve(doc: Document, hasDoc: bool) returns (r: Result<nat>)
      requires doc.Valid()
      modifies doc
      ensures doc.Valid()
      ensures !hasDoc ==> r == Err(NoDocument) && doc.objects == old(doc.objects)
      ensures hasDoc ==> Outcome(doc.objects, r) == Revolve(old(doc.objects))
    {
      if !hasDoc {
        return Err(NoDocument);
      }
      var s := Latest(doc.objects, SketchName);
      if s.None? {
        return Err(NoSketch);
      }
      var sketch := doc.objects[s.value].name;
      var v := doc.AddObject(RevolutionType, RevolveName);
      doc.SetObject(v, CatenaryRevolution(doc.objects[v].name, sketch));
      r := Ok(v);
    }

    /** "Shell Revolve": the values updated, then the checks and the shell */
    method BtShell(doc: Document, hasDoc: bool, inp: CatenaryInputs, faceZ: seq<real>) returns (r: Result<ShellPlan>)
      requires doc.Valid()
      modifies this, doc
      ensures doc.Valid()
      ensures State() == CatenaryUpdated(old(State()), inp)
      ensures !hasDoc ==> r == Err(NoDocument) && doc.objects == old(doc.objects)
      ensures hasDoc ==> Outcome(doc.objects, r) == Shell(old(doc.objects), wallThickness, faceZ)
    {
      UpdateValues(inp);
      if !hasDoc {
        return Err(NoDocument);
      }
      if wallThickness <= 0.0 {
        return Err(ThicknessNotPositive);
      }
      var v := Latest(doc.objects, RevolveName);
      if v.None? {
        return Err(NoRevolve);
      }
      if faceZ == [] {
        return Err(NoFaces);
      }
      var openFace := HighestFace(faceZ, |faceZ|);
      var thickness := -(if wallThickness < 0.0 then -wallThickness else wallThickness);
      assert thickness == -wallThickness;
      ghost var before := doc.objects;
      var k := doc.AddObject(ShellType, ShellName);
      doc.SetObject(k, CatenaryShell(doc.objects[k].name));
      assert doc.objects == before + [CatenaryShell(FreshName(ShellName, Names(before)))];
      r := Ok(ShellPlan(v.value, openFace, thickness));
    }
  }
}
