/** The profile-points panel: it fills the "BowlProfileSketch" with one horizontal
    construction line per layer of the bowl and one profile point on each, to be dragged
    into the bowl's shape before the segments are built. */
module BowlConstructionLines {
  import opened Wrappers
  import opened Geometry
  import opened Text
  import opened Numbers
  import opened Doc
  import opened VarSet

  const ProfileSketchName := "BowlProfileSketch"
  const NoDocument := "No active document. Please open a document first."
  const DivisionByZero := "float division by zero"
  const NoSketch := "'NoneType' object has no attribute 'Geometry'"
  const Unsupported := "unsupported operand type(s)"

  /** How far the layer lines reach past the bowl radius, and how far each profile point
      sits further out than the one below it (mm) */
  const LineOverhang := 25.0
  const PointStep := 5.0

  // ---------------------------------------------------------------------------
  // Opening the panel

  /** The var-set created when a document has none */
  function DefaultVariables(): map<string, Value> {
    map["NumSegments" := IntValue(12), "BowlHeight" := Quantity(254.0), "BowlWidth" := Quantity(100.0),
        "LayerHeight" := Quantity(25.4), "RotateAngle" := Quantity(15.0), "WallThickness" := Quantity(10.0)]
  }

  /** The panel's numbers */
  datatype Settings = Settings(bowlHeight: real, bowlRadius: real, layerHeight: real)

  const DefaultSettings := Settings(254.0, 127.0, 25.4)

  /** A property as Python arithmetic takes it: a number, or None for anything else */
  function AsNumber(v: Option<Value>): (r: Option<real>)
    ensures r.Some? <==> v.Some? && (v.value.IntValue? || v.value.FloatValue?)
    ensures v.Some? && v.value.FloatValue? ==> r == Some(v.value.r)
  {
    match v
    case Some(IntValue(i)) => Some(i as real)
    case Some(FloatValue(x)) => Some(x)
    case _ => None
  }

  function Stored(objs: seq<DocObject>, prop: string): Option<real> {
    AsNumber(GetVarsetValue(PlainCaller, true, objs, prop))
  }

  /** The starting values read from an existing var-set: bowl and layer height as stored,
      the radius as half the width rounded to an integer. A missing or non-numeric
      property fails the arithmetic, and a zero layer height the number-of-layers box. */
  function StoredSettings(objs: seq<DocObject>): (r: Result<Settings>)
    ensures r.Ok? <==>
      Stored(objs, "BowlHeight").Some? && Stored(objs, "LayerHeight").Some? &&
      Stored(objs, "BowlWidth").Some? && Stored(objs, "LayerHeight") != Some(0.0)
    ensures r.Ok? ==>
      Some(r.value.bowlHeight) == Stored(objs, "BowlHeight") &&
      Some(r.value.layerHeight) == Stored(objs, "LayerHeight") &&
      r.value.bowlRadius == RoundHalfEven(Stored(objs, "BowlWidth").value / 2.0) as real
  {
    var h := Stored(objs, "BowlHeight");
    var l := Stored(objs, "LayerHeight");
    var w := Stored(objs, "BowlWidth");
    if w.None? || h.None? || l.None? then Err(Unsupported)
    else if l.value == 0.0 then Err(DivisionByZero)
    else Ok(Settings(h.value, RoundHalfEven(w.value / 2.0) as real, l.value))
  }

  /** A var-set this panel creates gives back the panel's defaults when reopened. */
  lemma DefaultsReadBack(objs: seq<DocObject>)
    requires FindByName(objs, VarSetName).Some?
    requires objs[FindByName(objs, VarSetName).value].properties == DefaultVariables()
    ensures StoredSettings(objs) == Ok(Settings(254.0, 50.0, 25.4))
    ensures GetVarsetValue(PlainCaller, true, objs, "NumSegments") == Some(IntValue(12))
  {
    assert RoundHalfEven(50.0) == 50 by { WholeNumbers(50); }
  }

  // ---------------------------------------------------------------------------
  // `update_text_boxes`

  /** Which text box was edited */
  datatype TextSource = LayerHeightEdited | NumLayersEdited

  /** What an edit does: show the number of layers for a new layer height, show the layer
      height for a new number of layers, nothing (the error is caught), or raise an error
      the handler does not catch. */
  datatype TextBoxUpdate =
    | NumLayersShown(numLayers: int)
    | LayerHeightShown(layerHeight: real)
    | NoUpdate
    | Uncaught(error: string)

  /** `int(bowl_height / layer_height)` */
  function NumLayers(bowlHeight: real, layerHeight: real): int
    requires layerHeight != 0.0
  {
    Trunc(bowlHeight / layerHeight)
  }

  /** The handler as written: a new layer count shows the layer height rounded to two
      decimals. Any error of a layer-height edit is caught; of a layer-count edit only a
      parse error is, so a count of 0 raises. */
  function UpdateTextBoxesAsWritten(source: TextSource, bowlHeight: real, layerText: string, numLayersText: string): (u: TextBoxUpdate)
    ensures source == LayerHeightEdited ==>
              (u.NumLayersShown? <==> ParseReal(layerText).Some? && ParseReal(layerText).value != 0.0) &&
              (u.NumLayersShown? ==> u.numLayers == NumLayers(bowlHeight, ParseReal(layerText).value)) &&
              !u.Uncaught? && !u.LayerHeightShown?
    ensures source == NumLayersEdited ==>
              (u.LayerHeightShown? <==> ParseInt(numLayersText).Some? && ParseInt(numLayersText).value != 0) &&
              (u.Uncaught? <==> ParseInt(numLayersText) == Some(0)) &&
              (u.LayerHeightShown? ==> u.layerHeight == Round2(bowlHeight / ParseInt(numLayersText).value as real)) &&
              !u.NumLayersShown?
  {
    match source
    case LayerHeightEdited =>
      (match ParseReal(layerText)
       case Some(l) => if l == 0.0 then NoUpdate else NumLayersShown(NumLayers(bowlHeight, l))
       case None => NoUpdate)
    case NumLayersEdited =>
      match ParseInt(numLayersText)
      case Some(n) => if n == 0 then Uncaught(DivisionByZero) else LayerHeightShown(Round2(bowlHeight / n as real))
      case None => NoUpdate
  }

  /** Choosing 7 layers for a 254 mm bowl shows 36.29 mm; entering that layer height
      (which is what generating the lines reads back) gives 6 layers, not 7. */
  lemma RoundedLayerHeightLosesALayer()
    ensures UpdateTextBoxesAsWritten(NumLayersEdited, 254.0, "", "7") == LayerHeightShown(36.29)
    ensures NumLayers(254.0, 36.29) == 6
  {
    assert ParseInt("7") == Some(7) by {
      assert Strip("7") == "7";
    }
    assert 25400.0 / 7.0 == 3628.0 + 4.0 / 7.0;
    assert (25400.0 / 7.0).Floor == 3628;
    assert RoundHalfEven(254.0 / 7.0 * 100.0) == 3629;
    assert 254.0 / 36.29 == 6.0 + 36.26 / 36.29;
  }

  /** The handler with the layer height shown exactly, so that generating reads back the
      count that was asked for */
  function UpdateTextBoxes(source: TextSource, bowlHeight: real, layerText: string, numLayersText: string): (u: TextBoxUpdate)
    ensures source == LayerHeightEdited ==>
              (u.NumLayersShown? <==> ParseReal(layerText).Some? && ParseReal(layerText).value != 0.0) &&
              (u.NumLayersShown? ==> u.numLayers == NumLayers(bowlHeight, ParseReal(layerText).value)) &&
              !u.Uncaught? && !u.LayerHeightShown?
    ensures source == NumLayersEdited ==>
              (u.LayerHeightShown? <==> ParseInt(numLayersText).Some? && ParseInt(numLayersText).value != 0) &&
              (u.Uncaught? <==> ParseInt(numLayersText) == Some(0)) &&
              (u.LayerHeightShown? ==> u.layerHeight * ParseInt(numLayersText).value as real == bowlHeight) &&
              !u.NumLayersShown?
  {
    match source
    case LayerHeightEdited =>
      (match ParseReal(layerText)
       case Some(l) => if l == 0.0 then NoUpdate else NumLayersShown(NumLayers(bowlHeight, l))
       case None => NoUpdate)
    case NumLayersEdited =>
      match ParseInt(numLayersText)
      case Some(n) => if n == 0 then Uncaught(DivisionByZero) else LayerHeightShown(bowlHeight / n as real)
      case None => NoUpdate
  }

  /** With the exact layer height, asking for n layers and generating gives n layers. */
  lemma LayerCountRoundTrip(bowlHeight: real, n: int)
    requires bowlHeight != 0.0 && n != 0
    ensures bowlHeight / n as real != 0.0
    ensures NumLayers(bowlHeight, bowlHeight / n as real) == n
  {
    var l := bowlHeight / n as real;
    assert l * n as real == bowlHeight;
    assert bowlHeight / l == n as real;
    WholeNumbers(n);
  }

  // ---------------------------------------------------------------------------
  // The generated geometry and constraints

  /** `i * layer_height` */
  function LayerY(layerHeight: real, i: nat): real {
    i as real * layerHeight
  }

  /** The point on layer i (on the sketch's horizontal axis for i = 0) */
  function ProfilePoint(radius: real, y: real, i: nat): Geo {
    Geo(Point(Vec3(radius / 2.0 + i as real * PointStep, y, 0.0)), false)
  }

  /** The horizontal line of a layer at height y */
  function LayerLine(radius: real, y: real, construction: bool): Geo {
    Geo(LineSegment(Vec3(0.0, y, 0.0), Vec3(radius + LineOverhang, y, 0.0)), construction)
  }

  /** The first point, then the line and the point of each of layers 1 to n */
  function Generated(radius: real, layerHeight: real, construction: bool, n: nat): (g: seq<Geo>)
    ensures |g| == 2 * n + 1
  {
    if n == 0 then [ProfilePoint(radius, 0.0, 0)]
    else Generated(radius, layerHeight, construction, n - 1) +
         [LayerLine(radius, LayerY(layerHeight, n), construction), ProfilePoint(radius, LayerY(layerHeight, n), n)]
  }

  /** The constraints of one layer whose line and point have the given indices: the line
      horizontal, its start at height y above the origin and on the vertical axis, the
      point on the line */
  function LayerConstraints(line: int, point: int, y: real): seq<Constraint> {
    [Horizontal(line), DistanceY(-1, 1, line, 1, y), PointOnObject(line, 1, -2), PointOnObject(point, 1, line)]
  }

  /** The constraints of a run whose first geometry gets index g0: the first point on the
      horizontal axis, then four per layer */
  function GeneratedConstraints(g0: int, layerHeight: real, n: nat): (c: seq<Constraint>)
    ensures |c| == 4 * n + 1
  {
    if n == 0 then [PointOnObject(g0, 1, -1)]
    else GeneratedConstraints(g0, layerHeight, n - 1) + LayerConstraints(g0 + 2 * n - 1, g0 + 2 * n, LayerY(layerHeight, n))
  }

  /** The sketch after a run of n layers */
  function WithRun(o: DocObject, s: Settings, construction: bool, n: nat): DocObject {
    o.(geometry := o.geometry + Generated(s.bowlRadius, s.layerHeight, construction, n),
       constraints := o.constraints + GeneratedConstraints(|o.geometry|, s.layerHeight, n))
  }

  /** One more layer is one more line, point and four constraints, at the next indices. */
  lemma WithRunStep(o: DocObject, s: Settings, construction: bool, i: nat)
    requires i >= 1
    ensures var p := WithRun(o, s, construction, i - 1);
            var y := LayerY(s.layerHeight, i);
            |p.geometry| == |o.geometry| + 2 * i - 1 &&
            WithRun(o, s, construction, i) ==
              p.(geometry := p.geometry + [LayerLine(s.bowlRadius, y, construction), ProfilePoint(s.bowlRadius, y, i)],
                 constraints := p.constraints + LayerConstraints(|p.geometry|, |p.geometry| + 1, y))
  {
    var g := Generated(s.bowlRadius, s.layerHeight, construction, i);
    var c := GeneratedConstraints(|o.geometry|, s.layerHeight, i);
    var y := LayerY(s.layerHeight, i);
    assert o.geometry + g == (o.geometry + Generated(s.bowlRadius, s.layerHeight, construction, i - 1)) +
                             [LayerLine(s.bowlRadius, y, construction), ProfilePoint(s.bowlRadius, y, i)];
    assert o.constraints + c == (o.constraints + GeneratedConstraints(|o.geometry|, s.layerHeight, i - 1)) +
                                LayerConstraints(|o.geometry| + 2 * i - 1, |o.geometry| + 2 * i, y);
  }

  /** Element 0 is the first point; for layer i, element 2i - 1 is its line and element 2i
      its point, both at height i · layer height. */
  lemma {:induction false} GeneratedShape(radius: real, layerHeight: real, construction: bool, n: nat)
    ensures var g := Generated(radius, layerHeight, construction, n);
            g[0] == Geo(Point(Vec3(radius / 2.0, 0.0, 0.0)), false) &&
            forall i :: 1 <= i <= n ==>
              g[2 * i - 1] == Geo(LineSegment(Vec3(0.0, LayerY(layerHeight, i), 0.0), Vec3(radius + LineOverhang, LayerY(layerHeight, i), 0.0)), construction) &&
              g[2 * i] == Geo(Point(Vec3(radius / 2.0 + i as real * PointStep, LayerY(layerHeight, i), 0.0)), false)
  {
    if n > 0 {
      GeneratedShape(radius, layerHeight, construction, n - 1);
    }
  }

  lemma HeightsIncrease(layerHeight: real, i: nat, j: nat)
    requires layerHeight > 0.0 && i < j
    ensures LayerY(layerHeight, i) < LayerY(layerHeight, j)
  {
    assert LayerY(layerHeight, j) - LayerY(layerHeight, i) == (j as real - i as real) * layerHeight;
  }

  /** With a positive layer height the profile points climb strictly, layer by layer. */
  lemma PointsClimb(radius: real, layerHeight: real, construction: bool, n: nat)
    requires layerHeight > 0.0
    ensures var g := Generated(radius, layerHeight, construction, n);
            forall i, j :: 0 <= i < j <= n ==> g[2 * i].curve.Point? && g[2 * j].curve.Point? && g[2 * i].curve.at.y < g[2 * j].curve.at.y
  {
    var g := Generated(radius, layerHeight, construction, n);
    GeneratedShape(radius, layerHeight, construction, n);
    forall i, j | 0 <= i < j <= n
      ensures g[2 * i].curve.Point? && g[2 * j].curve.Point? && g[2 * i].curve.at.y < g[2 * j].curve.at.y
    {
      HeightsIncrease(layerHeight, i, j);
    }
  }

  /** Where a sketch geometry starts: a point's position, a line's start */
  function StartOf(g: Geo): Option<Vec3> {
    match g.curve
    case Point(at) => Some(at)
    case LineSegment(start, _) => Some(start)
    case _ => None
  }

  /** The kinds of constraint this panel adds, read against the sketch's geometry */
  predicate Holds(geo: seq<Geo>, c: Constraint) {
    match c
    case Horizontal(k) =>
      0 <= k < |geo| && geo[k].curve.LineSegment? && geo[k].curve.start.y == geo[k].curve.end.y
    case DistanceY(a, aPos, k, kPos, v) =>
      a == -1 && aPos == 1 && kPos == 1 && 0 <= k < |geo| && StartOf(geo[k]).Some? && StartOf(geo[k]).value.y == v
    case PointOnObject(k, pos, on) =>
      pos == 1 && 0 <= k < |geo| && StartOf(geo[k]).Some? &&
      if on == -1 then StartOf(geo[k]).value.y == 0.0
      else if on == -2 then StartOf(geo[k]).value.x == 0.0
      else 0 <= on < |geo| && geo[on].curve.LineSegment? &&
           geo[on].curve.start.y == geo[on].curve.end.y == StartOf(geo[k]).value.y
    case _ => false
  }

  /** Appending geometry keeps every constraint that held. */
  lemma HoldsExtends(geo: seq<Geo>, more: seq<Geo>, c: Constraint)
    requires Holds(geo, c)
    ensures Holds(geo + more, c)
  {
    var all := geo + more;
    match c
    case Horizontal(k) => assert all[k] == geo[k];
    case DistanceY(_, _, k, _, _) => assert all[k] == geo[k];
    case PointOnObject(k, _, on) =>
      assert all[k] == geo[k];
      if on >= 0 { assert all[on] == geo[on]; }
  }

  /** The geometry of a run satisfies the run's constraints: the positions written and
      the constraints laid on them agree. */
  lemma {:induction false} RunSatisfiesConstraints(before: seq<Geo>, radius: real, layerHeight: real, construction: bool, n: nat)
    ensures var geo := before + Generated(radius, layerHeight, construction, n);
            forall c :: c in GeneratedConstraints(|before|, layerHeight, n) ==> Holds(geo, c)
  {
    var g := Generated(radius, layerHeight, construction, n);
    var geo := before + g;
    var g0 := |before|;
    GeneratedShape(radius, layerHeight, construction, n);
    assert geo[g0] == g[0];
    if n > 0 {
      RunSatisfiesConstraints(before, radius, layerHeight, construction, n - 1);
      var shorter := before + Generated(radius, layerHeight, construction, n - 1);
      var tail := [g[2 * n - 1], g[2 * n]];
      assert geo == shorter + tail;
      forall c | c in GeneratedConstraints(g0, layerHeight, n - 1) ensures Holds(geo, c) {
        HoldsExtends(shorter, tail, c);
      }
      assert geo[g0 + 2 * n - 1] == g[2 * n - 1];
      assert geo[g0 + 2 * n] == g[2 * n];
    }
  }

  /** The sketch geometry indices of the points of a run that starts at index g0 */
  function PointIndices(g0: int, n: nat): (r: seq<int>)
    ensures |r| == n + 1 && forall k :: 0 <= k <= n ==> r[k] == g0 + 2 * k
  {
    seq(n + 1, k requires 0 <= k <= n => g0 + 2 * k)
  }

  /** Every index recorded names a point of the run, the k-th at layer k's height. */
  lemma PointIndicesArePoints(before: seq<Geo>, radius: real, layerHeight: real, construction: bool, n: nat)
    ensures var geo := before + Generated(radius, layerHeight, construction, n);
            var idx := PointIndices(|before|, n);
            forall k :: 0 <= k <= n ==>
              0 <= idx[k] < |geo| && geo[idx[k]].curve.Point? && geo[idx[k]].curve.at.y == LayerY(layerHeight, k)
  {
    var g := Generated(radius, layerHeight, construction, n);
    var geo := before + g;
    var idx := PointIndices(|before|, n);
    forall k | 0 <= k <= n
      ensures 0 <= idx[k] < |geo| && geo[idx[k]].curve.Point? && geo[idx[k]].curve.at.y == LayerY(layerHeight, k)
    {
      GeneratedPointAt(radius, layerHeight, construction, n, k);
      assert idx[k] == |before| + 2 * k;
      assert geo[idx[k]] == g[2 * k];
    }
  }

  /** Entry 2k of a run is the point of layer k. */
  lemma {:induction false} GeneratedPointAt(radius: real, layerHeight: real, construction: bool, n: nat, k: nat)
    requires k <= n
    ensures var g := Generated(radius, layerHeight, construction, n);
            g[2 * k].curve.Point? && g[2 * k].curve.at.y == LayerY(layerHeight, k)
  {
    if k < n {
      GeneratedPointAt(radius, layerHeight, construction, n - 1, k);
      assert Generated(radius, layerHeight, construction, n)[2 * k] == Generated(radius, layerHeight, construction, n - 1)[2 * k];
    } else if n == 0 {
      assert LayerY(layerHeight, 0) == 0.0;
    }
  }

  // ---------------------------------------------------------------------------
  // The document after a button press

  /** The sketch created when the document has none, rotated 90° about x so that it
      stands upright */
  function NewProfileSketch(): DocObject {
    NewObject(SketchType, ProfileSketchName).(placement := Placement(Origin, Rotation(0.0, 90.0)))
  }

  /** The number of layer lines a run adds: `int(bowl_height / layer_height)`, none when
      that is negative, and none when the division fails */
  function RunLayers(s: Settings): nat {
    if s.layerHeight == 0.0 then 0 else Max0(NumLayers(s.bowlHeight, s.layerHeight))
  }

  /** The document after the lines are generated: the profile sketch found by Name and
      added to, or created with the run as its only contents */
  function WithLines(objs: seq<DocObject>, s: Settings, construction: bool): seq<DocObject> {
    match FindByName(objs, ProfileSketchName)
    case Some(i) => objs[i := WithRun(objs[i], s, construction, RunLayers(s))]
    case None => objs + [WithRun(NewProfileSketch(), s, construction, RunLayers(s))]
  }

  /** A run reuses an existing sketch, keeping its geometry and constraints as a prefix and
      touching no other object; without one it appends a new sketch. */
  lemma WithLinesAppends(objs: seq<DocObject>, s: Settings, construction: bool)
    ensures var r := WithLines(objs, s, construction);
            var f := FindByName(r, ProfileSketchName);
            f.Some? &&
            (FindByName(objs, ProfileSketchName).Some? ==>
               f == FindByName(objs, ProfileSketchName) && |r| == |objs| &&
               (forall i :: 0 <= i < |objs| && i != f.value ==> r[i] == objs[i]) &&
               r[f.value].geometry[..|objs[f.value].geometry|] == objs[f.value].geometry &&
               r[f.value].constraints[..|objs[f.value].constraints|] == objs[f.value].constraints &&
               |r[f.value].geometry| == |objs[f.value].geometry| + 2 * RunLayers(s) + 1) &&
            (FindByName(objs, ProfileSketchName).None? ==>
               f == Some(|objs|) && |r| == |objs| + 1 && r[..|objs|] == objs &&
               r[|objs|].geometry == Generated(s.bowlRadius, s.layerHeight, construction, RunLayers(s)))
  {
    var r := WithLines(objs, s, construction);
    match FindByName(objs, ProfileSketchName)
    case Some(i) =>
      assert Names(r) == Names(objs);
      FindByNameSameNames(r, objs, ProfileSketchName);
    case None =>
      assert r[..|objs|] == objs;
      FindByNameSpec(objs, ProfileSketchName);
      FindByNameSpec(r, ProfileSketchName);
  }

  /** The var-set writes of `update_values` */
  function LinesWrites(objs: seq<DocObject>, bowlHeight: real, layerHeight: real): (r: seq<DocObject>)
    ensures |r| == |objs| && Names(r) == Names(objs)
    ensures forall i :: 0 <= i < |objs| ==> r[i].(properties := objs[i].properties) == objs[i]
  {
    var a := SetVarsetEffect(PlainCaller, true, objs, "NumSegments", IntValue(12));
    var b := SetVarsetEffect(PlainCaller, true, a, "BowlHeight", FloatValue(bowlHeight));
    var c := SetVarsetEffect(PlainCaller, true, b, "LayerHeight", FloatValue(layerHeight));
    assert Names(a) == Names(objs) && Names(b) == Names(a) && Names(c) == Names(b);
    c
  }

  /** After `update_values` a var-set reads back NumSegments 12 and the two heights,
      whenever it lists them. */
  lemma WritesReadBack(objs: seq<DocObject>, bowlHeight: real, layerHeight: real)
    ensures var r := LinesWrites(objs, bowlHeight, layerHeight);
            (GetVarsetValue(PlainCaller, true, objs, "NumSegments").Some? ==>
               GetVarsetValue(PlainCaller, true, r, "NumSegments") == Some(IntValue(12))) &&
            (GetVarsetValue(PlainCaller, true, objs, "BowlHeight").Some? ==>
               GetVarsetValue(PlainCaller, true, r, "BowlHeight") == Some(FloatValue(bowlHeight))) &&
            (GetVarsetValue(PlainCaller, true, objs, "LayerHeight").Some? ==>
               GetVarsetValue(PlainCaller, true, r, "LayerHeight") == Some(FloatValue(layerHeight)))
  {
    var a := SetVarsetEffect(PlainCaller, true, objs, "NumSegments", IntValue(12));
    var b := SetVarsetEffect(PlainCaller, true, a, "BowlHeight", FloatValue(bowlHeight));
    SetChangesOnlyThatProperty(PlainCaller, true, objs, "NumSegments", IntValue(12), "BowlHeight");
    SetChangesOnlyThatProperty(PlainCaller, true, objs, "NumSegments", IntValue(12), "LayerHeight");
    SetChangesOnlyThatProperty(PlainCaller, true, a, "BowlHeight", FloatValue(bowlHeight), "NumSegments");
    SetChangesOnlyThatProperty(PlainCaller, true, a, "BowlHeight", FloatValue(bowlHeight), "LayerHeight");
    SetChangesOnlyThatProperty(PlainCaller, true, b, "LayerHeight", FloatValue(layerHeight), "NumSegments");
    SetChangesOnlyThatProperty(PlainCaller, true, b, "LayerHeight", FloatValue(layerHeight), "BowlHeight");
    if GetVarsetValue(PlainCaller, true, objs, "NumSegments").Some? {
      GetAfterSet(PlainCaller, true, objs, "NumSegments", IntValue(12));
    }
    if GetVarsetValue(PlainCaller, true, objs, "BowlHeight").Some? {
      GetAfterSet(PlainCaller, true, a, "BowlHeight", FloatValue(bowlHeight));
    }
    if GetVarsetValue(PlainCaller, true, objs, "LayerHeight").Some? {
      GetAfterSet(PlainCaller, true, b, "LayerHeight", FloatValue(layerHeight));
    }
  }

  /** The panel's text boxes and radio button */
  datatype LinesInputs = LinesInputs(bowlHeight: string, bowlRadius: string, layerHeight: string, constructionChecked: bool)

  predicate InputsParse(inp: LinesInputs) {
    ParseReal(inp.bowlHeight).Some? && ParseReal(inp.bowlRadius).Some? && ParseReal(inp.layerHeight).Some?
  }

  function ParsedSettings(inp: LinesInputs): Settings
    requires InputsParse(inp)
  {
    Settings(ParseReal(inp.bowlHeight).value, ParseReal(inp.bowlRadius).value, ParseReal(inp.layerHeight).value)
  }

  /** Opening the panel: without a document it fails; a missing var-set is created with
      the defaults and the panel starts from its own defaults; otherwise the panel starts
      from the stored values. */
  method OpenPanel(doc: Document, hasDoc: bool) returns (r: Result<ConstructionLinesPanel>)
    requires doc.Valid()
    modifies doc
    ensures doc.Valid()
    ensures !hasDoc ==> r.Err? && doc.objects == old(doc.objects)
    ensures hasDoc && FindByName(old(doc.objects), VarSetName).None? ==>
              r.Ok? && r.value.CurrentSettings() == DefaultSettings &&
              doc.objects == old(doc.objects) + [NewObject(VarSetType, VarSetName).(properties := DefaultVariables())]
    ensures hasDoc && FindByName(old(doc.objects), VarSetName).Some? ==>
              doc.objects == old(doc.objects) &&
              (r.Ok? <==> StoredSettings(doc.objects).Ok?) &&
              (r.Ok? ==> r.value.CurrentSettings() == StoredSettings(doc.objects).value)
    ensures r.Ok? ==> fresh(r.value) && r.value.constructionLines && r.value.listOfPoints == []
  {
    if !hasDoc {
      return Err("'NoneType' object has no attribute 'getObject'");
    }
    if FindByName(doc.objects, VarSetName).None? {
      NameAbsent(doc.objects, VarSetName);
      var v := doc.AddObject(VarSetType, VarSetName);
      doc.SetObject(v, doc.objects[v].(properties := DefaultVariables()));
      var panel := new ConstructionLinesPanel(DefaultSettings);
      return Ok(panel);
    }
    var stored := StoredSettings(doc.objects);
    if stored.Err? {
      return Err(stored.message);
    }
    var panel := new ConstructionLinesPanel(stored.value);
    return Ok(panel);
  }

  /** The document with the profile sketch present, and the sketch's index */
  function Prepared(objs: seq<DocObject>): seq<DocObject> {
    if FindByName(objs, ProfileSketchName).Some? then objs else objs + [NewProfileSketch()]
  }

  function SketchIndex(objs: seq<DocObject>): (i: nat)
    ensures i < |Prepared(objs)|
  {
    match FindByName(objs, ProfileSketchName)
    case Some(i) => i
    case None => |objs|
  }

  /** A run is the prepared sketch extended in place. */
  lemma WithLinesOnPrepared(objs: seq<DocObject>, s: Settings, construction: bool)
    ensures var p := Prepared(objs);
            var i := SketchIndex(objs);
            WithLines(objs, s, construction) == p[i := WithRun(p[i], s, construction, RunLayers(s))]
  {
  }

  /** `doc.getObject("BowlProfileSketch")`, adding the sketch when there is none */
  method FindOrAddSketch(doc: Document) returns (s: nat)
    requires doc.Valid()
    modifies doc
    ensures doc.Valid()
    ensures doc.objects == Prepared(old(doc.objects)) && s == SketchIndex(old(doc.objects))
    ensures var f := FindByName(old(doc.objects), ProfileSketchName);
            |doc.objects[s].geometry| == if f.Some? then |old(doc.objects)[f.value].geometry| else 0
  {
    var found := FindByName(doc.objects, ProfileSketchName);
    if found.None? {
      NameAbsent(doc.objects, ProfileSketchName);
      s := doc.AddObject(SketchType, ProfileSketchName);
      doc.SetObject(s, NewProfileSketch());
    } else {
      s := found.value;
    }
  }

  /** The document side of `generate_lines`: the profile sketch found or added, its
      first point, then (unless the layer height is zero, where the division fails) the
      layers; with the indices of the points added. */
  method RunLines(doc: Document, settings: Settings, construction: bool) returns (g0: nat, points: seq<int>, ok: bool)
    requires doc.Valid()
    modifies doc
    ensures doc.Valid()
    ensures ok <==> settings.layerHeight != 0.0
    ensures doc.objects == WithLines(old(doc.objects), settings, construction)
    ensures var f := FindByName(old(doc.objects), ProfileSketchName);
            g0 == if f.Some? then |old(doc.objects)[f.value].geometry| else 0
    ensures [g0] + points == PointIndices(g0, RunLayers(settings))
  {
    ghost var objs := doc.objects;
    var s := FindOrAddSketch(doc);
    ghost var base := doc.objects;
    g0 := AddFirstPoint(doc, s, settings, construction);
    WithLinesOnPrepared(objs, settings, construction);
    if settings.layerHeight == 0.0 {
      assert RunLayers(settings) == 0;
      return g0, [], false;
    }
    var numLines := NumLayers(settings.bowlHeight, settings.layerHeight);
    points := AddLayers(doc, s, base[s], settings, construction, Max0(numLines));
    ok := true;
  }

  /** The point on the horizontal axis that starts every run; returns its index. */
  method AddFirstPoint(doc: Document, s: nat, settings: Settings, construction: bool) returns (g0: nat)
    requires doc.Valid() && s < |doc.objects|
    modifies doc
    ensures doc.Valid()
    ensures g0 == |old(doc.objects)[s].geometry|
    ensures doc.objects == old(doc.objects)[s := WithRun(old(doc.objects)[s], settings, construction, 0)]
  {
    var sketch := doc.objects[s];
    g0 := |sketch.geometry|;
    doc.SetObject(s, sketch.(geometry := sketch.geometry + [ProfilePoint(settings.bowlRadius, 0.0, 0)],
                             constraints := sketch.constraints + [PointOnObject(g0, 1, -1)]));
  }

  /** One pass of the layer loop: the line and point of layer i and their four
      constraints added to sketch s, which holds the run so far; returns the point's index. */
  method AddLayer(doc: Document, s: nat, ghost start: DocObject, settings: Settings, construction: bool, i: nat) returns (point: int)
    requires doc.Valid() && s < |doc.objects| && i >= 1
    requires doc.objects[s] == WithRun(start, settings, construction, i - 1) && start.name == doc.objects[s].name
    modifies doc
    ensures doc.Valid()
    ensures doc.objects == old(doc.objects)[s := WithRun(start, settings, construction, i)]
    ensures point == |start.geometry| + 2 * i
  {
    var o := doc.objects[s];
    var yPosition := LayerY(settings.layerHeight, i);
    var lineIdx := |o.geometry|;
    point := lineIdx + 1;
    WithRunStep(start, settings, construction, i);
    doc.SetObject(s, o.(geometry := o.geometry + [LayerLine(settings.bowlRadius, yPosition, construction), ProfilePoint(settings.bowlRadius, yPosition, i)],
                        constraints := o.constraints + LayerConstraints(lineIdx, point, yPosition)));
  }

  /** The layer loop `for i in range(1, num_lines + 1)`, run on a sketch holding the first
      point; returns the indices of the points it adds. */
  method AddLayers(doc: Document, s: nat, ghost start: DocObject, settings: Settings, construction: bool, n: nat) returns (points: seq<int>)
    requires doc.Valid() && s < |doc.objects|
    requires doc.objects[s] == WithRun(start, settings, construction, 0) && start.name == doc.objects[s].name
    modifies doc
    ensures doc.Valid()
    ensures doc.objects == old(doc.objects)[s := WithRun(start, settings, construction, n)]
    ensures [|start.geometry|] + points == PointIndices(|start.geometry|, n)
  {
    ghost var base := doc.objects;
    ghost var g0 := |start.geometry|;
    points := [];
    var i := 1;
    while i <= n
      invariant 1 <= i <= n + 1
      invariant doc.Valid() && |doc.objects| == |base|
      invariant doc.objects == base[s := WithRun(start, settings, construction, i - 1)]
      invariant [g0] + points == PointIndices(g0, i - 1)
    {
      var point := AddLayer(doc, s, start, settings, construction, i);
      points := points + [point];
      assert PointIndices(g0, i) == PointIndices(g0, i - 1) + [point];
      i := i + 1;
    }
  }

  class ConstructionLinesPanel {
    var bowlHeight: real
    var bowlRadius: real
    var layerHeight: real
    var constructionLines: bool
    /** `list_of_points`: the sketch indices of the points added */
    var listOfPoints: seq<int>

    constructor (s: Settings)
      ensures CurrentSettings() == s
      ensures constructionLines && listOfPoints == []
    {
      bowlHeight := s.bowlHeight;
      bowlRadius := s.bowlRadius;
      layerHeight := s.layerHeight;
      constructionLines := true;
      listOfPoints := [];
    }

    function CurrentSettings(): Settings
      reads this
    {
      Settings(bowlHeight, bowlRadius, layerHeight)
    }

    /** `update_values`: the three numbers parsed in order (a failure stops there, with the
        earlier ones taken), the radio button read, then NumSegments = 12 and the bowl
        and layer heights written to the var-set; without a document the writes fail. */
    method UpdateValues(doc: Document, hasDoc: bool, inp: LinesInputs) returns (ok: bool)
      requires doc.Valid()
      modifies this`bowlHeight, this`bowlRadius, this`layerHeight, this`constructionLines, doc
      ensures doc.Valid()
      ensures ok <==> InputsParse(inp) && hasDoc
      ensures InputsParse(inp) ==> CurrentSettings() == ParsedSettings(inp) && constructionLines == inp.constructionChecked
      ensures bowlHeight == ParseReal(inp.bowlHeight).GetOr(old(bowlHeight))
      ensures bowlRadius == if ParseReal(inp.bowlHeight).Some? then ParseReal(inp.bowlRadius).GetOr(old(bowlRadius)) else old(bowlRadius)
      ensures layerHeight ==
        if ParseReal(inp.bowlHeight).Some? && ParseReal(inp.bowlRadius).Some?
        then ParseReal(inp.layerHeight).GetOr(old(layerHeight)) else old(layerHeight)
      ensures !InputsParse(inp) ==> constructionLines == old(constructionLines)
      ensures doc.objects == if ok then LinesWrites(old(doc.objects), bowlHeight, layerHeight) else old(doc.objects)
    {
      var h := ParseReal(inp.bowlHeight);
      if h.None? { return false; }
      bowlHeight := h.value;
      var r := ParseReal(inp.bowlRadius);
      if r.None? { return false; }
      bowlRadius := r.value;
      var l := ParseReal(inp.layerHeight);
      if l.None? { return false; }
      layerHeight := l.value;
      constructionLines := inp.constructionChecked;
      if !hasDoc { return false; }
      SetVarsetValue(doc, PlainCaller, true, "NumSegments", IntValue(12));
      SetVarsetValue(doc, PlainCaller, true, "BowlHeight", FloatValue(bowlHeight));
      SetVarsetValue(doc, PlainCaller, true, "LayerHeight", FloatValue(layerHeight));
      ok := true;
    }

    /** `bt_generate_lines_click` after `update_values`: the sketch found by Name or
        created (a new one resets the point list), the first point added, then a line and
        a point for each of the `int(bowl_height / layer_height)` layers; a zero layer
        height raises after the first point. */
    method GenerateLines(doc: Document, hasDoc: bool) returns (r: Result<()>)
      requires doc.Valid()
      modifies this`listOfPoints, doc
      ensures doc.Valid()
      ensures !hasDoc ==> r == Err(NoDocument) && doc.objects == old(doc.objects) && listOfPoints == old(listOfPoints)
      ensures hasDoc ==>
        (r.Ok? <==> layerHeight != 0.0) &&
        doc.objects == WithLines(old(doc.objects), CurrentSettings(), constructionLines) &&
        var f := FindByName(old(doc.objects), ProfileSketchName);
        listOfPoints ==
          (if f.Some? then old(listOfPoints) else []) +
          PointIndices(if f.Some? then |old(doc.objects)[f.value].geometry| else 0, RunLayers(CurrentSettings()))
    {
      if !hasDoc {
        return Err(NoDocument);
      }
      var found := FindByName(doc.objects, ProfileSketchName);
      if found.None? {
        listOfPoints := [];
      }
      var g0, points, ok := RunLines(doc, CurrentSettings(), constructionLines);
      listOfPoints := listOfPoints + ([g0] + points);
      r := if ok then Ok(()) else Err(DivisionByZero);
    }

    /** `bt_generate_lines_click`: `update_values`, whose errors end the click, then the
        lines */
    method BtGenerateLinesClick(doc: Document, hasDoc: bool, inp: LinesInputs) returns (r: Result<()>)
      requires doc.Valid()
      modifies this, doc
      ensures doc.Valid()
      ensures bowlHeight == ParseReal(inp.bowlHeight).GetOr(old(bowlHeight))
      ensures bowlRadius == if ParseReal(inp.bowlHeight).Some? then ParseReal(inp.bowlRadius).GetOr(old(bowlRadius)) else old(bowlRadius)
      ensures layerHeight ==
        if ParseReal(inp.bowlHeight).Some? && ParseReal(inp.bowlRadius).Some?
        then ParseReal(inp.layerHeight).GetOr(old(layerHeight)) else old(layerHeight)
      ensures !InputsParse(inp) ==> constructionLines == old(constructionLines)
      ensures !(InputsParse(inp) && hasDoc) ==> r.Err? && doc.objects == old(doc.objects) && listOfPoints == old(listOfPoints)
      ensures InputsParse(inp) && hasDoc ==>
        var s := ParsedSettings(inp);
        var written := LinesWrites(old(doc.objects), s.bowlHeight, s.layerHeight);
        var f := FindByName(old(doc.objects), ProfileSketchName);
        CurrentSettings() == s && constructionLines == inp.constructionChecked &&
        (r.Ok? <==> s.layerHeight != 0.0) &&
        doc.objects == WithLines(written, s, inp.constructionChecked) &&
        listOfPoints ==
          (if f.Some? then old(listOfPoints) else []) +
          PointIndices(if f.Some? then |old(doc.objects)[f.value].geometry| else 0, RunLayers(s))
    {
      ghost var before := doc.objects;
      var ok := UpdateValues(doc, hasDoc, inp);
      if !ok {
        return Err("could not convert string to float");
      }
      ghost var written := doc.objects;
      FindByNameSameNames(written, before, ProfileSketchName);
      ghost var f := FindByName(before, ProfileSketchName);
      assert f.Some? ==> |written[f.value].geometry| == |before[f.value].geometry| by {
        if f.Some? {
          assert written[f.value].(properties := before[f.value].properties) == before[f.value];
        }
      }
      r := GenerateLines(doc, hasDoc);
    }

    /** `bt_delete_lines_click`: every geometry of the profile sketch deleted, highest index
        first, leaving the sketch empty; without a document, or without the sketch, it
        fails and changes nothing. */
    method BtDeleteLinesClick(doc: Document, hasDoc: bool) returns (r: Result<()>)
      requires doc.Valid()
      modifies doc
      ensures doc.Valid()
      ensures !hasDoc ==> r == Err(NoDocument) && doc.objects == old(doc.objects)
      ensures hasDoc && FindByName(old(doc.objects), ProfileSketchName).None? ==>
                r == Err(NoSketch) && doc.objects == old(doc.objects)
      ensures hasDoc && FindByName(old(doc.objects), ProfileSketchName).Some? ==>
                var s := FindByName(old(doc.objects), ProfileSketchName).value;
                r.Ok? && doc.objects == old(doc.objects)[s := old(doc.objects)[s].(geometry := [])]
    {
      if !hasDoc {
        return Err(NoDocument);
      }
      var found := FindByName(doc.objects, ProfileSketchName);
      if found.None? {
        return Err(NoSketch);
      }
      var s := found.value;
      ghost var base := doc.objects;
      var k := |doc.objects[s].geometry|;
      assert base[s].(geometry := base[s].geometry[..k]) == base[s];
      assert base[s := base[s]] == base;
      while k > 0
        invariant 0 <= k <= |base[s].geometry|
        invariant doc.Valid() && |doc.objects| == |base|
        invariant doc.objects == base[s := base[s].(geometry := base[s].geometry[..k])]
      {
        k := k - 1;
        var o := doc.objects[s];
        assert o.geometry[..k] + o.geometry[k + 1..] == base[s].geometry[..k];
        doc.SetObject(s, o.(geometry := o.geometry[..k] + o.geometry[k + 1..]));
      }
      return Ok(());
    }
  }
}
