/** The off-centre turning panel. "Add Sketches" draws two sketches, "Bottom_Sketch"
    at z = 0 and "Top_Sketch" at the cylinder height. Each holds a construction circle,
    the cylinder's circle and n points evenly spaced round the construction circle,
    each joined to the centre by a construction line, the lines held 360/n degrees
    apart. */
module OffcenterTurning {
  import opened Wrappers
  import opened Numbers
  import opened Text
  import opened Geometry
  import opened Doc
  import opened VarSet

  const GuardName := "OffcenterTurningVariables"
  const BottomName := "Bottom_Sketch"
  const TopName := "Top_Sketch"
  const DatumLineType := "Part::DatumLine"
  const DatumLineName := "DatumLine"
  const NoDocument := "No active document."
  const BottomNotSketch := "An object named 'Bottom_Sketch' already exists and is not a sketch."
  const TopNotSketch := "An object named 'Top_Sketch' already exists and is not a sketch."
  const CircleRadiusError := "TypeError"
  /** What `Part.Circle` raises for a negative radius */
  const CircleRefused := "Part.OCCError"
  /** What `Part.LineSegment` raises for a line whose two end points are equal */
  const LineRefused := "Part.OCCError: Both points are equal"
  const PanelError := "Error adding panel"
  const XAxisEnd := Vec3(1.0, 0.0, 0.0)
  /** The number of datum lines added once the points exist */
  const DatumLineCount := 3

  // ---------------------------------------------------------------------------
  // Opening the panel

  /** The var-set the panel creates */
  function DefaultVariables(): map<string, Value> {
    map["NumberPoints" := IntValue(3), "BottomAngle" := FloatValue(30.0), "TopAngle" := FloatValue(15.0),
        "CylinderHeight" := FloatValue(50.0), "CylinderRadius" := FloatValue(20.0),
        "TopRadius" := FloatValue(10.0), "BottomRadius" := FloatValue(15.0)]
  }

  function NewVarSet(objs: seq<DocObject>): DocObject {
    NewObject(VarSetType, FreshName(VarSetName, Names(objs))).(properties := DefaultVariables())
  }

  /** Opening the panel as the source does it: a new var-set is created whenever no
      object is Named "OffcenterTurningVariables" (a Name nothing creates); when one is,
      the panel reads a `varset` it never set, and opening fails. */
  function OpenedAsWritten(objs: seq<DocObject>, hasDoc: bool): (r: (seq<DocObject>, Option<nat>))
    ensures r.1.Some? ==> r.1.value < |r.0|
  {
    if !hasDoc || FindByName(objs, GuardName).Some? then (objs, None)
    else (objs + [NewVarSet(objs)], Some(|objs|))
  }

  /** Opening the panel twice on a document that has no var-set leaves two var-sets:
      "BowlVariables" and a second one under a fresh Name. */
  lemma OpeningTwiceAddsTwoVarSets(objs: seq<DocObject>)
    requires FindByName(objs, GuardName).None? && FindByName(objs, VarSetName).None?
    ensures var once := OpenedAsWritten(objs, true).0;
            var twice := OpenedAsWritten(once, true).0;
            |twice| == |objs| + 2 &&
            twice[|objs|].name == VarSetName && twice[|objs| + 1].name != VarSetName &&
            twice[|objs|].typeId == VarSetType && twice[|objs| + 1].typeId == VarSetType
  {
    var once := OpenedAsWritten(objs, true).0;
    FindByNameSpec(objs, GuardName);
    FindByNameSpec(once, GuardName);
    NameAbsent(objs, VarSetName);
    assert VarSetName in Names(once) by {
      assert Names(once)[|objs|] == VarSetName;
    }
  }

  /** The seven variables, with the panel's defaults for those `props` lacks */
  function WithDefaults(props: map<string, Value>): (r: map<string, Value>)
    ensures forall p :: p in r <==> p in props || p in DefaultVariables()
    ensures forall p :: p in props ==> r[p] == props[p]
    ensures forall p :: p in DefaultVariables() && p !in props ==> r[p] == DefaultVariables()[p]
  {
    DefaultVariables() + props
  }

  /** Opening the panel as intended: the panel's var-set is the document's
      "BowlVariables", the object the sketches' expressions name. It is created with the
      seven defaults when absent; one that another panel created is given those of the
      seven it lacks. */
  function Opened(objs: seq<DocObject>): (r: (seq<DocObject>, nat))
    ensures r.1 < |r.0|
  {
    match FindByName(objs, VarSetName)
    case Some(i) => (objs[i := objs[i].(properties := WithDefaults(objs[i].properties))], i)
    case None => (objs + [NewVarSet(objs)], |objs|)
  }

  /** Opening again creates nothing more, changes nothing and finds the same var-set. */
  lemma OpenedIdempotent(objs: seq<DocObject>)
    ensures Opened(Opened(objs).0) == Opened(objs)
  {
    var (o, v) := Opened(objs);
    if FindByName(objs, VarSetName).None? {
      NameAbsent(objs, VarSetName);
      FindByNameSpec(objs, VarSetName);
      FindByNameSpec(o, VarSetName);
      assert o[|objs|].name == VarSetName;
      assert forall k :: 0 <= k < |objs| ==> o[k] == objs[k];
    } else {
      assert Names(o) == Names(objs) by {
        assert forall k :: 0 <= k < |objs| ==> o[k].name == objs[k].name;
      }
      FindByNameSameNames(o, objs, VarSetName);
    }
    assert FindByName(o, VarSetName) == Some(v);
    assert WithDefaults(o[v].properties) == o[v].properties;
    assert o[v := o[v].(properties := WithDefaults(o[v].properties))] == o;
  }

  /** After opening any document every one of the seven variables is there: the value
      the var-set already held, or the panel's default where it held none. Nothing else
      in the document changes. */
  lemma OpenedHoldsEveryVariable(objs: seq<DocObject>, prop: string)
    requires prop in DefaultVariables()
    ensures var (o, v) := Opened(objs);
            var found := FindByName(objs, VarSetName);
            Read(o, v, prop).Some? &&
            (found.Some? && prop in objs[found.value].properties ==>
               Read(o, v, prop) == Some(Unwrap(objs[found.value].properties[prop]))) &&
            (found.None? || prop !in objs[found.value].properties ==>
               Read(o, v, prop) == Some(DefaultVariables()[prop])) &&
            |o| >= |objs| && forall k :: 0 <= k < |objs| && k != v ==> o[k] == objs[k]
  {
    var (o, v) := Opened(objs);
    var props := o[v].properties;
    if FindByName(objs, VarSetName).None? {
      assert props == DefaultVariables();
    } else {
      assert props == WithDefaults(objs[v].properties);
    }
    ReadHeld(o, v, prop);
    DefaultsUnwrapped(prop);
  }

  /** A held property reads back unwrapped */
  lemma ReadHeld(o: seq<DocObject>, v: nat, prop: string)
    requires v < |o| && prop in o[v].properties
    ensures Read(o, v, prop) == Some(Unwrap(o[v].properties[prop]))
  {
  }

  /** None of the defaults is a quantity. */
  lemma DefaultsUnwrapped(prop: string)
    requires prop in DefaultVariables()
    ensures Unwrap(DefaultVariables()[prop]) == DefaultVariables()[prop]
  {
  }

  /** The panel as it keeps its var-set */
  class OffcenterTurningPanel {
    var varset: nat

    constructor (v: nat)
      ensures varset == v
    {
      varset := v;
    }

    /** `bt_add_sketches_clicked` */
    method BtAddSketches(doc: Document, hasDoc: bool, m: MathLib) returns (r: Result<()>)
      requires doc.Valid() && varset < |doc.objects|
      modifies doc
      ensures doc.Valid()
      ensures !hasDoc ==> r == Err(NoDocument) && doc.objects == old(doc.objects)
      ensures hasDoc ==> Outcome(doc.objects, r) == AddSketches(old(doc.objects), varset, m)
    {
      if !hasDoc {
        return Err(NoDocument);
      }
      r := AddSketchesTo(doc, varset, m);
    }
  }

  /** `OffcenterTurningPanel()` when the panel opens, with the intended var-set lookup */
  method OpenPanel(doc: Document, hasDoc: bool) returns (r: Result<OffcenterTurningPanel>)
    requires doc.Valid()
    modifies doc
    ensures doc.Valid()
    ensures !hasDoc ==> r == Err(PanelError) && doc.objects == old(doc.objects)
    ensures hasDoc ==> r.Ok? && fresh(r.value) &&
                       doc.objects == Opened(old(doc.objects)).0 && r.value.varset == Opened(old(doc.objects)).1
  {
    if !hasDoc {
      return Err(PanelError);
    }
    var found := FindByName(doc.objects, VarSetName);
    if found.Some? {
      var i := found.value;
      doc.SetObject(i, doc.objects[i].(properties := WithDefaults(doc.objects[i].properties)));
      var panel := new OffcenterTurningPanel(i);
      return Ok(panel);
    }
    NameAbsent(doc.objects, VarSetName);
    var v := doc.AddObject(VarSetType, VarSetName);
    doc.SetObject(v, doc.objects[v].(properties := DefaultVariables()));
    var panel := new OffcenterTurningPanel(v);
    return Ok(panel);
  }

  // ---------------------------------------------------------------------------
  // Reading the parameters

  /** `float(v) if v is not None else 0.0`, a TypeError or ValueError giving 0.0 */
  function AsFloat(v: Option<Value>): (r: real)
    ensures v.None? ==> r == 0.0
    ensures v.Some? && v.value.FloatValue? ==> r == v.value.r
    ensures v.Some? && v.value.IntValue? ==> r == v.value.i as real
    ensures v.Some? && v.value.TextValue? && ParseReal(v.value.s).None? ==> r == 0.0
    ensures v.Some? && v.value.VectorValue? ==> r == 0.0
  {
    match v
    case None => 0.0
    case Some(FloatValue(x)) => x
    case Some(IntValue(i)) => i as real
    case Some(Quantity(q)) => q
    case Some(TextValue(s)) => ParseReal(s).GetOr(0.0)
    case Some(BoolValue(b)) => if b then 1.0 else 0.0
    case Some(VectorValue(_)) => 0.0
  }

  /** `int(v) if v is not None else 0`, a TypeError or ValueError giving 0; `int` of a
      float truncates toward zero */
  function AsInt(v: Option<Value>): (r: int)
    ensures v.None? ==> r == 0
    ensures v.Some? && v.value.IntValue? ==> r == v.value.i
    ensures v.Some? && v.value.FloatValue? ==> r == Trunc(v.value.r)
    ensures v.Some? && v.value.TextValue? && ParseInt(v.value.s).None? ==> r == 0
    ensures v.Some? && v.value.VectorValue? ==> r == 0
  {
    match v
    case None => 0
    case Some(IntValue(i)) => i
    case Some(FloatValue(x)) => Trunc(x)
    case Some(Quantity(q)) => Trunc(q)
    case Some(TextValue(s)) => ParseInt(s).GetOr(0)
    case Some(BoolValue(b)) => if b then 1 else 0
    case Some(VectorValue(_)) => 0
  }

  /** The radius `Part.Circle` takes: a number; anything else raises a TypeError. A
      negative number is taken and then refused, which `AddSketches` checks apart. */
  function CircleRadius(v: Option<Value>): (r: Option<real>)
    ensures r.Some? <==> v.Some? && (v.value.FloatValue? || v.value.IntValue? || v.value.BoolValue? || v.value.Quantity?)
    ensures v.Some? && v.value.FloatValue? ==> r == Some(v.value.r)
  {
    match v
    case Some(FloatValue(x)) => Some(x)
    case Some(IntValue(i)) => Some(i as real)
    case Some(Quantity(q)) => Some(q)
    case Some(BoolValue(b)) => Some(if b then 1.0 else 0.0)
    case _ => None
  }

  datatype Params = Params(bottomRadius: real, topRadius: real, bottomAngle: real, topAngle: real,
                           cylinderHeight: real, numPoints: int)

  function Read(objs: seq<DocObject>, v: nat, prop: string): Option<Value>
    requires v < |objs|
  {
    GetVarsetValue(PanelWithVarset(Some(v)), true, objs, prop)
  }

  function ReadParams(objs: seq<DocObject>, v: nat): Params
    requires v < |objs|
  {
    Params(AsFloat(Read(objs, v, "BottomRadius")), AsFloat(Read(objs, v, "TopRadius")),
           AsFloat(Read(objs, v, "BottomAngle")), AsFloat(Read(objs, v, "TopAngle")),
           AsFloat(Read(objs, v, "CylinderHeight")), AsInt(Read(objs, v, "NumberPoints")))
  }

  /** A var-set that holds none of the seven variables: absent, or one another panel created */
  predicate LacksPanelVariables(objs: seq<DocObject>) {
    var found := FindByName(objs, VarSetName);
    found.Some? ==> forall p :: p in DefaultVariables() ==> p !in objs[found.value].properties
  }

  /** After opening a document whose var-set holds none of the seven variables, the
      panel reads back the defaults. */
  lemma DefaultsReadBack(objs: seq<DocObject>)
    requires LacksPanelVariables(objs)
    ensures var (o, v) := Opened(objs);
            ReadParams(o, v) == Params(15.0, 10.0, 30.0, 15.0, 50.0, 3) &&
            CircleRadius(Read(o, v, "CylinderRadius")) == Some(20.0)
  {
    var (o, v) := Opened(objs);
    ReadDefaults(o, v);
  }

  /** The readings of a var-set holding the panel's defaults */
  lemma ReadDefaults(o: seq<DocObject>, v: nat)
    requires v < |o| && forall p :: p in DefaultVariables() ==> p in o[v].properties && o[v].properties[p] == DefaultVariables()[p]
    ensures ReadParams(o, v) == Params(15.0, 10.0, 30.0, 15.0, 50.0, 3)
    ensures CircleRadius(Read(o, v, "CylinderRadius")) == Some(20.0)
  {
    assert "BottomRadius" in DefaultVariables() && "TopRadius" in DefaultVariables();
    assert "BottomAngle" in DefaultVariables() && "TopAngle" in DefaultVariables();
    assert "CylinderHeight" in DefaultVariables() && "NumberPoints" in DefaultVariables();
    assert "CylinderRadius" in DefaultVariables();
    assert Read(o, v, "BottomRadius") == Some(FloatValue(15.0));
    assert Read(o, v, "TopRadius") == Some(FloatValue(10.0));
    assert Read(o, v, "BottomAngle") == Some(FloatValue(30.0));
    assert Read(o, v, "TopAngle") == Some(FloatValue(15.0));
    assert Read(o, v, "CylinderHeight") == Some(FloatValue(50.0));
    assert Read(o, v, "NumberPoints") == Some(IntValue(3));
    assert Read(o, v, "CylinderRadius") == Some(FloatValue(20.0));
  }

  // ---------------------------------------------------------------------------
  // Drawing

  const BottomPlacement := Placement(Origin, Identity)

  function TopPlacement(height: real): Placement {
    Placement(Vec3(0.0, 0.0, height), Identity)
  }

  /** A sketch put in place and emptied of geometry */
  function Cleared(o: DocObject, at: Placement): DocObject {
    o.(placement := at, geometry := [])
  }

  /** The two circles and the construction circle's radius and centre constraints */
  function Drawn(o: DocObject, at: Placement, radius: real, cylinderRadius: real): DocObject {
    o.(placement := at,
       geometry := [Geo(Circle(Origin, radius), true), Geo(Circle(Origin, cylinderRadius), false)],
       constraints := o.constraints + [Radius(0, radius), Coincident(0, 3, -1, 1)])
  }

  /** `2π / n`, the angle between neighbouring points */
  function Step(m: MathLib, n: int): real
    requires n > 0
  {
    2.0 * m.pi / n as real
  }

  /** `math.radians(angle) + i·step`, the direction of point i */
  function SpokeAngle(m: MathLib, angleDeg: real, step: real, i: nat): real {
    Radians(m, angleDeg) + i as real * step
  }

  function SpokeEnd(m: MathLib, radius: real, angleDeg: real, step: real, i: nat): Vec3 {
    var t := SpokeAngle(m, angleDeg, step, i);
    Vec3(radius * m.cos(t), radius * m.sin(t), 0.0)
  }

  /** Point i with its line from the centre added to the sketch, the point held on the
      circle and the line held between the centre and the point; for i = 0 also the
      x-axis line and the angle that fixes the first line against it */
  function Spoke(o: DocObject, circle: int, m: MathLib, radius: real, angleDeg: real, step: real, i: nat): DocObject {
    var p := |o.geometry|;
    o.(geometry := o.geometry + SpokeGeometry(SpokeEnd(m, radius, angleDeg, step, i), i == 0),
       constraints := o.constraints + SpokeConstraints(p, circle, angleDeg, i == 0))
  }

  /** The point, its line, and for the first point the x-axis line */
  function SpokeGeometry(e: Vec3, first: bool): seq<Geo> {
    [Geo(Point(e), false), Geo(LineSegment(Origin, e), true)] + (if first then [Geo(LineSegment(Origin, XAxisEnd), true)] else [])
  }

  /** The constraints of the point added at index p and its line at p + 1 */
  function SpokeConstraints(p: int, circle: int, angleDeg: real, first: bool): seq<Constraint> {
    [PointOnObject(p, 1, circle), Coincident(p + 1, 1, -1, 1), Coincident(p + 1, 2, p, 1)] +
    (if first then [Coincident(p + 2, 1, -1, 1), Horizontal(p + 2), Angle(p + 1, p + 2, angleDeg)] else [])
  }

  /** `Part.LineSegment` refuses point i's line when the point lands on the centre. */
  predicate SpokeRefused(m: MathLib, radius: real, angleDeg: real, step: real, i: nat) {
    SpokeEnd(m, radius, angleDeg, step, i) == Origin
  }

  /** A point lands on the centre exactly when the radius is zero or the library's cosine
      and sine of its direction both vanish. */
  lemma SpokeRefusedWhen(m: MathLib, radius: real, angleDeg: real, step: real, i: nat)
    ensures var t := SpokeAngle(m, angleDeg, step, i);
            SpokeRefused(m, radius, angleDeg, step, i) <==> radius == 0.0 || (m.cos(t) == 0.0 && m.sin(t) == 0.0)
  {
    var t := SpokeAngle(m, angleDeg, step, i);
    if radius != 0.0 && radius * m.cos(t) == 0.0 {
      assert m.cos(t) == 0.0;
    }
  }

  /** A sketch given point i and its constraint, the line that follows then refused */
  function PointOnly(o: DocObject, circle: int, m: MathLib, radius: real, angleDeg: real, step: real, i: nat): DocObject {
    o.(geometry := o.geometry + [Geo(Point(SpokeEnd(m, radius, angleDeg, step, i)), false)],
       constraints := o.constraints + [PointOnObject(|o.geometry|, 1, circle)])
  }

  /** The sketch after the first k points */
  function SpokesUpTo(o: DocObject, circle: int, m: MathLib, radius: real, angleDeg: real, step: real, k: nat): DocObject {
    if k == 0 then o else Spoke(SpokesUpTo(o, circle, m, radius, angleDeg, step, k - 1), circle, m, radius, angleDeg, step, k - 1)
  }

  /** The indices of the first k lines */
  function LinesUpTo(o: DocObject, circle: int, m: MathLib, radius: real, angleDeg: real, step: real, k: nat): (r: seq<int>)
    ensures |r| == k
  {
    if k == 0 then []
    else LinesUpTo(o, circle, m, radius, angleDeg, step, k - 1) + [|SpokesUpTo(o, circle, m, radius, angleDeg, step, k - 1).geometry| + 1]
  }

  /** Where point i lands: after the sketch's own geometry, three entries for the first
      point and two for each later one */
  function PointAt(base: nat, i: nat): nat {
    if i == 0 then base else base + 2 * i + 1
  }

  lemma {:induction false} SpokesLength(o: DocObject, circle: int, m: MathLib, radius: real, angleDeg: real, step: real, k: nat)
    ensures |SpokesUpTo(o, circle, m, radius, angleDeg, step, k).geometry| == PointAt(|o.geometry|, k)
    ensures SpokesUpTo(o, circle, m, radius, angleDeg, step, k).geometry[..|o.geometry|] == o.geometry
  {
    if k > 0 {
      SpokesLength(o, circle, m, radius, angleDeg, step, k - 1);
    }
  }

  /** One spoke keeps the sketch's geometry and puts its point and line right after it. */
  lemma SpokeAppended(o: DocObject, circle: int, m: MathLib, radius: real, angleDeg: real, step: real, i: nat)
    ensures var s := Spoke(o, circle, m, radius, angleDeg, step, i);
            var p := |o.geometry|;
            var e := SpokeEnd(m, radius, angleDeg, step, i);
            p + 1 < |s.geometry| && s.geometry[..p] == o.geometry &&
            s.geometry[p] == Geo(Point(e), false) && s.geometry[p + 1] == Geo(LineSegment(Origin, e), true)
  {
  }

  /** Point i and its line are the last two entries but, for i = 0, the x-axis line
      after the first i + 1 points. */
  lemma SpokesLayoutLast(o: DocObject, circle: int, m: MathLib, radius: real, angleDeg: real, step: real, i: nat)
    ensures var s := SpokesUpTo(o, circle, m, radius, angleDeg, step, i + 1);
            var p := PointAt(|o.geometry|, i);
            var e := SpokeEnd(m, radius, angleDeg, step, i);
            p + 1 < |s.geometry| &&
            s.geometry[p] == Geo(Point(e), false) && s.geometry[p + 1] == Geo(LineSegment(Origin, e), true) &&
            LinesUpTo(o, circle, m, radius, angleDeg, step, i + 1)[i] == p + 1
  {
    var prev := SpokesUpTo(o, circle, m, radius, angleDeg, step, i);
    SpokeAppended(prev, circle, m, radius, angleDeg, step, i);
    SpokesLength(o, circle, m, radius, angleDeg, step, i);
  }

  /** Every point i < k sits at `radius·(cos, sin)` of its direction, its line runs
      from the centre to it, and line i is where the list of lines says. */
  lemma {:induction false} SpokesLayout(o: DocObject, circle: int, m: MathLib, radius: real, angleDeg: real, step: real, k: nat, i: nat)
    requires i < k
    ensures var s := SpokesUpTo(o, circle, m, radius, angleDeg, step, k);
            var p := PointAt(|o.geometry|, i);
            var e := SpokeEnd(m, radius, angleDeg, step, i);
            p + 1 < |s.geometry| &&
            s.geometry[p] == Geo(Point(e), false) && s.geometry[p + 1] == Geo(LineSegment(Origin, e), true) &&
            LinesUpTo(o, circle, m, radius, angleDeg, step, k)[i] == p + 1
  {
    if i < k - 1 {
      var prev := SpokesUpTo(o, circle, m, radius, angleDeg, step, k - 1);
      var s := SpokesUpTo(o, circle, m, radius, angleDeg, step, k);
      SpokeAppended(prev, circle, m, radius, angleDeg, step, k - 1);
      SpokesLayout(o, circle, m, radius, angleDeg, step, k - 1, i);
      var p := PointAt(|o.geometry|, i);
      assert s.geometry[p] == s.geometry[..|prev.geometry|][p];
      assert s.geometry[p + 1] == s.geometry[..|prev.geometry|][p + 1];
    } else {
      SpokesLayoutLast(o, circle, m, radius, angleDeg, step, i);
    }
  }

  /** Each point i < k is held on the circle and its line is held at the centre and at
      the point. */
  lemma {:induction false} SpokesConstrained(o: DocObject, circle: int, m: MathLib, radius: real, angleDeg: real, step: real, k: nat, i: nat)
    requires i < k
    ensures var c := SpokesUpTo(o, circle, m, radius, angleDeg, step, k).constraints;
            var p := PointAt(|o.geometry|, i);
            PointOnObject(p, 1, circle) in c && Coincident(p + 1, 1, -1, 1) in c && Coincident(p + 1, 2, p, 1) in c
  {
    if i < k - 1 {
      SpokesConstrained(o, circle, m, radius, angleDeg, step, k - 1, i);
    } else {
      SpokesLength(o, circle, m, radius, angleDeg, step, k - 1);
    }
  }

  /** One angle constraint between each pair of neighbouring lines, for the first k pairs */
  function Chain(lines: seq<int>, value: real, k: nat): (r: seq<Constraint>)
    requires k < |lines|
    ensures |r| == k
    ensures forall j :: 0 <= j < k ==> r[j] == Angle(lines[j], lines[j + 1], value)
  {
    if k == 0 then [] else Chain(lines, value, k - 1) + [Angle(lines[k - 1], lines[k], value)]
  }

  /** The chain's angle, `radians(360/n)`, is the step between neighbouring points, and
      the n steps make one full turn. */
  lemma ChainAngleIsStep(m: MathLib, n: int, angleDeg: real)
    requires n > 0
    ensures Radians(m, 360.0 / n as real) == Step(m, n)
    ensures SpokeAngle(m, angleDeg, Step(m, n), n) == SpokeAngle(m, angleDeg, Step(m, n), 0) + 2.0 * m.pi
  {
    var nr := n as real;
    calc {
      Radians(m, 360.0 / nr);
      (360.0 / nr) * m.pi / 180.0;
      { assert (360.0 / nr) / 180.0 == 2.0 / nr; }
      2.0 * m.pi / nr;
    }
    assert nr * (2.0 * m.pi / nr) == 2.0 * m.pi;
  }

  /** The points, with their lines, on a sketch that holds its circles */
  function Spoked(d: DocObject, m: MathLib, radius: real, angleDeg: real, n: int): DocObject {
    if n <= 0 then d else SpokesUpTo(d, 0, m, radius, angleDeg, Step(m, n), n)
  }

  /** A sketch as "Add Sketches" leaves it: circles, points, and for two points or more
      the chain of angles between neighbouring lines */
  function Finished(o: DocObject, at: Placement, m: MathLib, radius: real, angleDeg: real, cylinderRadius: real, n: int): DocObject {
    var d := Drawn(o, at, radius, cylinderRadius);
    var s := Spoked(d, m, radius, angleDeg, n);
    if n <= 1 then s
    else s.(constraints := s.constraints + Chain(LinesUpTo(d, 0, m, radius, angleDeg, Step(m, n), n), Radians(m, 360.0 / n as real), n - 1))
  }

  /** With n points and n > 1 the sketch holds the n − 1 chain constraints after the
      points', each joining line i to line i + 1 at the step angle; with one point or none
      there is no chain. */
  lemma FinishedChain(o: DocObject, at: Placement, m: MathLib, radius: real, angleDeg: real, cylinderRadius: real, n: int)
    ensures var f := Finished(o, at, m, radius, angleDeg, cylinderRadius, n);
            var d := Drawn(o, at, radius, cylinderRadius);
            (n <= 0 ==> f == d) &&
            (n > 0 ==> f.geometry == SpokesUpTo(d, 0, m, radius, angleDeg, Step(m, n), n).geometry) &&
            (n > 1 ==>
               var pre := SpokesUpTo(d, 0, m, radius, angleDeg, Step(m, n), n).constraints;
               |f.constraints| == |pre| + n - 1 && f.constraints[..|pre|] == pre &&
               forall j :: 0 <= j < n - 1 ==>
                 f.constraints[|pre| + j] == Angle(PointAt(2, j) + 1, PointAt(2, j + 1) + 1, Step(m, n)))
  {
    if n > 1 {
      var d := Drawn(o, at, radius, cylinderRadius);
      var step := Step(m, n);
      var lines := LinesUpTo(d, 0, m, radius, angleDeg, step, n);
      ChainAngleIsStep(m, n, angleDeg);
      forall j | 0 <= j < n ensures lines[j] == PointAt(2, j) + 1 {
        SpokesLayout(d, 0, m, radius, angleDeg, step, n, j);
      }
    }
  }

  /** A finished sketch keeps its Name and type and sits where it was put, with two
      circles and the points' geometry. */
  lemma FinishedShape(o: DocObject, at: Placement, m: MathLib, radius: real, angleDeg: real, cylinderRadius: real, n: int)
    ensures var f := Finished(o, at, m, radius, angleDeg, cylinderRadius, n);
            f.name == o.name && f.typeId == o.typeId && f.placement == at &&
            |f.geometry| == (if n <= 0 then 2 else PointAt(2, n))
  {
    if n > 0 {
      SpokesLength(Drawn(o, at, radius, cylinderRadius), 0, m, radius, angleDeg, Step(m, n), n);
      SpokesKeep(Drawn(o, at, radius, cylinderRadius), 0, m, radius, angleDeg, Step(m, n), n);
    }
  }

  lemma {:induction false} SpokesKeep(o: DocObject, circle: int, m: MathLib, radius: real, angleDeg: real, step: real, k: nat)
    ensures var s := SpokesUpTo(o, circle, m, radius, angleDeg, step, k);
            s.name == o.name && s.typeId == o.typeId && s.placement == o.placement
  {
    if k > 0 {
      SpokesKeep(o, circle, m, radius, angleDeg, step, k - 1);
    }
  }

  /** The objects with the datum lines added, each under a fresh Name */
  function WithDatumLines(objs: seq<DocObject>, k: nat): (r: seq<DocObject>)
    ensures |r| == |objs| + k && r[..|objs|] == objs
  {
    if k == 0 then objs
    else
      var prev := WithDatumLines(objs, k - 1);
      var r := prev + [NewObject(DatumLineType, FreshName(DatumLineName, Names(prev)))];
      assert r[..|objs|] == prev[..|objs|];
      r
  }

  /** The two sketches found or added, or the message of the one whose Name a non-sketch holds */
  datatype Slots = Slots(objs: seq<DocObject>, bottom: nat, top: nat) | NotSketch(objs: seq<DocObject>, message: string)

  function FindSketches(objs: seq<DocObject>): (r: Slots)
    ensures |objs| <= |r.objs| <= |objs| + 2 && r.objs[..|objs|] == objs
    ensures r.Slots? ==> r.bottom < |r.objs| && r.top < |r.objs| && r.bottom != r.top &&
                         FindByName(r.objs, BottomName) == Some(r.bottom) && FindByName(r.objs, TopName) == Some(r.top) &&
                         r.objs[r.bottom].typeId == SketchType && r.objs[r.top].typeId == SketchType
  {
    var s1 := SketchSlot(objs, BottomName);
    if s1.None? then NotSketch(objs, BottomNotSketch) else
    var a := WithSketch(objs, BottomName);
    SketchSlotHoldsSketch(objs, BottomName);
    var s2 := SketchSlot(a, TopName);
    if s2.None? then NotSketch(a, TopNotSketch) else
    var b := WithSketch(a, TopName);
    SketchSlotHoldsSketch(a, TopName);
    assert b[s1.value] == a[s1.value] by { assert b[..|a|][s1.value] == a[s1.value]; }
    FindInPrefix(b, a, BottomName, s1.value);
    assert b[..|objs|] == a[..|objs|];
    Slots(b, s1.value, s2.value)
  }

  /** A lookup that finds its Name in a prefix finds it at the same index in the whole. */
  lemma FindInPrefix(whole: seq<DocObject>, part: seq<DocObject>, name: string, i: nat)
    requires |part| <= |whole| && whole[..|part|] == part && FindByName(part, name) == Some(i)
    ensures FindByName(whole, name) == Some(i)
  {
    assert whole == part + whole[|part|..];
    FindByNameAppend(part, whole[|part|..], name);
  }

  /** The two sketches placed and emptied */
  function Placed(b: seq<DocObject>, i: nat, j: nat, height: real): seq<DocObject>
    requires i < |b| && j < |b|
  {
    b[i := Cleared(b[i], BottomPlacement)][j := Cleared(b[j], TopPlacement(height))]
  }

  /** The two sketches drawn */
  function DrawnSketches(b: seq<DocObject>, i: nat, j: nat, m: MathLib, p: Params, cylinderRadius: real): seq<DocObject>
    requires i < |b| && j < |b|
  {
    b[i := Finished(b[i], BottomPlacement, m, p.bottomRadius, p.bottomAngle, cylinderRadius, p.numPoints)]
     [j := Finished(b[j], TopPlacement(p.cylinderHeight), m, p.topRadius, p.topAngle, cylinderRadius, p.numPoints)]
  }

  datatype Outcome = Outcome(objs: seq<DocObject>, result: Result<()>)

  /** "Add Sketches" once a document is open: the parameters read, the two sketches found
      or added, placed and emptied, a negative bottom or top radius refused, the cylinder
      radius read (a value `Part.Circle` does not take, or a negative one, stops it
      there), both sketches drawn, a point's line refused when the point lands on the
      centre, and the datum lines added when there are points. Nothing before the
      cylinder radius is read touches the var-set, so it is read from the objects as
      they were. */
  function AddSketches(objs: seq<DocObject>, v: nat, m: MathLib): (r: Outcome)
    requires v < |objs|
    ensures |objs| <= |r.objs| <= |objs| + 2 + (if r.result.Ok? then DatumLineCount else 0)
  {
    var p := ReadParams(objs, v);
    var s := FindSketches(objs);
    if s.NotSketch? then Outcome(s.objs, Err(s.message)) else
    OnSlots(s.objs, s.bottom, s.top, m, p, CircleRadius(Read(objs, v, "CylinderRadius")))
  }

  /** The handler once both sketches are found: both placed and emptied, then a circle
      radius refused by `Part.Circle` (a negative bottom or top radius, a cylinder radius
      that is not a number or a negative one) stops it there. */
  function OnSlots(b: seq<DocObject>, i: nat, j: nat, m: MathLib, p: Params, cyl: Option<real>): (r: Outcome)
    requires i < |b| && j < |b|
    ensures var refused := p.bottomRadius < 0.0 || p.topRadius < 0.0 || cyl.None? || cyl.value < 0.0;
            (refused ==> r.result.Err? && |r.objs| == |b|) &&
            (!refused ==> (r.result.Ok? <==> !LinesRefused(m, p)))
  {
    var placed := Placed(b, i, j, p.cylinderHeight);
    if p.bottomRadius < 0.0 || p.topRadius < 0.0 then Outcome(placed, Err(CircleRefused)) else
    if cyl.None? then Outcome(placed, Err(CircleRadiusError)) else
    if cyl.value < 0.0 then Outcome(placed, Err(CircleRefused)) else
    Drawing(b, i, j, m, p, cyl.value)
  }

  /** Drawing both sketches once every radius is accepted: it stops at the first refused
      line, and otherwise finishes both sketches and, with points, adds the datum lines. */
  function Drawing(b: seq<DocObject>, i: nat, j: nat, m: MathLib, p: Params, cyl: real): (r: Outcome)
    requires i < |b| && j < |b|
    ensures r.result.Ok? <==> !LinesRefused(m, p)
    ensures r.result.Err? ==> r.result == Err(LineRefused) && |r.objs| == |b|
    ensures r.result.Ok? ==> |r.objs| == |b| + (if p.numPoints > 0 then DatumLineCount else 0)
  {
    if LinesRefused(m, p) then
      var step := Step(m, p.numPoints);
      var out := Interrupted(CirclesDrawn(b, i, j, p, cyl), i, j, m, p, step, FirstRefused(m, p, step, p.numPoints));
      assert |out| == |b|;
      Outcome(out, Err(LineRefused))
    else
      var d := DrawnSketches(b, i, j, m, p, cyl);
      assert |d| == |b|;
      Outcome(if p.numPoints > 0 then WithDatumLines(d, DatumLineCount) else d, Ok(()))
  }

  /** After a successful "Add Sketches" the document's "Bottom_Sketch" sits at z = 0 and
      its "Top_Sketch" at the cylinder height, both are finished from what they held, both
      hold the same number of geometry entries, and with points there are three datum
      lines at the end. */
  lemma AddSketchesPlacesSketches(objs: seq<DocObject>, v: nat, m: MathLib)
    requires v < |objs|
    requires AddSketches(objs, v, m).result.Ok?
    ensures var out := AddSketches(objs, v, m).objs;
            var p := ReadParams(objs, v);
            var bi := FindByName(out, BottomName);
            var ti := FindByName(out, TopName);
            bi.Some? && ti.Some? &&
            out[bi.value].placement == BottomPlacement &&
            out[ti.value].placement == TopPlacement(p.cylinderHeight) &&
            out[bi.value].typeId == SketchType && out[ti.value].typeId == SketchType &&
            |out[bi.value].geometry| == |out[ti.value].geometry| ==
              (if p.numPoints <= 0 then 2 else PointAt(2, p.numPoints)) &&
            |out| == |FindSketches(objs).objs| + (if p.numPoints > 0 then DatumLineCount else 0)
  {
    var p := ReadParams(objs, v);
    var s := FindSketches(objs);
    var cyl := CircleRadius(Read(objs, v, "CylinderRadius")).value;
    var d := DrawnSketches(s.objs, s.bottom, s.top, m, p, cyl);
    DrawnSketchesFound(s.objs, s.bottom, s.top, m, p, cyl);
    var out := AddSketches(objs, v, m).objs;
    FindInPrefix(out, d, BottomName, s.bottom);
    FindInPrefix(out, d, TopName, s.top);
    assert out[s.bottom] == d[s.bottom] && out[s.top] == d[s.top] by {
      assert out[..|d|] == d;
    }
  }

  /** Drawing keeps every Name, so the lookups still find both sketches, now finished. */
  lemma DrawnSketchesFound(b: seq<DocObject>, i: nat, j: nat, m: MathLib, p: Params, cyl: real)
    requires i < |b| && j < |b| && i != j
    requires FindByName(b, BottomName) == Some(i) && FindByName(b, TopName) == Some(j)
    requires b[i].typeId == SketchType && b[j].typeId == SketchType
    ensures var d := DrawnSketches(b, i, j, m, p, cyl);
            FindByName(d, BottomName) == Some(i) && FindByName(d, TopName) == Some(j) &&
            d[i].placement == BottomPlacement && d[j].placement == TopPlacement(p.cylinderHeight) &&
            d[i].typeId == SketchType && d[j].typeId == SketchType &&
            |d[i].geometry| == |d[j].geometry| == (if p.numPoints <= 0 then 2 else PointAt(2, p.numPoints))
  {
    var d := DrawnSketches(b, i, j, m, p, cyl);
    FinishedShape(b[i], BottomPlacement, m, p.bottomRadius, p.bottomAngle, cyl, p.numPoints);
    FinishedShape(b[j], TopPlacement(p.cylinderHeight), m, p.topRadius, p.topAngle, cyl, p.numPoints);
    assert Names(d) == Names(b) by {
      assert forall k :: 0 <= k < |b| ==> d[k].name == b[k].name;
    }
    FindByNameSameNames(d, b, BottomName);
    FindByNameSameNames(d, b, TopName);
  }

  /** Once both sketches are found the handler stops exactly when `Part.Circle` refuses
      a radius (a negative bottom or top radius, a cylinder radius that is not a number
      or a negative one) or `Part.LineSegment` refuses a point's line. A refused radius
      leaves both sketches placed and emptied, and the rest of the objects as they
      were. */
  lemma RefusedRadiusLeavesEmptySketches(objs: seq<DocObject>, v: nat, m: MathLib)
    requires v < |objs| && FindSketches(objs).Slots?
    ensures var r := AddSketches(objs, v, m);
            var s := FindSketches(objs);
            var p := ReadParams(objs, v);
            var cyl := CircleRadius(Read(objs, v, "CylinderRadius"));
            var circleRefused := p.bottomRadius < 0.0 || p.topRadius < 0.0 || cyl.None? || cyl.value < 0.0;
            (r.result.Err? <==> circleRefused || LinesRefused(m, p)) &&
            (p.bottomRadius < 0.0 || p.topRadius < 0.0 ==> r.result == Err(CircleRefused)) &&
            (p.bottomRadius >= 0.0 && p.topRadius >= 0.0 && cyl.None? ==> r.result == Err(CircleRadiusError)) &&
            (!circleRefused && LinesRefused(m, p) ==> r.result == Err(LineRefused)) &&
            (circleRefused ==>
               r.objs == Placed(s.objs, s.bottom, s.top, p.cylinderHeight) &&
               r.objs[s.bottom].geometry == [] && r.objs[s.top].geometry == [] &&
               r.objs[s.bottom].placement == BottomPlacement &&
               r.objs[s.top].placement == TopPlacement(p.cylinderHeight))
  {
  }

  /** A zero bottom or top radius with at least one point stops the handler at the first
      point's line, once both circles are drawn: the sketch with the zero radius ends with
      its two circles and the point at the centre, and no datum line is added. A zero
      top radius is reached after the bottom sketch's first point, line and x-axis line
      when that first bottom point is off the centre. */
  lemma ZeroRadiusStopsAtFirstLine(objs: seq<DocObject>, v: nat, m: MathLib)
    requires v < |objs| && FindSketches(objs).Slots?
    requires var p := ReadParams(objs, v);
             var cyl := CircleRadius(Read(objs, v, "CylinderRadius"));
             p.numPoints > 0 && p.bottomRadius >= 0.0 && p.topRadius >= 0.0 && cyl.Some? && cyl.value >= 0.0 &&
             (p.bottomRadius == 0.0 || p.topRadius == 0.0)
    ensures var r := AddSketches(objs, v, m);
            var s := FindSketches(objs);
            var p := ReadParams(objs, v);
            var cyl := CircleRadius(Read(objs, v, "CylinderRadius")).value;
            r.result == Err(LineRefused) && |r.objs| == |s.objs| &&
            (p.bottomRadius == 0.0 ==>
               r.objs[s.bottom].geometry == [Geo(Circle(Origin, 0.0), true), Geo(Circle(Origin, cyl), false), Geo(Point(Origin), false)] &&
               |r.objs[s.top].geometry| == 2) &&
            (!SpokeRefused(m, p.bottomRadius, p.bottomAngle, Step(m, p.numPoints), 0) ==>
               |r.objs[s.bottom].geometry| == 5 &&
               r.objs[s.top].geometry == [Geo(Circle(Origin, 0.0), true), Geo(Circle(Origin, cyl), false), Geo(Point(Origin), false)])
  {
    var p := ReadParams(objs, v);
    var s := FindSketches(objs);
    var c := CirclesDrawn(s.objs, s.bottom, s.top, p, CircleRadius(Read(objs, v, "CylinderRadius")).value);
    var step := Step(m, p.numPoints);
    assert PassRefused(m, p, step, 0);
    FirstRefusedAt(m, p, step, p.numPoints, 0);
    assert AddSketches(objs, v, m) == Outcome(Interrupted(c, s.bottom, s.top, m, p, step, 0), Err(LineRefused));
    FirstPassInterrupted(c, s.bottom, s.top, m, p, step);
  }

  /** A first pass that is refused leaves the sketch whose line was refused with only the
      new point, and the other sketch as it was or with its whole first spoke. */
  lemma FirstPassInterrupted(c: seq<DocObject>, b: nat, t: nat, m: MathLib, p: Params, step: real)
    requires b < |c| && t < |c| && b != t && PassRefused(m, p, step, 0)
    ensures var r := Interrupted(c, b, t, m, p, step, 0);
            |r| == |c| &&
            (SpokeRefused(m, p.bottomRadius, p.bottomAngle, step, 0) ==>
               r[b] == PointOnly(c[b], 0, m, p.bottomRadius, p.bottomAngle, step, 0) && r[t] == c[t]) &&
            (!SpokeRefused(m, p.bottomRadius, p.bottomAngle, step, 0) ==>
               r[b] == Spoke(c[b], 0, m, p.bottomRadius, p.bottomAngle, step, 0) &&
               r[t] == PointOnly(c[t], 0, m, p.topRadius, p.topAngle, step, 0))
  {
    assert BothSpoked(c, b, t, m, p, step, 0) == c;
  }

  // ---------------------------------------------------------------------------
  // The steps as the handler performs them

  /** Replacing two entries twice is replacing them once with the second values. */
  lemma UpdateTwice<T>(s: seq<T>, b: nat, t: nat, x: T, y: T, x2: T, y2: T)
    requires b < |s| && t < |s| && b != t
    ensures s[b := x][t := y][b] == x && s[b := x][t := y][t] == y
    ensures s[b := x][t := y][b := x2][t := y2] == s[b := x2][t := y2]
  {
  }

  /** One pass of the point loop on one sketch: returns the new line's index, or that
      the line was refused after the point was added */
  method AddSpoke(doc: Document, s: nat, circle: int, m: MathLib, radius: real, angleDeg: real, step: real, i: nat)
      returns (line: int, refused: bool)
    requires doc.Valid() && s < |doc.objects|
    modifies doc
    ensures doc.Valid()
    ensures refused == SpokeRefused(m, radius, angleDeg, step, i)
    ensures refused ==> doc.objects == old(doc.objects)[s := PointOnly(old(doc.objects)[s], circle, m, radius, angleDeg, step, i)]
    ensures !refused ==> line == |old(doc.objects)[s].geometry| + 1 &&
                         doc.objects == old(doc.objects)[s := Spoke(old(doc.objects)[s], circle, m, radius, angleDeg, step, i)]
  {
    var o := doc.objects[s];
    var e := SpokeEnd(m, radius, angleDeg, step, i);
    var g := o.geometry + [Geo(Point(e), false)];
    var point := |g| - 1;
    var c := o.constraints + [PointOnObject(point, 1, circle)];
    if e == Origin {
      doc.SetObject(s, o.(geometry := g, constraints := c));
      return -1, true;
    }
    refused := false;
    g := g + [Geo(LineSegment(Origin, e), true)];
    line := |g| - 1;
    c := c + [Coincident(line, 1, -1, 1)];
    c := c + [Coincident(line, 2, point, 1)];
    assert g == o.geometry + SpokeGeometry(e, false);
    assert c == o.constraints + SpokeConstraints(point, circle, angleDeg, false);
    if i == 0 {
      g := g + [Geo(LineSegment(Origin, XAxisEnd), true)];
      var xAxis := |g| - 1;
      c := c + [Coincident(xAxis, 1, -1, 1)];
      c := c + [Horizontal(xAxis)];
      c := c + [Angle(line, xAxis, angleDeg)];
      assert g == o.geometry + SpokeGeometry(e, true);
      assert c == o.constraints + SpokeConstraints(point, circle, angleDeg, true);
    }
    doc.SetObject(s, o.(geometry := g, constraints := c));
  }

  /** Pass i of the point loop raises: its bottom line or its top line is refused */
  predicate PassRefused(m: MathLib, p: Params, step: real, i: nat) {
    SpokeRefused(m, p.bottomRadius, p.bottomAngle, step, i) || SpokeRefused(m, p.topRadius, p.topAngle, step, i)
  }

  /** The first of n passes that raises, or n when none does */
  function FirstRefused(m: MathLib, p: Params, step: real, n: nat): (k: nat)
    ensures k <= n
    ensures forall i :: 0 <= i < k ==> !PassRefused(m, p, step, i)
    ensures k < n ==> PassRefused(m, p, step, k)
  {
    if n == 0 then 0
    else
      var k := FirstRefused(m, p, step, n - 1);
      if k < n - 1 then k else if PassRefused(m, p, step, n - 1) then n - 1 else n
  }

  /** A pass that raises after passes that do not is the first to raise. */
  lemma FirstRefusedAt(m: MathLib, p: Params, step: real, n: nat, i: nat)
    requires i <= n && forall j :: 0 <= j < i ==> !PassRefused(m, p, step, j)
    requires i < n ==> PassRefused(m, p, step, i)
    ensures FirstRefused(m, p, step, n) == i
  {
  }

  /** Some point's line is refused */
  predicate LinesRefused(m: MathLib, p: Params) {
    p.numPoints > 0 && FirstRefused(m, p, Step(m, p.numPoints), p.numPoints) < p.numPoints
  }

  /** Both sketches when pass k raises: the first k points on each, then point k alone on
      the bottom sketch; or point k in full on the bottom sketch and alone on the top one */
  function Interrupted(before: seq<DocObject>, b: nat, t: nat, m: MathLib, p: Params, step: real, k: nat): seq<DocObject>
    requires b < |before| && t < |before|
  {
    var s := BothSpoked(before, b, t, m, p, step, k);
    if SpokeRefused(m, p.bottomRadius, p.bottomAngle, step, k) then
      s[b := PointOnly(s[b], 0, m, p.bottomRadius, p.bottomAngle, step, k)]
    else
      s[b := Spoke(s[b], 0, m, p.bottomRadius, p.bottomAngle, step, k)][t := PointOnly(s[t], 0, m, p.topRadius, p.topAngle, step, k)]
  }

  /** Both sketches after the first k passes of the point loop */
  function BothSpoked(before: seq<DocObject>, b: nat, t: nat, m: MathLib, p: Params, step: real, k: nat): seq<DocObject>
    requires b < |before| && t < |before|
  {
    before[b := SpokesUpTo(before[b], 0, m, p.bottomRadius, p.bottomAngle, step, k)]
          [t := SpokesUpTo(before[t], 0, m, p.topRadius, p.topAngle, step, k)]
  }

  /** One more pass adds point k to each sketch as it stands. */
  lemma BothSpokedStep(before: seq<DocObject>, b: nat, t: nat, m: MathLib, p: Params, step: real, k: nat)
    requires b < |before| && t < |before| && b != t
    ensures var s := BothSpoked(before, b, t, m, p, step, k);
            |s| == |before| &&
            s[b] == SpokesUpTo(before[b], 0, m, p.bottomRadius, p.bottomAngle, step, k) &&
            s[t] == SpokesUpTo(before[t], 0, m, p.topRadius, p.topAngle, step, k) &&
            BothSpoked(before, b, t, m, p, step, k + 1) ==
              s[b := Spoke(s[b], 0, m, p.bottomRadius, p.bottomAngle, step, k)][t := Spoke(s[t], 0, m, p.topRadius, p.topAngle, step, k)] &&
            LinesUpTo(before[b], 0, m, p.bottomRadius, p.bottomAngle, step, k + 1) ==
              LinesUpTo(before[b], 0, m, p.bottomRadius, p.bottomAngle, step, k) + [|s[b].geometry| + 1] &&
            LinesUpTo(before[t], 0, m, p.topRadius, p.topAngle, step, k + 1) ==
              LinesUpTo(before[t], 0, m, p.topRadius, p.topAngle, step, k) + [|s[t].geometry| + 1]
  {
    var sb := SpokesUpTo(before[b], 0, m, p.bottomRadius, p.bottomAngle, step, k);
    var st := SpokesUpTo(before[t], 0, m, p.topRadius, p.topAngle, step, k);
    UpdateTwice(before, b, t, sb, st, Spoke(sb, 0, m, p.bottomRadius, p.bottomAngle, step, k), Spoke(st, 0, m, p.topRadius, p.topAngle, step, k));
  }

  /** One pass of the point loop: point i on the bottom sketch, then on the top one,
      stopping at a refused line */
  method SpokesPass(doc: Document, b: nat, t: nat, m: MathLib, p: Params, step: real, i: nat,
                    ghost before: seq<DocObject>, bottomLines: seq<int>, topLines: seq<int>)
      returns (bottomLines': seq<int>, topLines': seq<int>, refused: bool)
    requires doc.Valid() && b < |before| && t < |before| && b != t
    requires doc.objects == BothSpoked(before, b, t, m, p, step, i)
    requires bottomLines == LinesUpTo(before[b], 0, m, p.bottomRadius, p.bottomAngle, step, i)
    requires topLines == LinesUpTo(before[t], 0, m, p.topRadius, p.topAngle, step, i)
    modifies doc
    ensures doc.Valid()
    ensures refused == PassRefused(m, p, step, i)
    ensures refused ==> doc.objects == Interrupted(before, b, t, m, p, step, i)
    ensures !refused ==>
              doc.objects == BothSpoked(before, b, t, m, p, step, i + 1) &&
              bottomLines' == LinesUpTo(before[b], 0, m, p.bottomRadius, p.bottomAngle, step, i + 1) &&
              topLines' == LinesUpTo(before[t], 0, m, p.topRadius, p.topAngle, step, i + 1)
  {
    var bl, bottomRefused := AddSpoke(doc, b, 0, m, p.bottomRadius, p.bottomAngle, step, i);
    if bottomRefused {
      return bottomLines, topLines, true;
    }
    bottomLines' := bottomLines + [bl];
    var tl, topRefused := AddSpoke(doc, t, 0, m, p.topRadius, p.topAngle, step, i);
    topLines' := topLines + [tl];
    refused := topRefused;
    if !refused {
      BothSpokedStep(before, b, t, m, p, step, i);
    }
  }

  /** The point loop's state after i passes that raised nothing */
  ghost predicate SpokedUpTo(objs: seq<DocObject>, before: seq<DocObject>, b: nat, t: nat, m: MathLib, p: Params, step: real, i: nat,
                             bottomLines: seq<int>, topLines: seq<int>)
    requires b < |before| && t < |before|
  {
    (forall j :: 0 <= j < i ==> !PassRefused(m, p, step, j)) &&
    objs == BothSpoked(before, b, t, m, p, step, i) &&
    bottomLines == LinesUpTo(before[b], 0, m, p.bottomRadius, p.bottomAngle, step, i) &&
    topLines == LinesUpTo(before[t], 0, m, p.topRadius, p.topAngle, step, i)
  }

  /** How the point loop ends: at the first refused line with that pass's partial
      state, or after all n passes */
  ghost predicate SpokesDone(objs: seq<DocObject>, before: seq<DocObject>, b: nat, t: nat, m: MathLib, p: Params, refused: bool,
                             bottomLines: seq<int>, topLines: seq<int>)
    requires b < |before| && t < |before| && p.numPoints > 0
  {
    var step := Step(m, p.numPoints);
    (refused <==> LinesRefused(m, p)) &&
    (refused ==> objs == Interrupted(before, b, t, m, p, step, FirstRefused(m, p, step, p.numPoints))) &&
    (!refused ==> SpokedUpTo(objs, before, b, t, m, p, step, p.numPoints, bottomLines, topLines))
  }

  /** A pass that raises after passes that did not ends the loop. */
  lemma RefusedPassEnds(objs: seq<DocObject>, before: seq<DocObject>, b: nat, t: nat, m: MathLib, p: Params, i: nat,
                        bottomLines: seq<int>, topLines: seq<int>)
    requires b < |before| && t < |before| && 0 <= i < p.numPoints
    requires forall j :: 0 <= j < i ==> !PassRefused(m, p, Step(m, p.numPoints), j)
    requires PassRefused(m, p, Step(m, p.numPoints), i)
    requires objs == Interrupted(before, b, t, m, p, Step(m, p.numPoints), i)
    ensures SpokesDone(objs, before, b, t, m, p, true, bottomLines, topLines)
  {
    FirstRefusedAt(m, p, Step(m, p.numPoints), p.numPoints, i);
  }

  /** All n passes without a refusal end the loop. */
  lemma AllPassesEnd(objs: seq<DocObject>, before: seq<DocObject>, b: nat, t: nat, m: MathLib, p: Params,
                     bottomLines: seq<int>, topLines: seq<int>)
    requires b < |before| && t < |before| && p.numPoints > 0
    requires SpokedUpTo(objs, before, b, t, m, p, Step(m, p.numPoints), p.numPoints, bottomLines, topLines)
    ensures SpokesDone(objs, before, b, t, m, p, false, bottomLines, topLines)
  {
    FirstRefusedAt(m, p, Step(m, p.numPoints), p.numPoints, p.numPoints);
  }

  /** One pass of the point loop as the loop sees it: either the loop ends here at a
      refused line, or it goes on with one more pass done */
  method PointPass(doc: Document, b: nat, t: nat, m: MathLib, p: Params, i: nat,
                   ghost before: seq<DocObject>, bottomLines: seq<int>, topLines: seq<int>)
      returns (bottomLines': seq<int>, topLines': seq<int>, refused: bool)
    requires doc.Valid() && b < |before| && t < |before| && b != t && i < p.numPoints
    requires SpokedUpTo(doc.objects, before, b, t, m, p, Step(m, p.numPoints), i, bottomLines, topLines)
    modifies doc
    ensures doc.Valid()
    ensures refused ==> SpokesDone(doc.objects, before, b, t, m, p, true, bottomLines', topLines')
    ensures !refused ==> SpokedUpTo(doc.objects, before, b, t, m, p, Step(m, p.numPoints), i + 1, bottomLines', topLines')
  {
    bottomLines', topLines', refused := SpokesPass(doc, b, t, m, p, Step(m, p.numPoints), i, before, bottomLines, topLines);
    if refused {
      RefusedPassEnds(doc.objects, before, b, t, m, p, i, bottomLines', topLines');
    }
  }

  /** Before the first pass nothing is added. */
  lemma NoPassesYet(before: seq<DocObject>, b: nat, t: nat, m: MathLib, p: Params, step: real)
    requires b < |before| && t < |before|
    ensures SpokedUpTo(before, before, b, t, m, p, step, 0, [], [])
  {
    assert BothSpoked(before, b, t, m, p, step, 0) == before;
  }

  /** The point loop, both sketches in each pass, ending at the first refused line */
  method AddSpokes(doc: Document, b: nat, t: nat, m: MathLib, p: Params)
      returns (bottomLines: seq<int>, topLines: seq<int>, refused: bool)
    requires doc.Valid() && b < |doc.objects| && t < |doc.objects| && b != t && p.numPoints > 0
    modifies doc
    ensures doc.Valid()
    ensures SpokesDone(doc.objects, old(doc.objects), b, t, m, p, refused, bottomLines, topLines)
  {
    var step := Step(m, p.numPoints);
    ghost var before := doc.objects;
    bottomLines, topLines := [], [];
    NoPassesYet(before, b, t, m, p, step);
    var i := 0;
    while i < p.numPoints
      invariant 0 <= i <= p.numPoints && doc.Valid()
      invariant SpokedUpTo(doc.objects, before, b, t, m, p, step, i, bottomLines, topLines)
    {
      var passRefused;
      bottomLines, topLines, passRefused := PointPass(doc, b, t, m, p, i, before, bottomLines, topLines);
      if passRefused {
        return bottomLines, topLines, true;
      }
      i := i + 1;
    }
    AllPassesEnd(doc.objects, before, b, t, m, p, bottomLines, topLines);
    refused := false;
  }

  /** A sketch with `extra` constraints appended */
  function Constrained(o: DocObject, extra: seq<Constraint>): DocObject {
    o.(constraints := o.constraints + extra)
  }

  /** One pass of the chain loop: the angle between lines i and i + 1, on both sketches */
  method AddChainPair(doc: Document, b: nat, t: nat, bottomLines: seq<int>, topLines: seq<int>, value: real, i: nat)
    requires doc.Valid() && b < |doc.objects| && t < |doc.objects| && b != t
    requires i + 1 < |bottomLines| && i + 1 < |topLines|
    modifies doc
    ensures doc.Valid()
    ensures doc.objects == old(doc.objects)[b := Constrained(old(doc.objects)[b], [Angle(bottomLines[i], bottomLines[i + 1], value)])]
                                           [t := Constrained(old(doc.objects)[t], [Angle(topLines[i], topLines[i + 1], value)])]
  {
    var o := doc.objects[b];
    doc.SetObject(b, o.(constraints := o.constraints + [Angle(bottomLines[i], bottomLines[i + 1], value)]));
    o := doc.objects[t];
    doc.SetObject(t, o.(constraints := o.constraints + [Angle(topLines[i], topLines[i + 1], value)]));
  }

  /** Appending the chain's next constraint extends the chain by one. */
  lemma ChainStep(o: DocObject, lines: seq<int>, value: real, i: nat)
    requires i + 1 < |lines|
    ensures Constrained(Constrained(o, Chain(lines, value, i)), [Angle(lines[i], lines[i + 1], value)]) ==
            Constrained(o, Chain(lines, value, i + 1))
  {
    assert o.constraints + Chain(lines, value, i) + [Angle(lines[i], lines[i + 1], value)] ==
           o.constraints + (Chain(lines, value, i) + [Angle(lines[i], lines[i + 1], value)]);
  }

  /** One more pass appends the chain's next angle to each sketch as it stands. */
  lemma BothChainedStep(before: seq<DocObject>, b: nat, t: nat, bottomLines: seq<int>, topLines: seq<int>, value: real, k: nat)
    requires b < |before| && t < |before| && b != t && k + 1 < |bottomLines| && k + 1 < |topLines|
    ensures var s := BothChained(before, b, t, bottomLines, topLines, value, k);
            |s| == |before| &&
            BothChained(before, b, t, bottomLines, topLines, value, k + 1) ==
              s[b := Constrained(s[b], [Angle(bottomLines[k], bottomLines[k + 1], value)])]
               [t := Constrained(s[t], [Angle(topLines[k], topLines[k + 1], value)])]
  {
    var cb := Constrained(before[b], Chain(bottomLines, value, k));
    var ct := Constrained(before[t], Chain(topLines, value, k));
    ChainStep(before[b], bottomLines, value, k);
    ChainStep(before[t], topLines, value, k);
    UpdateTwice(before, b, t, cb, ct, Constrained(before[b], Chain(bottomLines, value, k + 1)),
                Constrained(before[t], Chain(topLines, value, k + 1)));
  }

  /** The chain loop, both sketches in each pass */
  method AddChains(doc: Document, b: nat, t: nat, bottomLines: seq<int>, topLines: seq<int>, value: real, n: int)
    requires doc.Valid() && b < |doc.objects| && t < |doc.objects| && b != t
    requires n > 1 && |bottomLines| == n && |topLines| == n
    modifies doc
    ensures doc.Valid()
    ensures doc.objects == BothChained(old(doc.objects), b, t, bottomLines, topLines, value, n - 1)
  {
    ghost var before := doc.objects;
    assert Constrained(before[b], []) == before[b] && Constrained(before[t], []) == before[t];
    var i := 0;
    while i < n - 1
      invariant 0 <= i <= n - 1 && doc.Valid() && |doc.objects| == |before|
      invariant doc.objects == BothChained(before, b, t, bottomLines, topLines, value, i)
    {
      BothChainedStep(before, b, t, bottomLines, topLines, value, i);
      AddChainPair(doc, b, t, bottomLines, topLines, value, i);
      i := i + 1;
    }
  }

  /** `addObject('Part::DatumLine', 'DatumLine')`, three times */
  method AddDatumLines(doc: Document)
    requires doc.Valid()
    modifies doc
    ensures doc.Valid()
    ensures doc.objects == WithDatumLines(old(doc.objects), DatumLineCount)
  {
    var k := 0;
    ghost var before := doc.objects;
    while k < DatumLineCount
      invariant 0 <= k <= DatumLineCount && doc.Valid()
      invariant doc.objects == WithDatumLines(before, k)
    {
      var _ := doc.AddObject(DatumLineType, DatumLineName);
      k := k + 1;
    }
  }

  /** Both sketches given their circles */
  function CirclesDrawn(before: seq<DocObject>, b: nat, t: nat, p: Params, cyl: real): seq<DocObject>
    requires b < |before| && t < |before|
  {
    before[b := Drawn(before[b], BottomPlacement, p.bottomRadius, cyl)]
          [t := Drawn(before[t], TopPlacement(p.cylinderHeight), p.topRadius, cyl)]
  }

  /** Both sketches with their chains appended */
  function BothChained(before: seq<DocObject>, b: nat, t: nat, bottomLines: seq<int>, topLines: seq<int>, value: real, k: nat): seq<DocObject>
    requires b < |before| && t < |before| && k < |bottomLines| && k < |topLines|
  {
    before[b := Constrained(before[b], Chain(bottomLines, value, k))][t := Constrained(before[t], Chain(topLines, value, k))]
  }

  /** Circles, then points, then chain, make the finished sketches. */
  lemma DrawingStages(before: seq<DocObject>, b: nat, t: nat, m: MathLib, p: Params, cyl: real)
    requires b < |before| && t < |before| && b != t
    ensures var c := CirclesDrawn(before, b, t, p, cyl);
            var n := p.numPoints;
            (n <= 0 ==> c == DrawnSketches(before, b, t, m, p, cyl)) &&
            (n == 1 ==> BothSpoked(c, b, t, m, p, Step(m, n), n) == DrawnSketches(before, b, t, m, p, cyl)) &&
            (n > 1 ==>
               var bl := LinesUpTo(c[b], 0, m, p.bottomRadius, p.bottomAngle, Step(m, n), n);
               var tl := LinesUpTo(c[t], 0, m, p.topRadius, p.topAngle, Step(m, n), n);
               BothChained(BothSpoked(c, b, t, m, p, Step(m, n), n), b, t, bl, tl, Radians(m, 360.0 / n as real), n - 1) ==
                 DrawnSketches(before, b, t, m, p, cyl))
  {
    var n := p.numPoints;
    var db := Drawn(before[b], BottomPlacement, p.bottomRadius, cyl);
    var dt := Drawn(before[t], TopPlacement(p.cylinderHeight), p.topRadius, cyl);
    if n > 0 {
      var sb := Spoked(db, m, p.bottomRadius, p.bottomAngle, n);
      var st := Spoked(dt, m, p.topRadius, p.topAngle, n);
      UpdateTwice(before, b, t, db, dt, sb, st);
      if n > 1 {
        var bl := LinesUpTo(db, 0, m, p.bottomRadius, p.bottomAngle, Step(m, n), n);
        var tl := LinesUpTo(dt, 0, m, p.topRadius, p.topAngle, Step(m, n), n);
        var value := Radians(m, 360.0 / n as real);
        UpdateTwice(before, b, t, sb, st, Constrained(sb, Chain(bl, value, n - 1)), Constrained(st, Chain(tl, value, n - 1)));
      }
    }
  }

  /** The two circles and their constraints, on both sketches */
  method DrawCircles(doc: Document, b: nat, t: nat, p: Params, cyl: real)
    requires doc.Valid() && b < |doc.objects| && t < |doc.objects| && b != t
    modifies doc
    ensures doc.Valid()
    ensures doc.objects == CirclesDrawn(old(doc.objects), b, t, p, cyl)
  {
    var ob, ot := doc.objects[b], doc.objects[t];
    doc.SetObject(b, Drawn(ob, BottomPlacement, p.bottomRadius, cyl));
    doc.SetObject(t, Drawn(ot, TopPlacement(p.cylinderHeight), p.topRadius, cyl));
  }

  /** The circles, points and chain that follow the clearing, on both sketches, ending
      at a refused line */
  method DrawBoth(doc: Document, b: nat, t: nat, m: MathLib, p: Params, cyl: real) returns (r: Result<()>)
    requires doc.Valid() && b < |doc.objects| && t < |doc.objects| && b != t
    modifies doc
    ensures doc.Valid()
    ensures !LinesRefused(m, p) ==> r == Ok(()) && doc.objects == DrawnSketches(old(doc.objects), b, t, m, p, cyl)
    ensures LinesRefused(m, p) ==>
              var step := Step(m, p.numPoints);
              r == Err(LineRefused) &&
              doc.objects == Interrupted(CirclesDrawn(old(doc.objects), b, t, p, cyl), b, t, m, p, step, FirstRefused(m, p, step, p.numPoints))
  {
    ghost var before := doc.objects;
    DrawCircles(doc, b, t, p, cyl);
    DrawingStages(before, b, t, m, p, cyl);
    if p.numPoints > 0 {
      var bottomLines, topLines, refused := AddSpokes(doc, b, t, m, p);
      if refused {
        return Err(LineRefused);
      }
      ghost var spoked := doc.objects;
      if p.numPoints > 1 {
        AddChains(doc, b, t, bottomLines, topLines, Radians(m, 360.0 / p.numPoints as real), p.numPoints);
        assert doc.objects == BothChained(spoked, b, t, bottomLines, topLines, Radians(m, 360.0 / p.numPoints as real), p.numPoints - 1);
      }
    }
    r := Ok(());
  }

  /** Finding or adding both sketches */
  method GetSketches(doc: Document) returns (r: Slots)
    requires doc.Valid()
    modifies doc
    ensures doc.Valid()
    ensures r == FindSketches(old(doc.objects)) && doc.objects == r.objs
  {
    ghost var o := doc.objects;
    var s1 := GetOrAddSketch(doc, BottomName);
    if s1.None? {
      return NotSketch(doc.objects, BottomNotSketch);
    }
    var s2 := GetOrAddSketch(doc, TopName);
    if s2.None? {
      return NotSketch(doc.objects, TopNotSketch);
    }
    r := Slots(doc.objects, s1.value, s2.value);
  }

  /** Placing a sketch and deleting its geometry, last entry first */
  method PlaceAndClear(doc: Document, i: nat, at: Placement)
    requires doc.Valid() && i < |doc.objects|
    modifies doc
    ensures doc.Valid()
    ensures doc.objects == old(doc.objects)[i := Cleared(old(doc.objects)[i], at)]
  {
    doc.SetObject(i, doc.objects[i].(placement := at));
    ClearGeometry(doc, i);
  }

  /** Placing and emptying both sketches, the bottom one first */
  method PlaceBoth(doc: Document, i: nat, j: nat, height: real)
    requires doc.Valid() && i < |doc.objects| && j < |doc.objects| && i != j
    modifies doc
    ensures doc.Valid()
    ensures doc.objects == Placed(old(doc.objects), i, j, height)
  {
    PlaceAndClear(doc, i, BottomPlacement);
    PlaceAndClear(doc, j, TopPlacement(height));
  }

  /** Drawing does not depend on what placing and clearing changed, and placing keeps
      every var-set reading. */
  lemma PlacedThenDrawn(b: seq<DocObject>, i: nat, j: nat, m: MathLib, p: Params, cyl: real, v: nat, prop: string)
    requires i < |b| && j < |b| && i != j && v < |b|
    ensures DrawnSketches(Placed(b, i, j, p.cylinderHeight), i, j, m, p, cyl) == DrawnSketches(b, i, j, m, p, cyl)
    ensures CirclesDrawn(Placed(b, i, j, p.cylinderHeight), i, j, p, cyl) == CirclesDrawn(b, i, j, p, cyl)
    ensures Read(Placed(b, i, j, p.cylinderHeight), v, prop) == Read(b, v, prop)
  {
    var c := Placed(b, i, j, p.cylinderHeight);
    assert Drawn(c[i], BottomPlacement, p.bottomRadius, cyl) == Drawn(b[i], BottomPlacement, p.bottomRadius, cyl);
    assert Drawn(c[j], TopPlacement(p.cylinderHeight), p.topRadius, cyl) == Drawn(b[j], TopPlacement(p.cylinderHeight), p.topRadius, cyl);
    UpdateTwice(b, i, j, Cleared(b[i], BottomPlacement), Cleared(b[j], TopPlacement(p.cylinderHeight)),
                Finished(b[i], BottomPlacement, m, p.bottomRadius, p.bottomAngle, cyl, p.numPoints),
                Finished(b[j], TopPlacement(p.cylinderHeight), m, p.topRadius, p.topAngle, cyl, p.numPoints));
    assert c[v].properties == b[v].properties;
  }

  /** The handler once a document is open */
  method AddSketchesTo(doc: Document, v: nat, m: MathLib) returns (r: Result<()>)
    requires doc.Valid() && v < |doc.objects|
    modifies doc
    ensures doc.Valid()
    ensures Outcome(doc.objects, r) == AddSketches(old(doc.objects), v, m)
  {
    var p := ReadParams(doc.objects, v);
    var s := GetSketches(doc);
    if s.NotSketch? {
      return Err(s.message);
    }
    r := DrawOnSlots(doc, s.bottom, s.top, v, m, p);
  }

  /** Placing both sketches, then drawing them unless a circle radius is refused */
  method DrawOnSlots(doc: Document, i: nat, j: nat, v: nat, m: MathLib, p: Params) returns (r: Result<()>)
    requires doc.Valid() && i < |doc.objects| && j < |doc.objects| && i != j && v < |doc.objects|
    modifies doc
    ensures doc.Valid()
    ensures Outcome(doc.objects, r) == OnSlots(old(doc.objects), i, j, m, p, CircleRadius(Read(old(doc.objects), v, "CylinderRadius")))
  {
    ghost var b := doc.objects;
    ghost var cyl0 := CircleRadius(Read(b, v, "CylinderRadius"));
    PlaceBoth(doc, i, j, p.cylinderHeight);
    PlacedThenDrawn(b, i, j, m, p, if cyl0.Some? then cyl0.value else 0.0, v, "CylinderRadius");
    if p.bottomRadius < 0.0 || p.topRadius < 0.0 {
      return Err(CircleRefused);
    }
    var cyl := CircleRadius(Read(doc.objects, v, "CylinderRadius"));
    if cyl.None? {
      return Err(CircleRadiusError);
    }
    if cyl.value < 0.0 {
      return Err(CircleRefused);
    }
    r := DrawAll(doc, i, j, m, p, cyl.value);
  }

  /** Both sketches drawn, then the datum lines when nothing was refused */
  method DrawAll(doc: Document, i: nat, j: nat, m: MathLib, p: Params, cyl: real) returns (r: Result<()>)
    requires doc.Valid() && i < |doc.objects| && j < |doc.objects| && i != j
    modifies doc
    ensures doc.Valid()
    ensures Outcome(doc.objects, r) == Drawing(old(doc.objects), i, j, m, p, cyl)
  {
    r := DrawBoth(doc, i, j, m, p, cyl);
    if r.Err? {
      return;
    }
    if p.numPoints > 0 {
      AddDatumLines(doc);
    }
  }
}
