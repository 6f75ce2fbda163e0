/** The "Add Catenary Curve" command: a new upright sketch carrying its curve's
    dimensions as properties (Sag 250, XStart 0, XEnd 300, YStart 0, NumPoints 50) and a
    B-spline through the 51 poles those dimensions give. */
module AddCatenaryCurve {
  import opened Wrappers
  import opened Geometry
  import opened Doc
  import opened CatenaryCurve

  /** The dimensions the command stores on the sketch */
  function SketchProperties(): map<string, Value> {
    map["Sag" := IntValue(250), "XStart" := FloatValue(0.0), "XEnd" := FloatValue(300.0),
        "YStart" := FloatValue(0.0), "NumPoints" := IntValue(50)]
  }

  const Dimensions := ["Sag", "XStart", "XEnd", "YStart", "NumPoints"]

  /** A stored number read back (an integer property reads as its value) */
  function Number(v: Value): real {
    match v
    case IntValue(i) => i as real
    case FloatValue(r) => r
    case Quantity(q) => q
    case _ => 0.0
  }

  function Whole(v: Value): int {
    if v.IntValue? then v.i else 0
  }

  /** `sketch.Sag`, `sketch.XStart`, ... as the pole loop reads them */
  function StoredParams(props: map<string, Value>): CatenaryParams
    requires forall d :: d in Dimensions ==> d in props
  {
    CatenaryParams(Number(props["Sag"]), Number(props["XStart"]), Number(props["XEnd"]), Number(props["YStart"]),
                   Whole(props["NumPoints"]))
  }

  /** The stored dimensions read back as the command's defaults. */
  lemma StoredDefaults()
    ensures forall d :: d in Dimensions ==> d in SketchProperties()
    ensures StoredParams(SketchProperties()) == CatenaryParams(250.0, 0.0, 300.0, 0.0, 50)
  {
  }

  /** The curve the command draws */
  const Defaults := CatenaryParams(250.0, 0.0, 300.0, 0.0, 50)

  /** The objects after the command, once a document is open: the new sketch with its
      dimensions, then its B-spline, unless a pole's `math.cosh` overflows and the
      exception handler leaves the sketch without geometry */
  function AddCurve(objs: seq<DocObject>, m: MathLib): (r: Outcome<nat>)
    ensures |r.objs| == |objs| + 1 && r.objs[..|objs|] == objs
    ensures r.objs[|objs|].typeId == SketchType && r.objs[|objs|].placement == SketchPlacement &&
            r.objs[|objs|].properties == SketchProperties()
    ensures r.result.Ok? <==> !CoshOverflows(m, Defaults)
    ensures r.result.Ok? ==> r.result.value == |objs| && |r.objs[|objs|].geometry| == 1
    ensures r.result.Err? ==> r.result == Err(CurveOverflow) && r.objs[|objs|].geometry == []
  {
    var s := NewSketch(objs).(properties := SketchProperties());
    var r := match Poles(m, Defaults, false)
      case Err(e) => Outcome(objs + [s], Err(e))
      case Ok(ps) => Outcome(objs + [s.(geometry := [Geo(BSpline(ps), false)])], Ok(|objs|));
    assert r.objs[..|objs|] == objs;
    r
  }

  /** The curve has exactly 51 poles, in the sketch plane; with cosh(0) = 1 the first is
      the origin, and the last sits over XEnd = 300; each pole lies on the catenary with
      sag 250. */
  lemma CurvePoles(objs: seq<DocObject>, m: MathLib, i: nat)
    requires i < PoleCount && AddCurve(objs, m).result.Ok?
    ensures var s := AddCurve(objs, m).objs[|objs|];
            s.geometry[0].curve.BSpline? &&
            var ps := s.geometry[0].curve.poles;
            |ps| == PoleCount && ps[i].z == 0.0 &&
            ps[i].y == 250.0 * (m.cosh(ps[i].x / 250.0) - 1.0) &&
            ps[PoleCount - 1].x == 300.0 &&
            (m.cosh(0.0) == 1.0 ==> ps[0] == Origin)
  {
    var c := Defaults;
    PolesUpToAt(m, c, false, PoleCount, i);
    PolesUpToAt(m, c, false, PoleCount, 0);
    PolesUpToAt(m, c, false, PoleCount, PoleCount - 1);
    PoleXSpacing(c, 0);
    if m.cosh(0.0) == 1.0 {
      PoleYAtZero(m, c);
    }
  }

  /** The command's own curve stays within double precision: when `math.cosh` overflows
      only beyond 710 either way, every x / sag is at most 1.2 and the curve is drawn. */
  lemma DefaultCurveDrawn(objs: seq<DocObject>, m: MathLib)
    requires forall x: real :: m.coshOverflows(x) ==> x < -710.0 || x > 710.0
    ensures AddCurve(objs, m).result.Ok?
  {
    forall i | 0 <= i < PoleCount
      ensures !m.coshOverflows(PoleX(Defaults, i) / Defaults.sag)
    {
      assert PoleX(Defaults, i) == 6.0 * i as real;
      assert PoleX(Defaults, i) / Defaults.sag <= 1.2;
    }
  }

  /** `Activated`: the sketch, its five dimensions, then the poles read from them */
  method Activated(doc: Document, hasDoc: bool, m: MathLib) returns (r: Result<nat>)
    requires doc.Valid()
    modifies doc
    ensures doc.Valid()
    ensures !hasDoc ==> r == Err(NoDocument) && doc.objects == old(doc.objects)
    ensures hasDoc ==> Outcome(doc.objects, r) == AddCurve(old(doc.objects), m)
  {
    if !hasDoc {
      return Err(NoDocument);
    }
    ghost var before := doc.objects;
    var i := doc.AddObject(SketchType, SketchName);
    doc.SetObject(i, doc.objects[i].(placement := SketchPlacement));
    StoreDimensions(doc, i);
    assert doc.objects == before + [NewSketch(before).(properties := SketchProperties())];
    StoredDefaults();
    var c := StoredParams(doc.objects[i].properties);
    var computed := ComputePoles(m, c, false);
    if computed.Err? {
      return Err(computed.message);
    }
    var poles := computed.value;
    assert [] + [Geo(BSpline(poles), false)] == [Geo(BSpline(poles), false)];
    doc.SetObject(i, doc.objects[i].(geometry := doc.objects[i].geometry + [Geo(BSpline(poles), false)]));
    r := Ok(i);
  }

  /** The five `addProperty` calls on a sketch that has no properties yet */
  method StoreDimensions(doc: Document, i: nat)
    requires doc.Valid() && i < |doc.objects| && doc.objects[i].properties == map[]
    modifies doc
    ensures doc.Valid()
    ensures doc.objects == old(doc.objects)[i := old(doc.objects)[i].(properties := SketchProperties())]
  {
    ghost var o := doc.objects[i];
    doc.SetObject(i, doc.objects[i].(properties := doc.objects[i].properties["Sag" := IntValue(250)]));
    doc.SetObject(i, doc.objects[i].(properties := doc.objects[i].properties["XStart" := FloatValue(0.0)]));
    doc.SetObject(i, doc.objects[i].(properties := doc.objects[i].properties["XEnd" := FloatValue(300.0)]));
    doc.SetObject(i, doc.objects[i].(properties := doc.objects[i].properties["YStart" := FloatValue(0.0)]));
    doc.SetObject(i, doc.objects[i].(properties := doc.objects[i].properties["NumPoints" := IntValue(50)]));
    assert doc.objects[i].properties == SketchProperties();
    assert doc.objects[i] == o.(properties := SketchProperties());
  }
}
