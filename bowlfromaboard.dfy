/** The bowl-from-a-board panel: a stack of rings, each the revolution of a trapezoid
    cross-section about the z-axis, the bottom one solid, each later ring one ring width
    further out and one ring thickness higher, and every ring cloned once per slice. */
module BowlFromABoard {
  import opened Wrappers
  import opened Geometry
  import opened Text
  import opened Numbers
  import opened Doc

  const TrapezoidSketchName := "TrapezoidSketch"
  const CloneType := "Part::FeaturePython"
  const CloneName := "Clone"
  const NoDocument := "'NoneType' object has no attribute 'addObject'"
  const DivisionByZero := "float division by zero"
  const NotANumber := "could not convert string to float"
  const UnboundLoopVariable := "cannot access local variable 'i' where it is not associated with a value"

  /** Where a ring sits in the stack: the solid bottom disc, a ring between, or the top */
  datatype RingKind = BottomRing | InnerRing | TopRing

  /** The arguments of one `make_ring` call */
  datatype RingSpec = RingSpec(
    kind: RingKind,
    innerRadius: real,
    startHeight: real,
    ringHeight: real,
    baseLength: real,
    angleDeg: real,
    name: string)

  /** The cross-section corners A, B, C, D (bottom left, bottom right, top right, top
      left) of a ring, in the upright sketch plane; t is the tangent of the slice angle. */
  function RingVertices(spec: RingSpec, t: real): (vs: seq<Vec3>)
    requires t != 0.0
    ensures |vs| == 4
  {
    var r := spec.innerRadius;
    var s := spec.startHeight;
    var h := spec.ringHeight;
    var b := spec.baseLength;
    match spec.kind
    case InnerRing => [P2(r, s), P2(r + b, s), P2(r + b + h / t, s + h), P2(r + h / t, s + h)]
    case BottomRing => [P2(0.0, 0.0), P2(b, 0.0), P2(b + h / t, h), P2(0.0, h)]
    case TopRing => [P2(r, s), P2(r + b, s), P2(r + b, s + h), P2(r + h / t, s + h)]
  }

  /** Every cross-section has a horizontal bottom edge of the base length and a
      horizontal top edge one ring height higher; the bottom ring rests on the origin. */
  lemma RingEdges(spec: RingSpec, t: real)
    requires t != 0.0
    ensures var vs := RingVertices(spec, t);
            var s := if spec.kind == BottomRing then 0.0 else spec.startHeight;
            vs[0].y == vs[1].y == s && vs[2].y == vs[3].y == s + spec.ringHeight &&
            vs[1].x - vs[0].x == spec.baseLength &&
            (spec.kind == BottomRing ==> vs[0] == Origin)
  {
  }

  /** The sides: a slanted side leans at the slice angle (rising t for each unit
      outward); the bottom ring's inner side stands on the axis, the top ring's outer side
      stands straight above its bottom corner. */
  lemma RingSides(spec: RingSpec, t: real)
    requires t != 0.0
    ensures var vs := RingVertices(spec, t);
            (spec.kind != TopRing ==> (vs[2].x - vs[1].x) * t == vs[2].y - vs[1].y) &&
            (spec.kind == TopRing ==> vs[2].x == vs[1].x) &&
            (spec.kind != BottomRing ==> (vs[3].x - vs[0].x) * t == vs[3].y - vs[0].y) &&
            (spec.kind == BottomRing ==> vs[3].x == vs[0].x == 0.0)
  {
    var h := spec.ringHeight;
    assert h / t * t == h;
  }

  /** An inner ring's cross-section is a parallelogram: C − D = B − A and D − A = C − B. */
  lemma InnerRingIsParallelogram(spec: RingSpec, t: real)
    requires t != 0.0 && spec.kind == InnerRing
    ensures var vs := RingVertices(spec, t);
            vs[2].x - vs[3].x == vs[1].x - vs[0].x && vs[2].y - vs[3].y == vs[1].y - vs[0].y &&
            vs[3].x - vs[0].x == vs[2].x - vs[1].x && vs[3].y - vs[0].y == vs[2].y - vs[1].y
  {
  }

  /** The panel's numbers */
  datatype BoardSettings = BoardSettings(
    boardWidth: real,
    sliceThickness: real,
    sliceAngle: real,
    bowlHeight: real,
    baseRingRadius: real,
    ringThickness: real,
    ringWidth: real,
    numberOfRings: int,
    numberOfSlices: int)

  /** `make_ring(0, 0, ring_thickness, base_ring_radius, slice_angle, "bottom", "Ring0")` */
  function BottomSpec(s: BoardSettings): RingSpec {
    RingSpec(BottomRing, 0.0, 0.0, s.ringThickness, s.baseRingRadius, s.sliceAngle, "Ring0")
  }

  /** The inner ring made in pass i of the loop */
  function InnerSpec(s: BoardSettings, i: nat): RingSpec {
    RingSpec(InnerRing, s.baseRingRadius + s.ringWidth * i as real, s.ringThickness * (i + 1) as real,
             s.ringThickness, s.ringWidth, s.sliceAngle, "Ring" + NatToString(i + 1))
  }

  /** The top ring, made with the loop variable i left from the last pass */
  function TopSpec(s: BoardSettings, i: nat): RingSpec {
    RingSpec(TopRing, s.baseRingRadius + s.ringWidth * (i + 1) as real, s.ringThickness * (i + 1) as real + s.ringThickness,
             s.ringThickness, s.ringWidth, s.sliceAngle, "Ring" + NatToString(i + 2))
  }

  /** The rings a click makes: the bottom ring, `number_of_rings - 2` inner rings and the
      top ring; with fewer than 3 rings the loop never sets i and only the bottom ring is
      made before the top ring's arguments fail. */
  function RingPlan(s: BoardSettings): (plan: seq<RingSpec>)
    ensures |plan| == if s.numberOfRings >= 3 then s.numberOfRings else 1
  {
    if s.numberOfRings >= 3 then
      [BottomSpec(s)] + seq(s.numberOfRings - 2, i requires 0 <= i < s.numberOfRings - 2 => InnerSpec(s, i)) +
      [TopSpec(s, s.numberOfRings - 3)]
    else [BottomSpec(s)]
  }

  lemma StepHeight(t: real, k: nat)
    ensures t * (k + 1) as real == t * k as real + t
  {
  }

  /** Which call makes ring k of a plan of three or more */
  lemma PlanEntry(s: BoardSettings, k: nat)
    requires s.numberOfRings >= 3 && k < s.numberOfRings
    ensures RingPlan(s)[k] ==
              if k == 0 then BottomSpec(s)
              else if k < s.numberOfRings - 1 then InnerSpec(s, k - 1)
              else TopSpec(s, s.numberOfRings - 3)
  {
  }

  /** The facts about ring k >= 1 of a plan */
  ghost predicate UpperRing(s: BoardSettings, k: nat, spec: RingSpec) {
    spec.startHeight == s.ringThickness * k as real &&
    spec.innerRadius == s.baseRingRadius + s.ringWidth * (k - 1) as real &&
    spec.baseLength == s.ringWidth && spec.ringHeight == s.ringThickness && spec.angleDeg == s.sliceAngle &&
    spec.name == "Ring" + NatToString(k)
  }

  lemma InnerRingAt(s: BoardSettings, k: nat)
    requires s.numberOfRings >= 3 && 1 <= k < s.numberOfRings - 1
    ensures RingPlan(s)[k].kind == InnerRing && UpperRing(s, k, RingPlan(s)[k])
  {
    PlanEntry(s, k);
    InnerSpecIsUpper(s, k - 1);
  }

  /** The inner ring of pass i is ring i + 1 of the plan. */
  lemma InnerSpecIsUpper(s: BoardSettings, i: nat)
    ensures UpperRing(s, i + 1, InnerSpec(s, i))
  {
  }

  lemma TopRingAt(s: BoardSettings, k: nat)
    requires s.numberOfRings >= 3 && k == s.numberOfRings - 1
    ensures RingPlan(s)[k].kind == TopRing && UpperRing(s, k, RingPlan(s)[k])
  {
    PlanEntry(s, k);
    TopSpecIsUpper(s, k - 2);
  }

  /** The top ring, made after the last pass i, is ring i + 2 of the plan. */
  lemma TopSpecIsUpper(s: BoardSettings, i: nat)
    ensures UpperRing(s, i + 2, TopSpec(s, i))
  {
    StepHeight(s.ringThickness, i + 1);
  }

  /** Ring k of a plan of three or more: the first is the bottom ring "Ring0" on the
      origin; ring k >= 1 starts at k ring thicknesses, lies `ring_width · (k - 1)`
      outside the base radius and is named "Ring<k>"; the last is the top ring, those
      between are inner rings. */
  lemma RingAt(s: BoardSettings, k: nat)
    requires s.numberOfRings >= 3 && k < s.numberOfRings
    ensures var spec := RingPlan(s)[k];
            spec.ringHeight == s.ringThickness && spec.angleDeg == s.sliceAngle &&
            spec.kind == (if k == 0 then BottomRing else if k < s.numberOfRings - 1 then InnerRing else TopRing) &&
            (k == 0 ==> spec.name == "Ring0" && spec.startHeight == 0.0 && spec.baseLength == s.baseRingRadius) &&
            (k >= 1 ==> UpperRing(s, k, spec))
  {
    if k == 0 {
      PlanEntry(s, k);
    } else if k < s.numberOfRings - 1 {
      InnerRingAt(s, k);
    } else {
      TopRingAt(s, k);
    }
  }

  /** The rings stack without gaps: each starts where the one below ends. */
  lemma RingsStack(s: BoardSettings, k: nat)
    requires s.numberOfRings >= 3 && k < s.numberOfRings - 1
    ensures RingPlan(s)[k + 1].startHeight == RingPlan(s)[k].startHeight + RingPlan(s)[k].ringHeight
  {
    PlanEntry(s, k);
    PlanEntry(s, k + 1);
    if k == 0 {
      assert InnerSpec(s, 0).startHeight == s.ringThickness * 1.0;
    } else if k + 1 < s.numberOfRings - 1 {
      InnerOnInner(s, k - 1);
    } else {
      TopOnInner(s, k - 1);
    }
  }

  /** The top ring, made after pass i, starts where the inner ring of pass i ends. */
  lemma TopOnInner(s: BoardSettings, i: nat)
    ensures TopSpec(s, i).startHeight == InnerSpec(s, i).startHeight + s.ringThickness
  {
  }

  /** The inner ring of pass i + 1 starts where that of pass i ends. */
  lemma InnerOnInner(s: BoardSettings, i: nat)
    ensures InnerSpec(s, i + 1).startHeight == InnerSpec(s, i).startHeight + s.ringThickness
  {
    var a := s.ringThickness;
    assert InnerSpec(s, i + 1).startHeight == a * (i + 2) as real;
    assert InnerSpec(s, i).startHeight == a * (i + 1) as real;
    StepHeight(a, i + 1);
  }

  /** `bowl_width` and `bowl_height` of the bowl-generating click */
  function BowlExtents(s: BoardSettings): (real, real) {
    ((s.baseRingRadius + s.ringWidth * s.numberOfRings as real) * 2.0,
     s.sliceThickness * s.numberOfRings as real + 2.0 * s.sliceThickness)
  }

  /** Half the bowl width reaches one ring width past the top ring's outer wall. */
  lemma BowlWidthClearsTopRing(s: BoardSettings, t: real)
    requires s.numberOfRings >= 3 && t != 0.0
    ensures var top := RingVertices(RingPlan(s)[s.numberOfRings - 1], t);
            BowlExtents(s).0 / 2.0 == top[1].x + s.ringWidth == top[2].x + s.ringWidth
  {
    var n := s.numberOfRings;
    assert RingPlan(s)[n - 1] == TopSpec(s, n - 3);
    assert s.ringWidth * (n - 2) as real + s.ringWidth + s.ringWidth == s.ringWidth * n as real;
  }

  // ---------------------------------------------------------------------------
  // The document objects of one ring

  /** The sketch as `make_ring` leaves it when it fails before drawing: added and turned
      upright, nothing more */
  function EmptyRingSketch(name: string): DocObject {
    NewObject(SketchType, name).(placement := Placement(Origin, Rotation(0.0, 90.0)))
  }

  /** The cross-section sketch, upright, hidden, its four lines closed by coincidences */
  function RingSketch(name: string, spec: RingSpec, t: real): DocObject
    requires t != 0.0
  {
    NewObject(SketchType, name).(placement := Placement(Origin, Rotation(0.0, 90.0)), visible := false,
                                 geometry := Loop(RingVertices(spec, t)), constraints := QuadCoincidences)
  }

  /** The full revolution of the sketch about z, hidden */
  function Revolution(name: string, sketchName: string): DocObject {
    NewObject(RevolutionType, name).(visible := false, shape := KernelShape,
                                     properties := map["Source" := TextValue(sketchName), "Axis" := VectorValue(Vec3(0.0, 0.0, 1.0)),
                                                       "Angle" := Quantity(360.0)])
  }

  /** A linked clone of the revolution, labelled "<ring name>_1" */
  function RingClone(name: string, revolutionName: string, ringName: string): DocObject {
    NewObject(CloneType, name).(labelText := ringName + "_1", shape := KernelShape,
                                properties := map["Objects" := TextValue(revolutionName)])
  }

  /** The `count` objects from index `from` are clones of the named revolution. */
  ghost predicate ClonesAt(objs: seq<DocObject>, from: nat, count: nat, revolutionName: string, ringName: string) {
    from + count <= |objs| &&
    forall j :: from <= j < from + count ==>
      objs[j] == RingClone(objs[j].name, revolutionName, ringName) && StartsWith(objs[j].name, CloneName)
  }

  /** The objects from index `at` are one ring's: its sketch, its revolution and its
      `slices` clones of that revolution. */
  ghost predicate RingBlock(objs: seq<DocObject>, at: nat, spec: RingSpec, t: real, slices: nat)
    requires t != 0.0
  {
    at + 2 + slices <= |objs| &&
    objs[at] == RingSketch(objs[at].name, spec, t) && StartsWith(objs[at].name, TrapezoidSketchName) &&
    objs[at + 1] == Revolution(objs[at + 1].name, objs[at].name) && StartsWith(objs[at + 1].name, spec.name) &&
    ClonesAt(objs, at + 2, slices, objs[at + 1].name, spec.name)
  }

  /** Objects appended later leave a ring's block as it was. */
  lemma RingBlockKept(objs: seq<DocObject>, more: seq<DocObject>, at: nat, spec: RingSpec, t: real, slices: nat)
    requires t != 0.0 && RingBlock(objs, at, spec, t, slices)
    requires |objs| <= |more| && more[..|objs|] == objs
    ensures RingBlock(more, at, spec, t, slices)
  {
    forall k | 0 <= k < |objs|
      ensures more[k] == objs[k]
    {
      assert more[..|objs|][k] == more[k];
    }
  }

  /** The cross-section of every ring is a closed loop. */
  lemma RingSketchClosed(name: string, spec: RingSpec, t: real)
    requires t != 0.0
    ensures forall c :: c in RingSketch(name, spec, t).constraints ==> CoincidenceHolds(RingSketch(name, spec, t).geometry, c)
  {
    QuadLoopClosed(RingVertices(spec, t));
  }

  /** The object `make_ring` hides and clones as written: `doc.getObject(ring_name)`,
      looked up by the requested name after the revolution was added */
  function ViewedObjectAsWritten(objs: seq<DocObject>, ringName: string): (r: Option<nat>)
    ensures r.Some? ==> r.value < |objs| && objs[r.value].name == ringName
  {
    FindByName(objs, ringName)
  }

  /** When the document already holds an object named like the ring (a second click
      makes "Ring0" again), the new revolution gets a fresh name and the lookup finds the
      old object: the old one is hidden and cloned, the new revolution is neither. */
  lemma RepeatedRingNameClonesOldObject(before: seq<DocObject>, ringName: string, sketchName: string)
    requires ringName in Names(before)
    ensures var rev := Revolution(FreshName(ringName, Names(before)), sketchName);
            var v := ViewedObjectAsWritten(before + [rev], ringName);
            v.Some? && v.value < |before| && (before + [rev])[v.value] != rev
  {
    var rev := Revolution(FreshName(ringName, Names(before)), sketchName);
    LookupAfterAddFindsOld(before, ringName, rev);
  }

  /** `doc.addObject("Part::Revolution", ring_name)` set up from the sketch last added;
      the corrected `make_ring` goes on with this object rather than a lookup by name. */
  method AddRingHead(doc: Document, spec: RingSpec, t: real) returns (revolutionName: string)
    requires doc.Valid() && |doc.objects| >= 1 && t != 0.0
    modifies doc
    ensures doc.Valid()
    ensures var at := |old(doc.objects)| - 1;
            |doc.objects| == at + 2 && doc.objects[..at] == old(doc.objects)[..at] &&
            doc.objects[at] == RingSketch(old(doc.objects)[at].name, spec, t) &&
            revolutionName == FreshName(spec.name, Names(old(doc.objects))) &&
            doc.objects[at + 1] == Revolution(revolutionName, old(doc.objects)[at].name)
  {
    var s := |doc.objects| - 1;
    var sketchName := doc.objects[s].name;
    doc.SetObject(s, RingSketch(sketchName, spec, t));
    assert Names(doc.objects) == Names(old(doc.objects));
    var v := doc.AddObject(RevolutionType, spec.name);
    revolutionName := doc.objects[v].name;
    doc.SetObject(v, Revolution(revolutionName, sketchName));
  }

  /** `Draft.clone(view_obj)` with the label set: appends the clone. */
  method AddClone(doc: Document, revolutionName: string, ringName: string) returns (name: string)
    requires doc.Valid()
    modifies doc
    ensures doc.Valid()
    ensures doc.objects == old(doc.objects) + [RingClone(name, revolutionName, ringName)]
    ensures StartsWith(name, CloneName)
  {
    var k := doc.AddObject(CloneType, CloneName);
    name := doc.objects[k].name;
    doc.SetObject(k, RingClone(name, revolutionName, ringName));
  }

  /** The clone loop of `make_ring`: `count` clones (none for a count below 1), and their
      Names in order */
  method AddClones(doc: Document, count: int, revolutionName: string, ringName: string) returns (names: seq<string>)
    requires doc.Valid()
    modifies doc
    ensures doc.Valid()
    ensures var at := |old(doc.objects)|;
            |doc.objects| == at + Max0(count) && doc.objects[..at] == old(doc.objects) &&
            ClonesAt(doc.objects, at, Max0(count), revolutionName, ringName) &&
            names == Names(doc.objects[at..])
  {
    ghost var at := |doc.objects|;
    names := [];
    var i := 0;
    while i < count
      invariant 0 <= i <= Max0(count)
      invariant doc.Valid() && |doc.objects| == at + i && doc.objects[..at] == old(doc.objects)
      invariant ClonesAt(doc.objects, at, i, revolutionName, ringName)
      invariant names == Names(doc.objects[at..])
    {
      ghost var before := doc.objects;
      var name := AddClone(doc, revolutionName, ringName);
      assert doc.objects[at..] == before[at..] + [doc.objects[at + i]];
      names := names + [name];
      i := i + 1;
    }
  }

  /** The panel's text boxes, in the order `update_values` reads them */
  datatype BoardInputs = BoardInputs(
    boardWidth: string, sliceThickness: string, sliceAngle: string, bowlHeight: string,
    baseRingRadius: string, ringThickness: string, ringWidth: string,
    numberOfRings: string, numberOfSlices: string)

  /** Each box converted on its own: `float(...)` for the first seven, `int(...)` for
      the ring and slice counts */
  datatype Converted = Converted(
    boardWidth: Option<real>, sliceThickness: Option<real>, sliceAngle: Option<real>, bowlHeight: Option<real>,
    baseRingRadius: Option<real>, ringThickness: Option<real>, ringWidth: Option<real>,
    numberOfRings: Option<int>, numberOfSlices: Option<int>)

  function Convert(inp: BoardInputs): Converted {
    Converted(ParseReal(inp.boardWidth), ParseReal(inp.sliceThickness), ParseReal(inp.sliceAngle),
              ParseReal(inp.bowlHeight), ParseReal(inp.baseRingRadius), ParseReal(inp.ringThickness),
              ParseReal(inp.ringWidth), ParseInt(inp.numberOfRings), ParseInt(inp.numberOfSlices))
  }

  /** How many conversions, from the first, succeed before one fails (9 when all do) */
  function ConvertedCount(p: Converted): (k: nat)
    ensures k <= 9
  {
    if p.boardWidth.None? then 0
    else if p.sliceThickness.None? then 1
    else if p.sliceAngle.None? then 2
    else if p.bowlHeight.None? then 3
    else if p.baseRingRadius.None? then 4
    else if p.ringThickness.None? then 5
    else if p.ringWidth.None? then 6
    else if p.numberOfRings.None? then 7
    else if p.numberOfSlices.None? then 8
    else 9
  }

  /** How many boxes, from the first, convert before one fails (9 when all do) */
  function FieldsParsed(inp: BoardInputs): (k: nat)
    ensures k <= 9
  {
    ConvertedCount(Convert(inp))
  }

  /** The settings after assigning the conversions in order, the first that failed
      ending it */
  function UpdatedFrom(c: BoardSettings, p: Converted): BoardSettings {
    if p.boardWidth.None? then c else
    var c := c.(boardWidth := p.boardWidth.value);
    if p.sliceThickness.None? then c else
    var c := c.(sliceThickness := p.sliceThickness.value);
    if p.sliceAngle.None? then c else
    var c := c.(sliceAngle := p.sliceAngle.value);
    if p.bowlHeight.None? then c else
    var c := c.(bowlHeight := p.bowlHeight.value);
    if p.baseRingRadius.None? then c else
    var c := c.(baseRingRadius := p.baseRingRadius.value);
    if p.ringThickness.None? then c else
    var c := c.(ringThickness := p.ringThickness.value);
    if p.ringWidth.None? then c else
    var c := c.(ringWidth := p.ringWidth.value);
    if p.numberOfRings.None? then c else
    var c := c.(numberOfRings := p.numberOfRings.value);
    if p.numberOfSlices.None? then c else
    c.(numberOfSlices := p.numberOfSlices.value)
  }

  /** The settings after `update_values`: the boxes converted in order, assigned as they
      convert, the first that fails ending it */
  function Updated(c: BoardSettings, inp: BoardInputs): BoardSettings {
    UpdatedFrom(c, Convert(inp))
  }

  /** Each setting is its box's value when that box and every box before it converted,
      and is kept otherwise. */
  lemma UpdatedFields(c: BoardSettings, inp: BoardInputs)
    ensures var u := Updated(c, inp);
            var k := FieldsParsed(inp);
            u.boardWidth == (if k > 0 then ParseReal(inp.boardWidth).value else c.boardWidth) &&
            u.sliceThickness == (if k > 1 then ParseReal(inp.sliceThickness).value else c.sliceThickness) &&
            u.sliceAngle == (if k > 2 then ParseReal(inp.sliceAngle).value else c.sliceAngle) &&
            u.bowlHeight == (if k > 3 then ParseReal(inp.bowlHeight).value else c.bowlHeight) &&
            u.baseRingRadius == (if k > 4 then ParseReal(inp.baseRingRadius).value else c.baseRingRadius) &&
            u.ringThickness == (if k > 5 then ParseReal(inp.ringThickness).value else c.ringThickness) &&
            u.ringWidth == (if k > 6 then ParseReal(inp.ringWidth).value else c.ringWidth) &&
            u.numberOfRings == (if k > 7 then ParseInt(inp.numberOfRings).value else c.numberOfRings) &&
            u.numberOfSlices == (if k > 8 then ParseInt(inp.numberOfSlices).value else c.numberOfSlices)
  {
    if ParseReal(inp.boardWidth).None? {
    } else if ParseReal(inp.sliceThickness).None? {
    } else if ParseReal(inp.sliceAngle).None? {
    } else if ParseReal(inp.bowlHeight).None? {
    } else if ParseReal(inp.baseRingRadius).None? {
    } else if ParseReal(inp.ringThickness).None? {
    } else if ParseReal(inp.ringWidth).None? {
    } else if ParseInt(inp.numberOfRings).None? {
    } else if ParseInt(inp.numberOfSlices).None? {
    }
  }


  class BowlFromABoardPanel {
    var boardWidth: real
    var sliceThickness: real
    var sliceAngle: real
    var bowlHeight: real
    var baseRingRadius: real
    var ringThickness: real
    var ringWidth: real
    var numberOfRings: int
    var numberOfSlices: int
    /** `clone_list`: the Names of every clone made, in order */
    var cloneList: seq<string>

    constructor ()
      ensures CurrentSettings() == BoardSettings(304.8, 50.8, 45.0, 150.0, 50.8, 20.0, 25.4, 6, 32)
      ensures cloneList == []
    {
      boardWidth := 304.8;
      sliceThickness := 50.8;
      sliceAngle := 45.0;
      bowlHeight := 150.0;
      baseRingRadius := 50.8;
      ringThickness := 20.0;
      ringWidth := 25.4;
      cloneList := [];
      numberOfRings := 6;
      numberOfSlices := 32;
    }

    function CurrentSettings(): BoardSettings
      reads this
    {
      BoardSettings(boardWidth, sliceThickness, sliceAngle, bowlHeight, baseRingRadius, ringThickness, ringWidth,
                    numberOfRings, numberOfSlices)
    }

    /** `update_values`; it fails (a ValueError) unless all nine boxes convert */
    method UpdateValues(inp: BoardInputs) returns (ok: bool)
      modifies this
      ensures ok <==> FieldsParsed(inp) == 9
      ensures CurrentSettings() == Updated(old(CurrentSettings()), inp)
      ensures cloneList == old(cloneList)
    {
      ok := AssignConverted(Convert(inp));
    }

    /** The assignments of `update_values`, one box after the other */
    method AssignConverted(p: Converted) returns (ok: bool)
      modifies this
      ensures ok <==> ConvertedCount(p) == 9
      ensures CurrentSettings() == UpdatedFrom(old(CurrentSettings()), p)
      ensures cloneList == old(cloneList)
    {
      if p.boardWidth.None? { return false; }
      boardWidth := p.boardWidth.value;
      if p.sliceThickness.None? { return false; }
      sliceThickness := p.sliceThickness.value;
      if p.sliceAngle.None? { return false; }
      sliceAngle := p.sliceAngle.value;
      if p.bowlHeight.None? { return false; }
      bowlHeight := p.bowlHeight.value;
      if p.baseRingRadius.None? { return false; }
      baseRingRadius := p.baseRingRadius.value;
      if p.ringThickness.None? { return false; }
      ringThickness := p.ringThickness.value;
      if p.ringWidth.None? { return false; }
      ringWidth := p.ringWidth.value;
      if p.numberOfRings.None? { return false; }
      numberOfRings := p.numberOfRings.value;
      if p.numberOfSlices.None? { return false; }
      numberOfSlices := p.numberOfSlices.value;
      ok := true;
    }

    /** `make_ring`, with the revolution it just added hidden and cloned: the cross-
        section sketch, its revolution and `number_of_slices` clones, each clone's Name
        appended to `clone_list`. A slice angle whose tangent is 0 fails after the sketch
        was added, leaving it empty. */
    method MakeRing(doc: Document, hasDoc: bool, m: MathLib, spec: RingSpec) returns (r: Result<()>)
      requires doc.Valid()
      modifies doc, this`cloneList
      ensures doc.Valid()
      ensures !hasDoc ==> r == Err(NoDocument) && doc.objects == old(doc.objects) && cloneList == old(cloneList)
      ensures hasDoc ==> |old(doc.objects)| < |doc.objects| && doc.objects[..|old(doc.objects)|] == old(doc.objects)
      ensures var t := m.tan(Radians(m, spec.angleDeg));
        hasDoc && t == 0.0 ==>
          r == Err(DivisionByZero) && cloneList == old(cloneList) &&
          doc.objects == old(doc.objects) + [EmptyRingSketch(FreshName(TrapezoidSketchName, Names(old(doc.objects))))]
      ensures var t := m.tan(Radians(m, spec.angleDeg));
        var at := |old(doc.objects)|;
        hasDoc && t != 0.0 ==>
          r.Ok? && |doc.objects| == at + 2 + Max0(numberOfSlices) &&
          RingBlock(doc.objects, at, spec, t, Max0(numberOfSlices)) &&
          cloneList == old(cloneList) + Names(doc.objects[at + 2..])
    {
      if !hasDoc {
        return Err(NoDocument);
      }
      ghost var at := |doc.objects|;
      var s := doc.AddObject(SketchType, TrapezoidSketchName);
      doc.SetObject(s, doc.objects[s].(placement := Placement(Origin, Rotation(0.0, 90.0))));
      var t := m.tan(Radians(m, spec.angleDeg));
      if t == 0.0 {
        return Err(DivisionByZero);
      }
      ghost var sketched := doc.objects;
      var revolutionName := AddRingHead(doc, spec, t);
      ghost var headed := doc.objects;
      assert headed[..at] == old(doc.objects) by {
        assert sketched[..at] == old(doc.objects);
      }
      var names := AddClones(doc, numberOfSlices, revolutionName, spec.name);
      assert doc.objects[at] == headed[at] && doc.objects[at + 1] == headed[at + 1] by {
        assert doc.objects[..at + 2] == headed;
        assert doc.objects[..at + 2][at] == doc.objects[at];
        assert doc.objects[..at + 2][at + 1] == doc.objects[at + 1];
      }
      assert doc.objects[..at] == old(doc.objects) by {
        assert doc.objects[..at] == doc.objects[..at + 2][..at];
      }
      cloneList := cloneList + names;
      return Ok(());
    }

    /** `bt_make_rings_clicked`: `update_values`, then the rings */
    method BtMakeRingsClicked(doc: Document, hasDoc: bool, m: MathLib, inp: BoardInputs) returns (r: Result<()>)
      requires doc.Valid()
      modifies this, doc
      ensures doc.Valid()
      ensures CurrentSettings() == Updated(old(CurrentSettings()), inp)
      ensures FieldsParsed(inp) < 9 ==> r == Err(NotANumber) && doc.objects == old(doc.objects) && cloneList == old(cloneList)
      ensures FieldsParsed(inp) == 9 ==>
                RingsClicked(old(doc.objects), doc.objects, old(cloneList), cloneList, hasDoc,
                             m.tan(Radians(m, sliceAngle)), CurrentSettings(), r)
    {
      var ok := UpdateValues(inp);
      if !ok {
        return Err(NotANumber);
      }
      r := MakeAllRings(this, doc, hasDoc, m);
    }

    /** `bt_generate_bowl_clicked`: the same rings, then the bowl's width and height (the
        slicing that would use them is switched off) */
    method BtGenerateBowlClicked(doc: Document, hasDoc: bool, m: MathLib, inp: BoardInputs) returns (r: Result<(real, real)>)
      requires doc.Valid()
      modifies this, doc
      ensures doc.Valid()
      ensures CurrentSettings() == Updated(old(CurrentSettings()), inp)
      ensures FieldsParsed(inp) < 9 ==> r == Err(NotANumber) && doc.objects == old(doc.objects) && cloneList == old(cloneList)
      ensures FieldsParsed(inp) == 9 ==>
                RingsClicked(old(doc.objects), doc.objects, old(cloneList), cloneList, hasDoc,
                             m.tan(Radians(m, sliceAngle)), CurrentSettings(), if r.Ok? then Ok(()) else Err(r.message)) &&
                (r.Ok? ==> r.value == BowlExtents(CurrentSettings()))
    {
      var ok := UpdateValues(inp);
      if !ok {
        return Err(NotANumber);
      }
      var rings := MakeAllRings(this, doc, hasDoc, m);
      if rings.Err? {
        return Err(rings.message);
      }
      r := Ok(BowlExtents(CurrentSettings()));
    }
  }

  // ---------------------------------------------------------------------------
  // A whole stack of rings

  /** Where ring k's block starts, counted from the first new object, when every block
      holds `size` objects */
  function Offset(k: nat, size: nat): nat {
    if k == 0 then 0 else Offset(k - 1, size) + size
  }

  lemma {:induction false} OffsetIsProduct(k: nat, size: nat)
    ensures Offset(k, size) == k * size
  {
    if k > 0 {
      OffsetIsProduct(k - 1, size);
      assert (k - 1) * size + size == k * size;
    }
  }

  /** The Names of the clones among the objects, in order */
  function CloneNames(objs: seq<DocObject>): (r: seq<string>)
    ensures |r| <= |objs|
  {
    if objs == [] then []
    else (if objs[0].typeId == CloneType then [objs[0].name] else []) + CloneNames(objs[1..])
  }

  lemma {:induction false} CloneNamesAppend(a: seq<DocObject>, b: seq<DocObject>)
    ensures CloneNames(a + b) == CloneNames(a) + CloneNames(b)
  {
    if a == [] {
      assert a + b == b;
    } else {
      var head := if a[0].typeId == CloneType then [a[0].name] else [];
      assert (a + b)[0] == a[0];
      assert (a + b)[1..] == a[1..] + b;
      CloneNamesAppend(a[1..], b);
      assert CloneNames(a + b) == head + CloneNames(a[1..] + b);
    }
  }

  /** Clones only: every Name is recorded */
  lemma {:induction false} CloneNamesOfClones(objs: seq<DocObject>)
    requires forall j :: 0 <= j < |objs| ==> objs[j].typeId == CloneType
    ensures CloneNames(objs) == Names(objs)
  {
    if objs != [] {
      CloneNamesOfClones(objs[1..]);
      assert Names(objs) == [objs[0].name] + Names(objs[1..]);
    }
  }

  /** Of a ring's block only the clones are recorded, which are the objects after the
      sketch and the revolution. */
  lemma BlockCloneNames(objs: seq<DocObject>, at: nat, spec: RingSpec, t: real, slices: nat)
    requires t != 0.0 && RingBlock(objs, at, spec, t, slices) && |objs| == at + 2 + slices
    ensures CloneNames(objs[at..]) == Names(objs[at + 2..])
  {
    SkipNonClone(objs, at);
    SkipNonClone(objs, at + 1);
    ClonesAtAreClones(objs, at + 2, slices, objs[at + 1].name, spec.name);
    CloneNamesOfClones(objs[at + 2..]);
  }

  /** An object that is not a clone adds nothing to the recorded Names. */
  lemma SkipNonClone(objs: seq<DocObject>, at: nat)
    requires at < |objs| && objs[at].typeId != CloneType
    ensures CloneNames(objs[at..]) == CloneNames(objs[at + 1..])
  {
    assert objs[at..][0] == objs[at];
    assert objs[at..][1..] == objs[at + 1..];
  }

  lemma ClonesAtAreClones(objs: seq<DocObject>, from: nat, count: nat, revolutionName: string, ringName: string)
    requires ClonesAt(objs, from, count, revolutionName, ringName) && from + count == |objs|
    ensures forall j :: 0 <= j < |objs[from..]| ==> objs[from..][j].typeId == CloneType
  {
    forall j | 0 <= j < |objs[from..]|
      ensures objs[from..][j].typeId == CloneType
    {
      assert objs[from..][j] == objs[from + j];
    }
  }

  /** The first `count` rings of the plan stand in order from index `at`, each block
      `2 + slices` objects long. */
  ghost predicate RingsMade(objs: seq<DocObject>, at: nat, plan: seq<RingSpec>, t: real, slices: nat, count: nat)
    requires t != 0.0 && count <= |plan|
  {
    forall k :: 0 <= k < count ==> RingBlock(objs, at + Offset(k, 2 + slices), plan[k], t, slices)
  }

  lemma RingsMadeStep(prev: seq<DocObject>, objs: seq<DocObject>, at: nat, plan: seq<RingSpec>, t: real, slices: nat, count: nat)
    requires t != 0.0 && count < |plan|
    requires RingsMade(prev, at, plan, t, slices, count) && |prev| == at + Offset(count, 2 + slices)
    requires |prev| <= |objs| && objs[..|prev|] == prev && RingBlock(objs, |prev|, plan[count], t, slices)
    ensures RingsMade(objs, at, plan, t, slices, count + 1)
  {
    forall k | 0 <= k < count
      ensures RingBlock(objs, at + Offset(k, 2 + slices), plan[k], t, slices)
    {
      RingBlockKept(prev, objs, at + Offset(k, 2 + slices), plan[k], t, slices);
    }
  }

  /** Mid-click: the first `count` rings of the plan stand from index `at`, and the clone
      list has gained exactly their clones. */
  ghost predicate StackState(objs: seq<DocObject>, at: nat, plan: seq<RingSpec>, t: real, slices: nat, count: nat,
                             c0: seq<string>, clones: seq<string>)
  {
    t != 0.0 && count <= |plan| && |objs| == at + Offset(count, 2 + slices) &&
    RingsMade(objs, at, plan, t, slices, count) && clones == c0 + CloneNames(objs[at..])
  }

  /** One `make_ring` call within a click, its block appended after the rings before */
  method MakeNextRing(panel: BowlFromABoardPanel, doc: Document, m: MathLib, plan: seq<RingSpec>, count: nat, spec: RingSpec,
                      ghost at: nat, ghost c0: seq<string>, ghost t: real)
    requires doc.Valid() && t == m.tan(Radians(m, spec.angleDeg))
    requires count < |plan| && plan[count] == spec
    requires StackState(doc.objects, at, plan, t, Max0(panel.numberOfSlices), count, c0, panel.cloneList)
    modifies doc, panel`cloneList
    ensures StackState(doc.objects, at, plan, t, Max0(panel.numberOfSlices), count + 1, c0, panel.cloneList)
    ensures doc.Valid() && doc.objects[..at] == old(doc.objects)[..at]
  {
    ghost var prev := doc.objects;
    ghost var made := CloneNames(prev[at..]);
    var r := panel.MakeRing(doc, true, m, spec);
    AfterNextRing(prev, doc.objects, at, plan, t, Max0(panel.numberOfSlices), count);
    ghost var added := Names(doc.objects[|prev| + 2..]);
    assert panel.cloneList == (c0 + made) + added;
    ConcatAssoc(c0, made, added);
  }

  lemma ConcatAssoc(a: seq<string>, b: seq<string>, c: seq<string>)
    ensures (a + b) + c == a + (b + c)
  {
  }

  lemma AfterNextRing(prev: seq<DocObject>, objs: seq<DocObject>, at: nat, plan: seq<RingSpec>, t: real, slices: nat, count: nat)
    requires t != 0.0 && count < |plan|
    requires |prev| == at + Offset(count, 2 + slices) && RingsMade(prev, at, plan, t, slices, count)
    requires |objs| == |prev| + 2 + slices && objs[..|prev|] == prev
    requires RingBlock(objs, |prev|, plan[count], t, slices)
    ensures |objs| == at + Offset(count + 1, 2 + slices) && objs[..at] == prev[..at]
    ensures RingsMade(objs, at, plan, t, slices, count + 1)
    ensures CloneNames(objs[at..]) == CloneNames(prev[at..]) + Names(objs[|prev| + 2..])
  {
    RingsMadeStep(prev, objs, at, plan, t, slices, count);
    BlockCloneNames(objs, |prev|, plan[count], t, slices);
    assert objs[at..] == prev[at..] + objs[|prev|..];
    CloneNamesAppend(prev[at..], objs[|prev|..]);
    assert objs[..at] == objs[..|prev|][..at];
  }

  /** What one ring-making click leaves, from the objects and clone list before it to
      those after, given whether a document is open, the tangent of the slice angle and
      the settings it read: everything before is kept and exactly the new clones are
      recorded; without a document nothing is made; a zero tangent leaves one empty
      sketch; otherwise every ring of the plan stands in order and the click fails after
      the bottom ring when there are fewer than three. */
  ghost predicate RingsClicked(before: seq<DocObject>, after: seq<DocObject>, clones0: seq<string>, clones: seq<string>,
                               hasDoc: bool, t: real, st: BoardSettings, r: Result<()>)
  {
    |before| <= |after| && after[..|before|] == before &&
    clones == clones0 + CloneNames(after[|before|..]) &&
    (!hasDoc ==> r == Err(NoDocument) && after == before) &&
    (hasDoc && t == 0.0 ==>
       r == Err(DivisionByZero) && after == before + [EmptyRingSketch(FreshName(TrapezoidSketchName, Names(before)))]) &&
    (hasDoc && t != 0.0 ==>
       var plan := RingPlan(st);
       var slices := Max0(st.numberOfSlices);
       |after| == |before| + Offset(|plan|, 2 + slices) && RingsMade(after, |before|, plan, t, slices, |plan|) &&
       r == if st.numberOfRings >= 3 then Ok(()) else Err(UnboundLoopVariable))
  }


  /** The bottom ring: the only one that can fail for want of a document or a usable
      slice angle, since every ring uses both */
  method MakeBottomRing(panel: BowlFromABoardPanel, doc: Document, hasDoc: bool, m: MathLib) returns (r: Result<()>)
    requires doc.Valid()
    modifies doc, panel`cloneList
    ensures doc.Valid() && |old(doc.objects)| <= |doc.objects| && doc.objects[..|old(doc.objects)|] == old(doc.objects)
    ensures r.Err? ==> RingsClicked(old(doc.objects), doc.objects, old(panel.cloneList), panel.cloneList, hasDoc,
                                    m.tan(Radians(m, panel.sliceAngle)), panel.CurrentSettings(), r)
    ensures r.Ok? ==> (hasDoc &&
              StackState(doc.objects, |old(doc.objects)|, RingPlan(panel.CurrentSettings()), m.tan(Radians(m, panel.sliceAngle)),
                         Max0(panel.numberOfSlices), 1, old(panel.cloneList), panel.cloneList))
  {
    var st := panel.CurrentSettings();
    ghost var at := |doc.objects|;
    ghost var t := m.tan(Radians(m, st.sliceAngle));
    r := panel.MakeRing(doc, hasDoc, m, BottomSpec(st));
    if r.Err? {
      if hasDoc {
        var sketch := doc.objects[at];
        assert doc.objects[at..] == [sketch];
        assert sketch.typeId == SketchType != CloneType;
        assert [sketch][1..] == [];
      } else {
        assert doc.objects[at..] == [];
      }
      return;
    }
    BlockCloneNames(doc.objects, at, BottomSpec(st), t, Max0(st.numberOfSlices));
  }

  /** The inner rings of the loop and, with the loop variable's last value, the top ring */
  method MakeUpperRings(panel: BowlFromABoardPanel, doc: Document, m: MathLib, ghost at: nat, ghost c0: seq<string>)
      returns (r: Result<()>)
    requires doc.Valid() && at <= |doc.objects|
    requires StackState(doc.objects, at, RingPlan(panel.CurrentSettings()), m.tan(Radians(m, panel.sliceAngle)),
                        Max0(panel.numberOfSlices), 1, c0, panel.cloneList)
    modifies doc, panel`cloneList
    ensures StackState(doc.objects, at, RingPlan(panel.CurrentSettings()), m.tan(Radians(m, panel.sliceAngle)),
                       Max0(panel.numberOfSlices), |RingPlan(panel.CurrentSettings())|, c0, panel.cloneList)
    ensures doc.Valid() && doc.objects[..at] == old(doc.objects)[..at]
    ensures r == if panel.numberOfRings >= 3 then Ok(()) else Err(UnboundLoopVariable)
  {
    var st := panel.CurrentSettings();
    var plan := RingPlan(st);
    ghost var t := m.tan(Radians(m, st.sliceAngle));
    ghost var slices := Max0(st.numberOfSlices);
    var i := 0;
    while i < st.numberOfRings - 2
      invariant 0 <= i && (st.numberOfRings >= 3 ==> i <= st.numberOfRings - 2) && (st.numberOfRings < 3 ==> i == 0)
      invariant StackState(doc.objects, at, plan, t, slices, i + 1, c0, panel.cloneList)
      invariant doc.Valid() && doc.objects[..at] == old(doc.objects)[..at]
    {
      PlanEntry(st, i + 1);
      MakeNextRing(panel, doc, m, plan, i + 1, InnerSpec(st, i), at, c0, t);
      i := i + 1;
    }
    if st.numberOfRings < 3 {
      return Err(UnboundLoopVariable);
    }
    // the loop variable keeps its last value, i - 1
    PlanEntry(st, i + 1);
    MakeNextRing(panel, doc, m, plan, i + 1, TopSpec(st, i - 1), at, c0, t);
    r := Ok(());
  }

  /** All the rings of one click */
  method MakeAllRings(panel: BowlFromABoardPanel, doc: Document, hasDoc: bool, m: MathLib) returns (r: Result<()>)
    requires doc.Valid()
    modifies doc, panel`cloneList
    ensures doc.Valid()
    ensures RingsClicked(old(doc.objects), doc.objects, old(panel.cloneList), panel.cloneList, hasDoc,
                         m.tan(Radians(m, panel.sliceAngle)), panel.CurrentSettings(), r)
  {
    ghost var at := |doc.objects|;
    r := MakeBottomRing(panel, doc, hasDoc, m);
    if r.Err? {
      return;
    }
    r := MakeUpperRings(panel, doc, m, at, old(panel.cloneList));
  }
}
