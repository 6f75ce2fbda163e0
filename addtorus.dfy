/** The torus panel: a circular ring profile between the inside and outside diameters,
    revolved about the y-axis and hollowed by a second, smaller revolution, and a single
    wedge segment sized from the ring diameter. */
module AddTorus {
  import opened Wrappers
  import opened Geometry
  import opened Text
  import opened Doc
  import opened AddSegments

  const ProfileName := "Torus_Profile"
  const Profile2Name := "Torus_Profile2"
  const RevolveName := "Revolve"
  const Revolve2Name := "Revolve2"
  const CutType := "Part::Cut"
  const CutName := "Cut"
  /** The hollow's profile circle is this much smaller in radius than the ring's */
  const HollowOffset := 20.0
  const SegmentTrapezoidHeight := 20.0
  const SegmentExtrude := 10.0
  const InvalidInput := "Invalid input: enter numeric values before creating sketch."
  const NoDocument := "No active document."
  const ProfileNotSketch := "An object named 'Torus_Profile' already exists and is not a sketch."
  const Profile2NotSketch := "An object named 'Torus_Profile2' already exists and is not a sketch."
  /** The start of the message printed when `Part.Circle` refuses a negative radius and
      the handler's catch-all reports it; the kernel's own wording is not modelled */
  const CircleRefused := "Error creating Torus_Profile sketch"
  const DivisionByZero := "division by zero"
  const NoDocumentRaised := "'NoneType' object has no attribute 'addObject'"

  /** The read-only "Calculated Ring Diameter" box: showing a number, or cleared */
  datatype DiameterBox = Shown(value: real) | Blank

  /** The panel's fields */
  datatype TorusState = TorusState(
    numSegmentsPerRing: int,
    outsideDiameter: real,
    insideDiameter: real,
    numRingsPerTorus: int,
    ringDiameter: real,
    ringDiameterBox: DiameterBox)

  /** The panel's text boxes, in the order `update_values` reads them */
  datatype TorusInputs = TorusInputs(numSegmentsPerRing: string, outsideDiameter: string, insideDiameter: string,
                                     numRingsPerTorus: string)

  /** How many of the converted boxes, from the first, hold a value (4 when all do) */
  function LeadingValues(a: Option<int>, o: Option<real>, i: Option<real>, n: Option<int>): (k: nat)
    ensures k <= 4
  {
    if a.None? then 0 else if o.None? then 1 else if i.None? then 2 else if n.None? then 3 else 4
  }

  /** How many boxes, from the first, convert before one fails (4 when all do) */
  function TorusFieldsParsed(inp: TorusInputs): (k: nat)
    ensures k <= 4
  {
    LeadingValues(ParseInt(inp.numSegmentsPerRing), ParseReal(inp.outsideDiameter),
                  ParseReal(inp.insideDiameter), ParseInt(inp.numRingsPerTorus))
  }

  /** The fields after `update_values`: each box assigned as it converts, the ring
      diameter recomputed and shown once both diameters have, the first failure ending it */
  function TorusUpdated(c: TorusState, inp: TorusInputs): TorusState {
    Assigned(c, ParseInt(inp.numSegmentsPerRing), ParseReal(inp.outsideDiameter),
             ParseReal(inp.insideDiameter), ParseInt(inp.numRingsPerTorus))
  }

  /** The same on the boxes' converted values */
  function Assigned(c: TorusState, a: Option<int>, o: Option<real>, i: Option<real>, n: Option<int>): TorusState {
    if a.None? then c else DiametersAssigned(c.(numSegmentsPerRing := a.value), o, i, n)
  }

  /** The same from the outside diameter on */
  function DiametersAssigned(c: TorusState, o: Option<real>, i: Option<real>, n: Option<int>): TorusState {
    if o.None? then c else
    var c := c.(outsideDiameter := o.value);
    if i.None? then c else
    var d := o.value - i.value;
    var c := c.(insideDiameter := i.value, ringDiameter := d, ringDiameterBox := Shown(d));
    if n.None? then c else
    c.(numRingsPerTorus := n.value)
  }

  /** Each field is its box's value when that box and every one before it converted,
      and is kept otherwise; the ring diameter is outside minus inside as soon as both
      diameters converted, and the box shows it. */
  lemma AssignedFields(c: TorusState, a: Option<int>, o: Option<real>, i: Option<real>, n: Option<int>)
    ensures var u := Assigned(c, a, o, i, n);
            var k := LeadingValues(a, o, i, n);
            u.numSegmentsPerRing == (if k > 0 then a.value else c.numSegmentsPerRing) &&
            u.outsideDiameter == (if k > 1 then o.value else c.outsideDiameter) &&
            u.insideDiameter == (if k > 2 then i.value else c.insideDiameter) &&
            u.numRingsPerTorus == (if k > 3 then n.value else c.numRingsPerTorus) &&
            (k > 2 ==> u.ringDiameter == u.outsideDiameter - u.insideDiameter && u.ringDiameterBox == Shown(u.ringDiameter)) &&
            (k <= 2 ==> u.ringDiameter == c.ringDiameter && u.ringDiameterBox == c.ringDiameterBox)
  {
  }

  /** `update_values` on the panel's text: the fields of `AssignedFields` with the boxes' conversions */
  lemma TorusUpdatedFields(c: TorusState, inp: TorusInputs)
    ensures var u := TorusUpdated(c, inp);
            var k := TorusFieldsParsed(inp);
            u.numSegmentsPerRing == (if k > 0 then ParseInt(inp.numSegmentsPerRing).value else c.numSegmentsPerRing) &&
            u.outsideDiameter == (if k > 1 then ParseReal(inp.outsideDiameter).value else c.outsideDiameter) &&
            u.insideDiameter == (if k > 2 then ParseReal(inp.insideDiameter).value else c.insideDiameter) &&
            u.numRingsPerTorus == (if k > 3 then ParseInt(inp.numRingsPerTorus).value else c.numRingsPerTorus) &&
            (k > 2 ==> u.ringDiameter == u.outsideDiameter - u.insideDiameter && u.ringDiameterBox == Shown(u.ringDiameter)) &&
            (k <= 2 ==> u.ringDiameter == c.ringDiameter && u.ringDiameterBox == c.ringDiameterBox)
  {
    AssignedFields(c, ParseInt(inp.numSegmentsPerRing), ParseReal(inp.outsideDiameter),
                   ParseReal(inp.insideDiameter), ParseInt(inp.numRingsPerTorus));
  }

  // ---------------------------------------------------------------------------
  // The profile

  /** The centre of both profile circles, on the sketch's x-axis */
  function ProfileCenter(outside: real, ringDiameter: real): Vec3 {
    P2(outside - ringDiameter / 2.0, 0.0)
  }

  function ProfileCircle(outside: real, ringDiameter: real): Curve {
    Circle(ProfileCenter(outside, ringDiameter), ringDiameter / 2.0)
  }

  function HollowCircle(outside: real, ringDiameter: real): Curve {
    Circle(ProfileCenter(outside, ringDiameter), ringDiameter / 2.0 - HollowOffset)
  }

  /** `Part.Circle` raises for a negative radius, so the profile needs a ring diameter
      of at least 0 and the hollow's one of at least 40. */
  predicate RadiusRefused(ringDiameter: real) {
    ProfileCircle(0.0, ringDiameter).radius < 0.0 || HollowCircle(0.0, ringDiameter).radius < 0.0
  }

  /** With the ring diameter outside minus inside, the profile circle runs along the
      x-axis from the inside value to the outside value, and the hollow's circle shares
      its centre, 20 smaller in radius. */
  lemma ProfileSpansRing(outside: real, inside: real)
    ensures var p := ProfileCircle(outside, outside - inside);
            var h := HollowCircle(outside, outside - inside);
            p.center.x - p.radius == inside && p.center.x + p.radius == outside && p.center.y == 0.0 &&
            h.center == p.center && h.radius == p.radius - HollowOffset
  {
  }

  /** A profile sketch once drawn: at the origin, hidden, holding only its circle */
  function Profiled(o: DocObject, c: Curve): DocObject {
    o.(placement := IdentityPlacement, geometry := [Geo(c, false)], visible := false)
  }

  /** A full solid revolution of the named sketch about the y-axis */
  function TorusRevolution(name: string, sketchName: string): DocObject {
    NewObject(RevolutionType, name).(shape := KernelShape,
      properties := map["Source" := TextValue(sketchName), "Axis" := VectorValue(Vec3(0.0, 1.0, 0.0)),
                        "Angle" := Quantity(360.0), "Solid" := BoolValue(true), "Symmetric" := BoolValue(false)])
  }

  /** The boolean cut of the tool from the base */
  function TorusCut(name: string, baseName: string, toolName: string): DocObject {
    NewObject(CutType, name).(shape := KernelShape,
      properties := map["Base" := TextValue(baseName), "Tool" := TextValue(toolName)])
  }

  /** The document and the outcome a step leaves */
  datatype Outcome = Outcome(objs: seq<DocObject>, result: Result<()>)

  /** `on_create_sketch` from the point where a document is open: the two profile
      sketches found or added, drawn afresh, then the two revolutions and their cut. A
      Name held by an object that is not a sketch stops it. */
  function CreateTorus(o: seq<DocObject>, outside: real, ringDiameter: real): (r: Outcome)
    ensures |o| <= |r.objs|
  {
    var s1 := SketchSlot(o, ProfileName);
    if s1.None? then Outcome(o, Err(ProfileNotSketch)) else
    var a := WithSketch(o, ProfileName);
    SketchSlotHoldsSketch(o, ProfileName);
    var s2 := SketchSlot(a, Profile2Name);
    if s2.None? then Outcome(a, Err(Profile2NotSketch)) else
    var b := WithSketch(a, Profile2Name);
    SketchSlotHoldsSketch(a, Profile2Name);
    if RadiusRefused(ringDiameter) then Outcome(PlacedAndCleared(b, s1.value, s2.value), Err(CircleRefused)) else
    Outcome(WithRevolutions(DrawnProfiles(b, s1.value, s2.value, outside, ringDiameter)), Ok(()))
  }

  /** The objects when the circles are refused: both sketches at the origin and the
      first one emptied of geometry */
  function PlacedAndCleared(b: seq<DocObject>, i1: nat, i2: nat): (c: seq<DocObject>)
    requires i1 < |b| && i2 < |b|
    ensures |c| == |b|
  {
    b[i1 := b[i1].(placement := IdentityPlacement, geometry := [])][i2 := b[i2].(placement := IdentityPlacement)]
  }

  /** The objects with the sketch at `i1` drawn as the profile and the one at `i2` as the hollow */
  function DrawnProfiles(b: seq<DocObject>, i1: nat, i2: nat, outside: real, ringDiameter: real): (c: seq<DocObject>)
    requires i1 < |b| && i2 < |b|
    ensures |c| == |b|
  {
    b[i1 := Profiled(b[i1], ProfileCircle(outside, ringDiameter))][i2 := Profiled(b[i2], HollowCircle(outside, ringDiameter))]
  }

  /** The objects with the two revolutions and their cut added */
  function WithRevolutions(c: seq<DocObject>): seq<DocObject> {
    var n1 := FreshName(RevolveName, Names(c));
    var e := c + [TorusRevolution(n1, ProfileName)];
    var n2 := FreshName(Revolve2Name, Names(e));
    var f := e + [TorusRevolution(n2, Profile2Name)];
    f + [TorusCut(FreshName(CutName, Names(f)), n1, n2)]
  }

  /** The sketch Named `name` is found before index `limit`, holds exactly the circle
      `circle`, sits at the origin and is hidden */
  ghost predicate ProfileDrawn(objs: seq<DocObject>, name: string, circle: Curve, limit: nat) {
    var p := FindByName(objs, name);
    p.Some? && p.value < limit && objs[p.value].typeId == SketchType &&
    objs[p.value].geometry == [Geo(circle, false)] &&
    objs[p.value].placement == IdentityPlacement && !objs[p.value].visible
  }

  /** From index `m` on, the revolution of the first profile sketch, that of the second
      and the cut of the second from the first */
  ghost predicate RevolvedFrom(objs: seq<DocObject>, m: nat) {
    m + 3 == |objs| &&
    objs[m] == TorusRevolution(objs[m].name, ProfileName) &&
    objs[m + 1] == TorusRevolution(objs[m + 1].name, Profile2Name) &&
    objs[m + 2] == TorusCut(objs[m + 2].name, objs[m].name, objs[m + 1].name)
  }

  /** The object holding a given Name draws the step to a stop when it is not a sketch;
      either stop leaves the objects there were, with at most the first sketch added. A
      ring diameter under 40 stops it after both sketches are found, placed and the first
      one cleared, with no circle drawn and no revolution added. Otherwise it succeeds. */
  lemma CreateTorusErrors(o: seq<DocObject>, outside: real, ringDiameter: real)
    ensures var r := CreateTorus(o, outside, ringDiameter);
            (SketchSlot(o, ProfileName).None? ==> r == Outcome(o, Err(ProfileNotSketch))) &&
            (SketchSlot(o, ProfileName).Some? && SketchSlot(WithSketch(o, ProfileName), Profile2Name).None? ==>
               r == Outcome(WithSketch(o, ProfileName), Err(Profile2NotSketch))) &&
            (RadiusRefused(ringDiameter) <==> ringDiameter < 2.0 * HollowOffset) &&
            (SketchSlot(o, ProfileName).Some? && SketchSlot(WithSketch(o, ProfileName), Profile2Name).Some? &&
             ringDiameter < 2.0 * HollowOffset ==>
               var b := WithSketch(WithSketch(o, ProfileName), Profile2Name);
               r == Outcome(PlacedAndCleared(b, SketchSlot(o, ProfileName).value,
                                             SketchSlot(WithSketch(o, ProfileName), Profile2Name).value), Err(CircleRefused))) &&
            (r.result.Ok? <==> SketchSlot(o, ProfileName).Some? && SketchSlot(WithSketch(o, ProfileName), Profile2Name).Some? &&
                               ringDiameter >= 2.0 * HollowOffset)
  {
  }

  /** A refused circle leaves both sketches at the origin, the first one empty and the
      second holding what it held, every other object untouched and nothing added. */
  lemma RefusedCircleLeavesFirstSketchEmpty(o: seq<DocObject>, outside: real, ringDiameter: real)
    requires SketchSlot(o, ProfileName).Some? && SketchSlot(WithSketch(o, ProfileName), Profile2Name).Some?
    requires ringDiameter < 2.0 * HollowOffset
    ensures var r := CreateTorus(o, outside, ringDiameter);
            var b := WithSketch(WithSketch(o, ProfileName), Profile2Name);
            var i1 := SketchSlot(o, ProfileName).value;
            var i2 := SketchSlot(WithSketch(o, ProfileName), Profile2Name).value;
            r.result == Err(CircleRefused) && |r.objs| == |b| &&
            r.objs[i1].name == ProfileName && r.objs[i1].geometry == [] && r.objs[i1].placement == IdentityPlacement &&
            r.objs[i2].name == Profile2Name && r.objs[i2].geometry == b[i2].geometry &&
            r.objs[i2].placement == IdentityPlacement &&
            forall j :: 0 <= j < |b| && j != i1 && j != i2 ==> r.objs[j] == b[j]
  {
    SketchesFound(o);
  }

  /** Drawing keeps every Name, changes the two sketches and nothing else. */
  lemma DrawnProfilesFacts(b: seq<DocObject>, i1: nat, i2: nat, outside: real, ringDiameter: real)
    requires i1 < |b| && i2 < |b| && i1 != i2
    ensures var c := DrawnProfiles(b, i1, i2, outside, ringDiameter);
            Names(c) == Names(b) &&
            c[i1] == Profiled(b[i1], ProfileCircle(outside, ringDiameter)) &&
            c[i2] == Profiled(b[i2], HollowCircle(outside, ringDiameter)) &&
            forall j :: 0 <= j < |b| && j != i1 && j != i2 ==> c[j] == b[j]
  {
  }

  /** The revolutions and the cut come after every object there was, the last three. */
  lemma WithRevolutionsShape(c: seq<DocObject>)
    ensures var r := WithRevolutions(c);
            |r| == |c| + 3 && r[..|c|] == c && RevolvedFrom(r, |c|)
  {
    var r := WithRevolutions(c);
    assert r[..|c|] == c;
  }

  /** The objects after a successful step, from the objects `o` before it: the sketch
      Named "Torus_Profile" holds exactly the profile circle and "Torus_Profile2" exactly
      the hollow's, both at the origin and hidden; the last three objects are the
      revolution of the first, that of the second and the cut of the second from the
      first; every other object there was is untouched. */
  ghost predicate TorusBuilt(o: seq<DocObject>, objs: seq<DocObject>, outside: real, ringDiameter: real) {
    var n := |objs|;
    n >= 3 && |o| <= n - 3 &&
    ProfileDrawn(objs, ProfileName, ProfileCircle(outside, ringDiameter), n - 3) &&
    ProfileDrawn(objs, Profile2Name, HollowCircle(outside, ringDiameter), n - 3) &&
    RevolvedFrom(objs, n - 3) &&
    (forall j :: 0 <= j < |o| && o[j].name != ProfileName && o[j].name != Profile2Name ==> objs[j] == o[j])
  }

  /** A successful step builds the torus as `TorusBuilt` describes. */
  lemma CreateTorusBuilds(o: seq<DocObject>, outside: real, ringDiameter: real)
    requires CreateTorus(o, outside, ringDiameter).result.Ok?
    ensures TorusBuilt(o, CreateTorus(o, outside, ringDiameter).objs, outside, ringDiameter)
  {
    var a := WithSketch(o, ProfileName);
    var b := WithSketch(a, Profile2Name);
    var i1 := SketchSlot(o, ProfileName).value;
    var i2 := SketchSlot(a, Profile2Name).value;
    SketchesFound(o);
    var c := DrawnProfiles(b, i1, i2, outside, ringDiameter);
    var objs := WithRevolutions(c);
    assert CreateTorus(o, outside, ringDiameter).objs == objs;
    WithRevolutionsShape(c);
    DrawnKept(objs, b, i1, i2, outside, ringDiameter);
    OthersKept(o, objs, b, i1, i2);
    assert |objs| - 3 == |b|;
  }

  /** The objects there were, other than the two sketches, are where they were. */
  lemma OthersKept(o: seq<DocObject>, objs: seq<DocObject>, b: seq<DocObject>, i1: nat, i2: nat)
    requires i1 < |b| && i2 < |b| && |o| <= |b| && b[..|o|] == o && |b| <= |objs|
    requires b[i1].name == ProfileName && b[i2].name == Profile2Name
    requires forall j :: 0 <= j < |b| && j != i1 && j != i2 ==> objs[j] == b[j]
    ensures forall j :: 0 <= j < |o| && o[j].name != ProfileName && o[j].name != Profile2Name ==> objs[j] == o[j]
  {
    forall j | 0 <= j < |o| && o[j].name != ProfileName && o[j].name != Profile2Name
      ensures objs[j] == o[j]
    {
      assert b[..|o|][j] == b[j];
    }
  }

  /** Both profile sketches are found, or added after the objects there were. */
  lemma SketchesFound(o: seq<DocObject>)
    requires SketchSlot(o, ProfileName).Some? && SketchSlot(WithSketch(o, ProfileName), Profile2Name).Some?
    ensures var a := WithSketch(o, ProfileName);
            var b := WithSketch(a, Profile2Name);
            var i1 := SketchSlot(o, ProfileName).value;
            var i2 := SketchSlot(a, Profile2Name).value;
            i1 < |b| && i2 < |b| && i1 != i2 && |o| <= |b| && b[..|o|] == o &&
            FindByName(b, ProfileName) == Some(i1) && FindByName(b, Profile2Name) == Some(i2) &&
            b[i1].typeId == SketchType && b[i2].typeId == SketchType
  {
    var a := WithSketch(o, ProfileName);
    SketchSlotHoldsSketch(o, ProfileName);
    SketchSlotHoldsSketch(a, Profile2Name);
    var b := WithSketch(a, Profile2Name);
    var i1 := SketchSlot(o, ProfileName).value;
    assert b[i1] == a[i1] by {
      assert b[..|a|][i1] == a[i1];
    }
    FindPrefix(b, a, ProfileName);
    assert b[..|o|] == a[..|o|];
  }

  /** Objects that begin with the drawn ones: the lookups still find the two sketches,
      now drawn, and the other objects before them are those there were. */
  lemma DrawnKept(objs: seq<DocObject>, b: seq<DocObject>, i1: nat, i2: nat, outside: real, ringDiameter: real)
    requires i1 < |b| && i2 < |b| && i1 != i2
    requires FindByName(b, ProfileName) == Some(i1) && FindByName(b, Profile2Name) == Some(i2)
    requires b[i1].typeId == SketchType && b[i2].typeId == SketchType
    requires |b| <= |objs| && objs[..|b|] == DrawnProfiles(b, i1, i2, outside, ringDiameter)
    ensures ProfileDrawn(objs, ProfileName, ProfileCircle(outside, ringDiameter), |b|)
    ensures ProfileDrawn(objs, Profile2Name, HollowCircle(outside, ringDiameter), |b|)
    ensures forall j :: 0 <= j < |b| && j != i1 && j != i2 ==> objs[j] == b[j]
  {
    var c := DrawnProfiles(b, i1, i2, outside, ringDiameter);
    DrawnProfilesFacts(b, i1, i2, outside, ringDiameter);
    FindByNameSameNames(c, b, ProfileName);
    FindByNameSameNames(c, b, Profile2Name);
    FindPrefix(objs, c, ProfileName);
    FindPrefix(objs, c, Profile2Name);
    assert objs[i1] == c[i1] by {
      assert objs[..|c|][i1] == c[i1];
    }
    assert objs[i2] == c[i2] by {
      assert objs[..|c|][i2] == c[i2];
    }
    forall j | 0 <= j < |b| && j != i1 && j != i2 ensures objs[j] == b[j] {
      assert objs[..|c|][j] == c[j];
    }
  }

  /** A lookup that succeeds in a prefix gives the same answer in the whole. */
  lemma FindPrefix(whole: seq<DocObject>, prefix: seq<DocObject>, name: string)
    requires |prefix| <= |whole| && whole[..|prefix|] == prefix && FindByName(prefix, name).Some?
    ensures FindByName(whole, name) == FindByName(prefix, name)
  {
    assert whole == prefix + whole[|prefix|..];
    FindByNameAppend(prefix, whole[|prefix|..], name);
  }

  /** Creating the profile again succeeds, adds no sketch (only the two revolutions and
      the cut) and leaves each profile sketch holding the one circle, as the first time. */
  lemma CreateTorusRepeatable(o: seq<DocObject>, outside: real, ringDiameter: real)
    requires CreateTorus(o, outside, ringDiameter).result.Ok?
    ensures var once := CreateTorus(o, outside, ringDiameter).objs;
            var twice := CreateTorus(once, outside, ringDiameter);
            twice.result.Ok? && |twice.objs| == |once| + 3 &&
            ProfileDrawn(twice.objs, ProfileName, ProfileCircle(outside, ringDiameter), |once|) &&
            ProfileDrawn(twice.objs, Profile2Name, HollowCircle(outside, ringDiameter), |once|)
  {
    var once := CreateTorus(o, outside, ringDiameter).objs;
    CreateTorusBuilds(o, outside, ringDiameter);
    assert SketchSlot(once, ProfileName).Some?;
    assert WithSketch(once, ProfileName) == once;
    assert SketchSlot(once, Profile2Name).Some?;
    assert WithSketch(once, Profile2Name) == once;
    CreateTorusErrors(once, outside, ringDiameter);
    CreateTorusBuilds(once, outside, ringDiameter);
    WithRevolutionsShape(DrawnProfiles(once, SketchSlot(once, ProfileName).value, SketchSlot(once, Profile2Name).value, outside, ringDiameter));
  }

  /** The revolution `on_create_sketch` configures as written: `doc.Revolve`, the object
      Named "Revolve", looked up after `a_revolve` was added */
  function ConfiguredRevolveAsWritten(objs: seq<DocObject>): (r: Option<nat>)
    ensures r.Some? ==> r.value < |objs| && objs[r.value].name == RevolveName
  {
    FindByName(objs, RevolveName)
  }

  /** With a "Revolve" already in the document (a second click), the new revolution is
      Named otherwise and `doc.Revolve` is the old one: it is the old object that gets the
      source, axis and angle set, and the new revolution keeps none. */
  lemma SecondCreateConfiguresOldRevolve(before: seq<DocObject>)
    requires RevolveName in Names(before)
    ensures var added := NewObject(RevolutionType, FreshName(RevolveName, Names(before)));
            var v := ConfiguredRevolveAsWritten(before + [added]);
            v.Some? && v.value < |before| && added.properties == map[]
  {
    var added := NewObject(RevolutionType, FreshName(RevolveName, Names(before)));
    LookupAfterAddFindsOld(before, RevolveName, added);
  }

  /** The hollow's sketch geometry after `on_create_sketch` as written: the circle is
      appended to whatever the sketch held, since only "Torus_Profile" is cleared */
  function HollowGeometryAsWritten(g: seq<Geo>, outside: real, ringDiameter: real): (r: seq<Geo>)
    ensures |r| == |g| + 1 && r[..|g|] == g
  {
    g + [Geo(HollowCircle(outside, ringDiameter), false)]
  }

  /** Creating twice with the same numbers leaves two copies of the hollow's circle in
      "Torus_Profile2", against one in "Torus_Profile". */
  lemma SecondCreateDoublesHollowCircle(outside: real, ringDiameter: real)
    ensures var once := HollowGeometryAsWritten([], outside, ringDiameter);
            var twice := HollowGeometryAsWritten(once, outside, ringDiameter);
            |twice| == 2 && twice[0] == twice[1]
  {
  }

  /** The Placement of the segment `bt_make_ring` adds: the second assignment, moved by
      half the outside diameter along -y and not rotated, replaces the first */
  function RingSegmentPlacement(outside: real): Placement {
    Placement(Vec3(0.0, -outside / 2.0, 0.0), Identity)
  }

  /** The segment object of `bt_make_ring` */
  function RingSegment(m: MathLib, name: string, numSegments: int, ringDiameter: real, outside: real): DocObject
    requires numSegments != 0
  {
    NewObject(FeatureType, name).(
      shape := Extrusion(SegmentOutline(m, numSegments, ringDiameter / 2.0, SegmentTrapezoidHeight, 0.0, false), SegmentExtrude),
      placement := RingSegmentPlacement(outside))
  }

  /** In document coordinates the segment's top edge lies on y = -inside/2 and its bottom
      edge 20 lower, both at z = 0, the top edge half as wide as the ring radius times
      tan(180/N). */
  lemma RingSegmentPlaced(m: MathLib, numSegments: int, outside: real, inside: real, name: string)
    requires numSegments != 0
    ensures var o := RingSegment(m, name, numSegments, outside - inside, outside);
            var vs := o.shape.outline;
            var t := m.tan(Radians(m, 180.0 / numSegments as real));
            o.placement.rotation == Identity &&
            vs[2].y + o.placement.base.y == -inside / 2.0 && vs[3].y == vs[2].y &&
            vs[1].y + o.placement.base.y == -inside / 2.0 - SegmentTrapezoidHeight && vs[0].y == vs[1].y &&
            vs[2].x == (outside - inside) / 2.0 * t && vs[3].x == -vs[2].x &&
            (forall k :: 0 <= k < |vs| ==> vs[k].z == 0.0) && o.shape.height == SegmentExtrude
  {
    SegmentOutlineShape(m, numSegments, (outside - inside) / 2.0, SegmentTrapezoidHeight, 0.0, false);
  }

  /** `make_segment` of this panel: the wedge for its `num_segments` argument as a new
      "Segment_000" object; zero segments raise before anything is added. */
  method MakeSegment(doc: Document, hasDoc: bool, m: MathLib, numSegments: int, radius: real, trapezoidHeight: real,
                     zLevel: real, extrudeHeight: real, solidBottom: bool) returns (r: Result<string>)
    requires doc.Valid()
    modifies doc
    ensures doc.Valid()
    ensures numSegments == 0 ==> r == Err(DivisionByZero) && doc.objects == old(doc.objects)
    ensures numSegments != 0 && !hasDoc ==> r == Err(NoDocumentRaised) && doc.objects == old(doc.objects)
    ensures numSegments != 0 && hasDoc ==>
      r == Ok(FreshName(SegmentName, Names(old(doc.objects)))) &&
      doc.objects == old(doc.objects) + [NewObject(FeatureType, r.value).(
        shape := Extrusion(SegmentOutline(m, numSegments, radius, trapezoidHeight, zLevel, solidBottom), extrudeHeight))]
  {
    if numSegments == 0 {
      return Err(DivisionByZero);
    }
    var outline := SegmentOutline(m, numSegments, radius, trapezoidHeight, zLevel, solidBottom);
    if !hasDoc {
      return Err(NoDocumentRaised);
    }
    var i := doc.AddObject(FeatureType, SegmentName);
    doc.SetObject(i, doc.objects[i].(shape := Extrusion(outline, extrudeHeight)));
    r := Ok(doc.objects[i].name);
  }

  /** Drawing one profile sketch: put at the origin, cleared, given its circle and hidden */
  method DrawProfile(doc: Document, i: nat, c: Curve)
    requires doc.Valid() && i < |doc.objects|
    modifies doc
    ensures doc.Valid()
    ensures doc.objects == old(doc.objects)[i := Profiled(old(doc.objects)[i], c)]
  {
    ghost var o := doc.objects[i];
    doc.SetObject(i, doc.objects[i].(placement := IdentityPlacement));
    ClearGeometry(doc, i);
    assert doc.objects[i] == o.(placement := IdentityPlacement, geometry := []);
    doc.SetObject(i, doc.objects[i].(geometry := doc.objects[i].geometry + [Geo(c, false)]));
    assert doc.objects[i].geometry == [Geo(c, false)];
    doc.SetObject(i, doc.objects[i].(visible := false));
    assert doc.objects[i] == Profiled(o, c);
  }

  /** Drawing the two profile sketches, the profile's circle in the first and the
      hollow's in the second */
  method DrawProfiles(doc: Document, i1: nat, i2: nat, outside: real, ringDiameter: real)
    requires doc.Valid() && i1 < |doc.objects| && i2 < |doc.objects| && i1 != i2
    modifies doc
    ensures doc.Valid()
    ensures doc.objects == old(doc.objects)[i1 := Profiled(old(doc.objects)[i1], ProfileCircle(outside, ringDiameter))]
                                           [i2 := Profiled(old(doc.objects)[i2], HollowCircle(outside, ringDiameter))]
  {
    DrawProfile(doc, i1, ProfileCircle(outside, ringDiameter));
    DrawProfile(doc, i2, HollowCircle(outside, ringDiameter));
  }

  /** Both sketches put at the origin and the first one cleared, before the circles */
  method PlaceAndClearFirst(doc: Document, i1: nat, i2: nat)
    requires doc.Valid() && i1 < |doc.objects| && i2 < |doc.objects| && i1 != i2
    modifies doc
    ensures doc.Valid()
    ensures doc.objects == PlacedAndCleared(old(doc.objects), i1, i2)
  {
    doc.SetObject(i1, doc.objects[i1].(placement := IdentityPlacement));
    doc.SetObject(i2, doc.objects[i2].(placement := IdentityPlacement));
    ClearGeometry(doc, i1);
  }

  /** Drawing overwrites what placing and clearing changed. */
  lemma DrawnAfterClearing(b: seq<DocObject>, i1: nat, i2: nat, outside: real, ringDiameter: real)
    requires i1 < |b| && i2 < |b| && i1 != i2
    ensures DrawnProfiles(PlacedAndCleared(b, i1, i2), i1, i2, outside, ringDiameter) ==
            DrawnProfiles(b, i1, i2, outside, ringDiameter)
  {
    var c := PlacedAndCleared(b, i1, i2);
    assert Profiled(c[i1], ProfileCircle(outside, ringDiameter)) == Profiled(b[i1], ProfileCircle(outside, ringDiameter));
    assert Profiled(c[i2], HollowCircle(outside, ringDiameter)) == Profiled(b[i2], HollowCircle(outside, ringDiameter));
  }

  /** The two revolutions, each set up on the object just added, and their cut */
  method AddRevolutionsAndCut(doc: Document)
    requires doc.Valid()
    modifies doc
    ensures doc.Valid()
    ensures var c := old(doc.objects);
            var n1 := FreshName(RevolveName, Names(c));
            var e := c + [TorusRevolution(n1, ProfileName)];
            var n2 := FreshName(Revolve2Name, Names(e));
            var f := e + [TorusRevolution(n2, Profile2Name)];
            doc.objects == f + [TorusCut(FreshName(CutName, Names(f)), n1, n2)]
  {
    var n1 := AddRevolution(doc, RevolveName, ProfileName);
    var n2 := AddRevolution(doc, Revolve2Name, Profile2Name);
    var k := doc.AddObject(CutType, CutName);
    doc.SetObject(k, TorusCut(doc.objects[k].name, n1, n2));
  }

  /** One revolution added under a fresh Name and set up on that object */
  method AddRevolution(doc: Document, name: string, sketchName: string) returns (newName: string)
    requires doc.Valid()
    modifies doc
    ensures doc.Valid()
    ensures newName == FreshName(name, Names(old(doc.objects)))
    ensures doc.objects == old(doc.objects) + [TorusRevolution(newName, sketchName)]
  {
    var v := doc.AddObject(RevolutionType, name);
    newName := doc.objects[v].name;
    doc.SetObject(v, TorusRevolution(newName, sketchName));
  }

  /** `on_create_sketch` once a document is open and the values are read. The source
      looks "Torus_Profile2" up before adding "Torus_Profile"; the two Names differ, so
      looking it up after finds the same object. */
  method CreateTorusSketches(doc: Document, outside: real, ringDiameter: real) returns (r: Result<()>)
    requires doc.Valid()
    modifies doc
    ensures doc.Valid()
    ensures Outcome(doc.objects, r) == CreateTorus(old(doc.objects), outside, ringDiameter)
  {
    ghost var o := doc.objects;
    var s1 := GetOrAddSketch(doc, ProfileName);
    if s1.None? {
      return Err(ProfileNotSketch);
    }
    SketchSlotHoldsSketch(o, ProfileName);
    ghost var a := doc.objects;
    var s2 := GetOrAddSketch(doc, Profile2Name);
    if s2.None? {
      return Err(Profile2NotSketch);
    }
    SketchSlotHoldsSketch(a, Profile2Name);
    assert doc.objects[s1.value].name == ProfileName by {
      assert doc.objects[..|a|][s1.value] == a[s1.value];
    }
    ghost var b := doc.objects;
    PlaceAndClearFirst(doc, s1.value, s2.value);
    if ringDiameter / 2.0 < 0.0 || ringDiameter / 2.0 - HollowOffset < 0.0 {
      return Err(CircleRefused);
    }
    DrawnAfterClearing(b, s1.value, s2.value, outside, ringDiameter);
    DrawProfiles(doc, s1.value, s2.value, outside, ringDiameter);
    AddRevolutionsAndCut(doc);
    r := Ok(());
  }

  class AddTorusPanel {
    var numSegmentsPerRing: int
    var torusOutsideDiameter: real
    var torusInsideDiameter: real
    var numRingsPerTorus: int
    var ringDiameter: real
    var ringDiameterBox: DiameterBox

    constructor ()
      ensures State() == TorusState(12, 200.0, 100.0, 6, 100.0, Shown(100.0))
    {
      numSegmentsPerRing := 12;
      torusOutsideDiameter := 200.0;
      torusInsideDiameter := 100.0;
      numRingsPerTorus := 6;
      ringDiameter := 200.0 - 100.0;
      ringDiameterBox := Shown(200.0 - 100.0);
    }

    function State(): TorusState
      reads this
    {
      TorusState(numSegmentsPerRing, torusOutsideDiameter, torusInsideDiameter, numRingsPerTorus, ringDiameter, ringDiameterBox)
    }

    /** `update_ring_diameter`, run whenever either diameter box changes: the difference
        when both convert, otherwise the box is cleared and the field kept */
    method UpdateRingDiameter(outsideText: string, insideText: string)
      modifies this`ringDiameter, this`ringDiameterBox
      ensures var o := ParseReal(outsideText);
              var i := ParseReal(insideText);
              (o.Some? && i.Some? ==> ringDiameter == o.value - i.value && ringDiameterBox == Shown(ringDiameter)) &&
              (o.None? || i.None? ==> ringDiameter == old(ringDiameter) && ringDiameterBox == Blank)
    {
      var o := ParseReal(outsideText);
      var i := ParseReal(insideText);
      if o.None? || i.None? {
        ringDiameterBox := Blank;
        return;
      }
      ringDiameter := o.value - i.value;
      ringDiameterBox := Shown(ringDiameter);
    }

    /** `update_values`; it fails (a ValueError) unless all four boxes convert */
    method UpdateValues(inp: TorusInputs) returns (ok: bool)
      modifies this
      ensures ok <==> TorusFieldsParsed(inp) == 4
      ensures State() == TorusUpdated(old(State()), inp)
    {
      var a := ParseInt(inp.numSegmentsPerRing);
      var o := ParseReal(inp.outsideDiameter);
      var i := ParseReal(inp.insideDiameter);
      var n := ParseInt(inp.numRingsPerTorus);
      if a.None? { return false; }
      numSegmentsPerRing := a.value;
      ok := UpdateDiameters(o, i, n);
    }

    /** `update_values` from the outside diameter on, given the boxes' conversions */
    method UpdateDiameters(o: Option<real>, i: Option<real>, n: Option<int>) returns (ok: bool)
      modifies this
      ensures ok <==> o.Some? && i.Some? && n.Some?
      ensures State() == DiametersAssigned(old(State()), o, i, n)
    {
      if o.None? { return false; }
      torusOutsideDiameter := o.value;
      if i.None? { return false; }
      torusInsideDiameter := i.value;
      ringDiameter := torusOutsideDiameter - torusInsideDiameter;
      ringDiameterBox := Shown(ringDiameter);
      if n.None? { return false; }
      numRingsPerTorus := n.value;
      ok := true;
    }

    /** `on_create_sketch`, with the revolutions set up on the objects just added and
        both profile sketches cleared before drawing */
    method OnCreateSketch(doc: Document, hasDoc: bool, inp: TorusInputs) returns (r: Result<()>)
      requires doc.Valid()
      modifies this, doc
      ensures doc.Valid()
      ensures State() == TorusUpdated(old(State()), inp)
      ensures TorusFieldsParsed(inp) < 4 ==> r == Err(InvalidInput) && doc.objects == old(doc.objects)
      ensures TorusFieldsParsed(inp) == 4 && !hasDoc ==> r == Err(NoDocument) && doc.objects == old(doc.objects)
      ensures TorusFieldsParsed(inp) == 4 && hasDoc ==>
                Outcome(doc.objects, r) == CreateTorus(old(doc.objects), torusOutsideDiameter, ringDiameter)
    {
      var ok := UpdateValues(inp);
      if !ok {
        return Err(InvalidInput);
      }
      if !hasDoc {
        return Err(NoDocument);
      }
      r := CreateTorusSketches(doc, torusOutsideDiameter, ringDiameter);
    }

    /** `bt_make_ring`: one segment for the panel's segment count and ring radius, 20
        tall and 10 thick, then placed (the first placement is overwritten by the second).
        The boxes are not read. */
    method BtMakeRing(doc: Document, hasDoc: bool, m: MathLib) returns (r: Result<string>)
      requires doc.Valid()
      modifies doc
      ensures doc.Valid()
      ensures numSegmentsPerRing == 0 ==> r == Err(DivisionByZero) && doc.objects == old(doc.objects)
      ensures numSegmentsPerRing != 0 && !hasDoc ==> r == Err(NoDocumentRaised) && doc.objects == old(doc.objects)
      ensures numSegmentsPerRing != 0 && hasDoc ==>
        r == Ok(FreshName(SegmentName, Names(old(doc.objects)))) &&
        doc.objects == old(doc.objects) + [RingSegment(m, r.value, numSegmentsPerRing, ringDiameter, torusOutsideDiameter)]
    {
      r := MakeSegment(doc, hasDoc, m, numSegmentsPerRing, ringDiameter / 2.0, SegmentTrapezoidHeight, 0.0, SegmentExtrude, false);
      if r.Err? {
        return;
      }
      var i := |doc.objects| - 1;
      doc.SetObject(i, doc.objects[i].(placement := Placement(Origin, AboutZ(90.0))));
      doc.SetObject(i, doc.objects[i].(placement := RingSegmentPlacement(torusOutsideDiameter)));
    }
  }
}
