/** The segmented-bowl panel. From the profile points of the "BowlProfileSketch" it
    builds one trapezoidal segment per layer, arrays each intersected ring around the
    bowl axis and staggers the rings. */
module AddSegments {
  import opened Wrappers
  import opened Geometry
  import opened Text
  import opened Sorting
  import opened Doc
  import opened VarSet
  import opened Rings

  const ProfileSketchLabel := "BowlProfileSketch"
  const SegmentName := "Segment_000"
  const FeatureType := "Part::Feature"

  /** The panel's text boxes and the solid-bottom radio button */
  datatype SegmentInputs = SegmentInputs(
    numSegments: string,
    fudge: string,
    wallThickness: string,
    rotation: string,
    solidBottomChecked: bool)

  /** The var-set writes `update_values` makes, up to the first field that does not parse */
  function UpdateWrites(c: Caller, objs: seq<DocObject>, inp: SegmentInputs): (r: seq<DocObject>)
    requires CallerIn(c, objs)
    ensures |r| == |objs| && CallerIn(c, r)
    ensures forall i :: 0 <= i < |objs| ==> r[i].(properties := objs[i].properties) == objs[i]
  {
    match ParseInt(inp.numSegments)
    case None => objs
    case Some(n) =>
      var a := SetVarsetEffect(c, true, objs, "NumSegments", IntValue(n));
      if ParseReal(inp.fudge).None? then a
      else match ParseReal(inp.wallThickness)
        case None => a
        case Some(w) =>
          var b := SetVarsetEffect(c, true, a, "WallThickness", FloatValue(w));
          match ParseReal(inp.rotation)
          case None => b
          case Some(rot) => SetVarsetEffect(c, true, b, "RotateAngle", FloatValue(rot))
  }

  // ---------------------------------------------------------------------------
  // Profile points

  /** The positions of a sketch's point geometries, in sketch order */
  function PointsOf(geos: seq<Geo>): seq<Vec3> {
    if geos == [] then []
    else
      var g := geos[|geos| - 1];
      PointsOf(geos[..|geos| - 1]) + (if g.curve.Point? then [g.curve.at] else [])
  }

  lemma {:induction false} PointsOfSpec(geos: seq<Geo>)
    ensures forall p :: p in PointsOf(geos) <==> exists i :: 0 <= i < |geos| && geos[i].curve == Point(p)
  {
    if geos != [] {
      var init := geos[..|geos| - 1];
      PointsOfSpec(init);
      forall p ensures p in PointsOf(geos) <==> exists i :: 0 <= i < |geos| && geos[i].curve == Point(p) {
        if p in PointsOf(init) {
          var i :| 0 <= i < |init| && init[i].curve == Point(p);
          assert geos[i] == init[i];
        }
        if i :| 0 <= i < |geos| && geos[i].curve == Point(p) {
          if i < |init| {
            assert init[i] == geos[i];
          }
        }
      }
    }
  }

  /** Orders points by height, as `sort(key=lambda v: v.y)` */
  function ByHeight(): (le: (Vec3, Vec3) -> bool) {
    (a: Vec3, b: Vec3) => a.y <= b.y
  }

  lemma ByHeightIsTotalPreorder()
    ensures TotalPreorder(ByHeight())
  {
  }

  /** The profile points the segment and solid handlers work from */
  function ProfilePoints(geos: seq<Geo>): seq<Vec3> {
    Sort(PointsOf(geos), ByHeight())
  }

  /** Exactly the sketch's points, each as often as it occurs, ascending in y. */
  lemma ProfilePointsSpec(geos: seq<Geo>)
    ensures SortedBy(ProfilePoints(geos), ByHeight())
    ensures multiset(ProfilePoints(geos)) == multiset(PointsOf(geos))
    ensures forall p :: p in ProfilePoints(geos) <==> exists i :: 0 <= i < |geos| && geos[i].curve == Point(p)
  {
    ByHeightIsTotalPreorder();
    SortCorrect(PointsOf(geos), ByHeight());
    SortMembers(PointsOf(geos), ByHeight());
    PointsOfSpec(geos);
  }

  /** The point-collecting loop, followed by the sort by y */
  method CollectProfilePoints(geos: seq<Geo>) returns (pts: seq<Vec3>)
    ensures pts == ProfilePoints(geos)
  {
    var found: seq<Vec3> := [];
    var i := 0;
    while i < |geos|
      invariant 0 <= i <= |geos|
      invariant found == PointsOf(geos[..i])
    {
      assert geos[..i + 1][..i] == geos[..i];
      if geos[i].curve.Point? {
        found := found + [geos[i].curve.at];
      }
      i := i + 1;
    }
    assert geos[..|geos|] == geos;
    pts := Sort(found, ByHeight());
  }

  // ---------------------------------------------------------------------------
  // One layer per pair of consecutive profile points

  /** The `make_segment` arguments for one layer */
  datatype Layer = Layer(radius: real, trapezoidHeight: real, zLevel: real, extrudeHeight: real)

  function Max(a: real, b: real): real {
    if a >= b then a else b
  }

  function Min(a: real, b: real): real {
    if a <= b then a else b
  }

  /** The layer between profile points p and q (q above p). `l, m, n, o` are the inner and
      outer wall positions at both heights; the trapezoid spans them with `fudge` to
      spare, except on a solid bottom, where it reaches the axis. */
  function LayerOf(p: Vec3, q: Vec3, wall: real, fudge: real, solidFirst: bool): Layer {
    var l, m, n, o := p.x - wall, p.x, q.x - wall, q.x;
    var maxX := Max(Max(l, m), Max(n, o));
    var minX := Min(Min(l, m), Min(n, o));
    var radius := maxX + fudge;
    Layer(radius, if solidFirst then radius else (maxX - minX) + 2.0 * fudge, p.y, q.y - p.y)
  }

  /** With a non-negative wall thickness the segment reaches the outer of the two profile
      radii plus the fudge, and is as tall as the radial run of the wall plus the wall
      thickness plus a fudge at each end; a solid bottom reaches the axis. */
  lemma LayerOfSpec(p: Vec3, q: Vec3, wall: real, fudge: real, solidFirst: bool)
    requires wall >= 0.0
    ensures LayerOf(p, q, wall, fudge, solidFirst).radius == Max(p.x, q.x) + fudge
    ensures !solidFirst ==>
      LayerOf(p, q, wall, fudge, solidFirst).trapezoidHeight == (Max(p.x, q.x) - Min(p.x, q.x)) + wall + 2.0 * fudge
    ensures solidFirst ==>
      LayerOf(p, q, wall, fudge, solidFirst).trapezoidHeight == LayerOf(p, q, wall, fudge, solidFirst).radius
    ensures LayerOf(p, q, wall, fudge, solidFirst).zLevel == p.y
    ensures LayerOf(p, q, wall, fudge, solidFirst).zLevel + LayerOf(p, q, wall, fudge, solidFirst).extrudeHeight == q.y
  {
  }

  /** The layers `bt_add_segments_click` builds: one per consecutive pair of points, the
      first one solid when the solid-bottom option is on */
  function Layers(pts: seq<Vec3>, wall: real, fudge: real, solidBottom: bool): (r: seq<Layer>)
    ensures |r| == if |pts| < 2 then 0 else |pts| - 1
  {
    if |pts| < 2 then []
    else seq(|pts| - 1, b requires 0 <= b < |pts| - 1 => LayerOf(pts[b], pts[b + 1], wall, fudge, b == 0 && solidBottom))
  }

  /** Over points ascending in y the layers stack without gaps or overlaps from the
      lowest point to the highest. */
  lemma LayersStack(pts: seq<Vec3>, wall: real, fudge: real, solidBottom: bool)
    requires SortedBy(pts, ByHeight()) && |pts| >= 2
    ensures Layers(pts, wall, fudge, solidBottom)[0].zLevel == pts[0].y
    ensures forall b :: 0 <= b < |pts| - 1 ==> Layers(pts, wall, fudge, solidBottom)[b].extrudeHeight >= 0.0
    ensures forall b :: 0 <= b < |pts| - 2 ==>
      Layers(pts, wall, fudge, solidBottom)[b].zLevel + Layers(pts, wall, fudge, solidBottom)[b].extrudeHeight ==
      Layers(pts, wall, fudge, solidBottom)[b + 1].zLevel
    ensures Layers(pts, wall, fudge, solidBottom)[|pts| - 2].zLevel +
            Layers(pts, wall, fudge, solidBottom)[|pts| - 2].extrudeHeight == pts[|pts| - 1].y
  {
    var ls := Layers(pts, wall, fudge, solidBottom);
    forall b | 0 <= b < |pts| - 1 ensures ls[b].extrudeHeight >= 0.0 {
      assert ByHeight()(pts[b], pts[b + 1]);
    }
  }

  // ---------------------------------------------------------------------------
  // The segment wedge

  /** The closed wedge `make_segment` extrudes: a trapezoid between y = radius -
      trapezoidHeight and y = radius whose sides make half a segment angle (180/N degrees)
      with the y-axis. A solid bottom moves both lower corners to the origin. */
  function SegmentOutline(m: MathLib, numSegments: int, radius: real, trapezoidHeight: real, zLevel: real, solidBottom: bool): seq<Vec3>
    requires numSegments != 0
  {
    var t := m.tan(Radians(m, 180.0 / numSegments as real));
    var yBottom := if solidBottom then 0.0 else radius - trapezoidHeight;
    var xBottom := if solidBottom then 0.0 else (radius - trapezoidHeight) * t;
    var xTop := radius * t;
    [Vec3(-xBottom, yBottom, zLevel), Vec3(xBottom, yBottom, zLevel), Vec3(xTop, radius, zLevel),
     Vec3(-xTop, radius, zLevel), Vec3(-xBottom, yBottom, zLevel)]
  }

  /** Five vertices with the last equal to the first, all at z_level, left corners the
      mirror images of the right ones, the top edge at y = radius with half-width
      radius·tan(180/N), the bottom edge at y = radius - trapezoidHeight, or at the origin
      for a solid bottom. */
  lemma SegmentOutlineShape(m: MathLib, numSegments: int, radius: real, trapezoidHeight: real, zLevel: real, solidBottom: bool)
    requires numSegments != 0
    ensures var vs := SegmentOutline(m, numSegments, radius, trapezoidHeight, zLevel, solidBottom);
      var t := m.tan(Radians(m, 180.0 / numSegments as real));
      |vs| == 5 && ClosedPolyline(vs) &&
      (forall k :: 0 <= k < 5 ==> vs[k].z == zLevel) &&
      vs[0].x == -vs[1].x && vs[3].x == -vs[2].x && vs[0].y == vs[1].y &&
      vs[2] == Vec3(radius * t, radius, zLevel) && vs[3].y == radius &&
      (solidBottom ==> vs[0] == vs[1] == Vec3(0.0, 0.0, zLevel)) &&
      (!solidBottom ==> vs[1] == Vec3((radius - trapezoidHeight) * t, radius - trapezoidHeight, zLevel))
  {
  }

  /** The solid bottom only moves the lower corners: the top edge is the same either way. */
  lemma SolidBottomKeepsTop(m: MathLib, numSegments: int, radius: real, trapezoidHeight: real, zLevel: real)
    requires numSegments != 0
    ensures SegmentOutline(m, numSegments, radius, trapezoidHeight, zLevel, true)[2..4] ==
            SegmentOutline(m, numSegments, radius, trapezoidHeight, zLevel, false)[2..4]
  {
  }

  /** The solid-bottom layer passes `solid_bottom=False` but a trapezoid as tall as its
      radius, which puts the lower corners at the origin just the same. */
  lemma SolidLayerReachesAxis(m: MathLib, numSegments: int, radius: real, zLevel: real)
    requires numSegments != 0
    ensures SegmentOutline(m, numSegments, radius, radius, zLevel, false) ==
            SegmentOutline(m, numSegments, radius, radius, zLevel, true)
  {
    var t := m.tan(Radians(m, 180.0 / numSegments as real));
    assert (radius - radius) * t == 0.0;
  }

  /** The object `make_segment` adds for a layer, once its placement is set */
  function SegmentObject(m: MathLib, numSegments: int, name: string, ly: Layer): DocObject
    requires numSegments != 0
  {
    NewObject(FeatureType, name).(
      shape := Extrusion(SegmentOutline(m, numSegments, ly.radius, ly.trapezoidHeight, ly.zLevel, false), ly.extrudeHeight),
      placement := Placement(Origin, AboutZ(-90.0)))
  }

  // ---------------------------------------------------------------------------
  // Arraying the intersected rings

  predicate IsIntersect(o: DocObject) {
    Contains(o.labelText, "Intersect")
  }

  /** `f"Ring_{k:03d}_{copy}"` */
  function RingLabel(k: int, copy: string): string {
    RingLabelPrefix + Format03(k) + "_" + copy
  }

  /** Reading the ring number back out of a ring label */
  lemma RingLabelRingNumber(k: int)
    requires 0 <= k < 1000
    ensures GroupOf(RingLabel(k, "001")) == GroupOf(RingLabel(k, "002")) == RingLabelPrefix + Format03(k) + "_"
    ensures |RingLabel(k, "002")| == 12
    ensures ParseInt(RingLabel(k, "002")[5..8]) == Some(k)
  {
    var z := Format03(k);
    FormatParseRoundTrip(k);
    Format03Width(k);
    assert RingLabel(k, "001")[..9] == RingLabelPrefix + z + "_";
    assert RingLabel(k, "002")[..9] == RingLabelPrefix + z + "_";
    assert RingLabel(k, "002")[5..8] == z;
  }

  /** The number of Intersect objects among objs */
  function IntersectCount(objs: seq<DocObject>): nat {
    if objs == [] then 0
    else IntersectCount(objs[..|objs| - 1]) + (if IsIntersect(objs[|objs| - 1]) then 1 else 0)
  }

  /** The k-th Intersect object (k from 1) relabelled `Ring_kkk_001` */
  function Relabelled(o: DocObject, ringNum: int): DocObject {
    if IsIntersect(o) then o.(labelText := RingLabel(ringNum, "001")) else o
  }

  function RelabelledAll(objs: seq<DocObject>): (r: seq<DocObject>)
    ensures |r| == |objs|
    ensures forall i :: 0 <= i < |objs| ==> r[i] == Relabelled(objs[i], IntersectCount(objs[..i]) + 1)
  {
    seq(|objs|, i requires 0 <= i < |objs| => Relabelled(objs[i], IntersectCount(objs[..i]) + 1))
  }

  /** The placement of copy i: at the origin, turned i·360/N about z */
  function CopyPlacement(i: int, numSegments: int): Placement
    requires numSegments != 0
  {
    Placement(Origin, AboutZ(i as real * (360.0 / numSegments as real)))
  }

  /** The copies of one ring, their Names left blank: copy i (i = 1..N-1) of the
      relabelled ring object, labelled `Ring_kkk_002` */
  function RingCopies(src: DocObject, ringNum: int, numSegments: int): (r: seq<DocObject>)
    ensures |r| == if numSegments > 1 then numSegments - 1 else 0
  {
    if numSegments <= 1 then []
    else
      seq(numSegments - 1, j requires 0 <= j < numSegments - 1 =>
        src.(name := "", labelText := RingLabel(ringNum, "002"), placement := CopyPlacement(j + 1, numSegments)))
  }

  lemma RingCopyAt(src: DocObject, ringNum: int, numSegments: int, c: int)
    requires 1 <= c < numSegments
    ensures RingCopies(src, ringNum, numSegments)[c - 1] ==
      src.(name := "", labelText := RingLabel(ringNum, "002"), placement := CopyPlacement(c, numSegments))
  {
  }

  /** All copies `bt_array_segments_click` appends, in order, Names blank */
  function AllRingCopies(objs: seq<DocObject>, numSegments: int): seq<DocObject> {
    if objs == [] then []
    else
      var init := objs[..|objs| - 1];
      var o := objs[|objs| - 1];
      AllRingCopies(init, numSegments) +
      (if IsIntersect(o) then RingCopies(Relabelled(o, IntersectCount(init) + 1), IntersectCount(init) + 1, numSegments) else [])
  }

  /** The number of copies `range(1, N)` gives */
  function CopiesPerRing(numSegments: int): nat {
    if numSegments > 1 then numSegments - 1 else 0
  }

  lemma MulSucc(a: nat, c: nat)
    ensures (a + 1) * c == a * c + c
  {
  }

  /** Every ring contributes N-1 copies. */
  lemma {:induction false} AllRingCopiesCount(objs: seq<DocObject>, numSegments: int)
    ensures |AllRingCopies(objs, numSegments)| == IntersectCount(objs) * CopiesPerRing(numSegments)
  {
    if objs != [] {
      var init := objs[..|objs| - 1];
      var o := objs[|objs| - 1];
      AllRingCopiesCount(init, numSegments);
      var a := IntersectCount(init);
      var c := CopiesPerRing(numSegments);
      if IsIntersect(o) {
        assert |RingCopies(Relabelled(o, a + 1), a + 1, numSegments)| == c;
        MulSucc(a, c);
      }
    }
  }

  /** A copy as `bt_array_segments_click` makes it: a `_002` label, placed at the
      origin and turned by a whole number of segment angles between 1 and N-1 */
  ghost predicate CopyShaped(c: DocObject, numSegments: int) {
    EndsWith(c.labelText, "_002") && StartsWith(c.labelText, RingLabelPrefix) &&
    exists i :: 1 <= i < numSegments && c.placement == CopyPlacement(i, numSegments)
  }

  /** The copies of one ring are all shaped so. */
  lemma RingCopiesShape(src: DocObject, k: int, numSegments: int)
    requires numSegments > 1
    ensures forall c :: c in RingCopies(src, k, numSegments) ==> CopyShaped(c, numSegments)
  {
    var cs := RingCopies(src, k, numSegments);
    var lbl := RingLabel(k, "002");
    assert lbl[|lbl| - 4..] == "_002";
    assert lbl[..5] == RingLabelPrefix;
    forall c | c in cs
      ensures CopyShaped(c, numSegments)
    {
      var j :| 0 <= j < |cs| && cs[j] == c;
      assert c.placement == CopyPlacement(j + 1, numSegments);
    }
  }

  /** Every copy carries a `_002` label, sits at the origin and is turned by a whole
      number of segment angles between 1 and N-1. */
  lemma {:induction false} AllRingCopiesShape(objs: seq<DocObject>, numSegments: int)
    requires numSegments > 1
    ensures forall c :: c in AllRingCopies(objs, numSegments) ==> CopyShaped(c, numSegments)
  {
    if objs != [] {
      var init := objs[..|objs| - 1];
      AllRingCopiesShape(init, numSegments);
      var o := objs[|objs| - 1];
      if IsIntersect(o) {
        var k := IntersectCount(init) + 1;
        RingCopiesShape(Relabelled(o, k), k, numSegments);
      }
    }
  }

  function Unnamed(objs: seq<DocObject>): (r: seq<DocObject>)
    ensures |r| == |objs|
    ensures forall i :: 0 <= i < |objs| ==> r[i] == objs[i].(name := "")
  {
    seq(|objs|, i requires 0 <= i < |objs| => objs[i].(name := ""))
  }

  lemma UnnamedConcat(a: seq<DocObject>, b: seq<DocObject>)
    ensures Unnamed(a + b) == Unnamed(a) + Unnamed(b)
  {
  }

  /** How one more object extends the relabelling and the copies */
  lemma ArrayStep(objs: seq<DocObject>, i: nat, numSegments: int)
    requires i < |objs|
    ensures IntersectCount(objs[..i + 1]) == IntersectCount(objs[..i]) + (if IsIntersect(objs[i]) then 1 else 0)
    ensures AllRingCopies(objs[..i + 1], numSegments) == AllRingCopies(objs[..i], numSegments) +
      (if IsIntersect(objs[i])
       then RingCopies(Relabelled(objs[i], IntersectCount(objs[..i]) + 1), IntersectCount(objs[..i]) + 1, numSegments)
       else [])
    ensures RelabelledAll(objs)[i] == Relabelled(objs[i], IntersectCount(objs[..i]) + 1)
  {
    assert objs[..i + 1][..i] == objs[..i];
    assert objs[..i + 1][i] == objs[i];
  }

  /** The array loop has handled the first i of the original objects: those are
      relabelled, the rest untouched, and the copies so far follow them. */
  ghost predicate ArrayedUpTo(objs: seq<DocObject>, before: seq<DocObject>, i: nat, numSegments: int) {
    i <= |before| <= |objs| &&
    |objs| == |before| + |AllRingCopies(before[..i], numSegments)| &&
    objs[..i] == RelabelledAll(before)[..i] &&
    objs[i..|before|] == before[i..] &&
    Unnamed(objs[|before|..]) == AllRingCopies(before[..i], numSegments)
  }

  /** The relabelled prefix grows by one object, the untouched part shrinks by one. */
  lemma PrefixStep(prev: seq<DocObject>, cur: seq<DocObject>, n: nat, i: nat, rel: seq<DocObject>, before: seq<DocObject>, x: DocObject)
    requires i < n <= |prev| && n <= |cur| && |rel| == n == |before|
    requires prev[..i] == rel[..i] && prev[i..n] == before[i..]
    requires cur[..n] == prev[..n][i := x] && rel[i] == x
    ensures cur[..i + 1] == rel[..i + 1] && cur[i + 1..n] == before[i + 1..]
  {
    forall j | 0 <= j <= i ensures cur[j] == rel[j] {
      if j < i {
        assert cur[j] == cur[..n][j] == prev[..n][j] == prev[j] == prev[..i][j];
      } else {
        assert cur[j] == cur[..n][j];
      }
    }
    forall j | i + 1 <= j < n ensures cur[j] == before[j] {
      assert cur[j] == cur[..n][j] == prev[..n][j] == prev[j] == prev[i..n][j - i];
    }
    assert cur[..i + 1] == rel[..i + 1];
    assert cur[i + 1..n] == before[i + 1..];
  }

  lemma CopiesStep(prev: seq<DocObject>, copy: DocObject, k: nat, copies: seq<DocObject>, c: int)
    requires k <= |prev| && 1 <= c <= |copies|
    requires Unnamed(prev[k..]) == copies[..c - 1]
    requires copy.(name := "") == copies[c - 1]
    ensures (prev + [copy])[..k] == prev[..k]
    ensures Unnamed((prev + [copy])[k..]) == copies[..c]
  {
    assert (prev + [copy])[k..] == prev[k..] + [copy];
    UnnamedAppend(prev[k..], copy);
    assert copies[..c] == copies[..c - 1] + [copies[c - 1]];
  }

  /** Copy c of the ring object at i: a fresh-named duplicate, relabelled `_002` and
      turned by c segment angles, appended at the end */
  method AddCopy(doc: Document, i: nat, ringNum: int, c: int, numSegments: int)
    requires doc.Valid() && i < |doc.objects| && 1 <= c < numSegments
    modifies doc
    ensures doc.Valid()
    ensures |doc.objects| == |old(doc.objects)| + 1 && doc.objects[..|old(doc.objects)|] == old(doc.objects)
    ensures doc.objects[|old(doc.objects)|].(name := "") == RingCopies(old(doc.objects)[i], ringNum, numSegments)[c - 1]
  {
    var j := doc.CopyObject(i);
    var copy := doc.objects[j].(placement := CopyPlacement(c, numSegments), labelText := RingLabel(ringNum, "002"));
    RingCopyAt(old(doc.objects)[i], ringNum, numSegments, c);
    doc.SetObject(j, copy);
  }

  /** The copy loop of `bt_array_segments_click` for the ring object at i: copies
      1..N-1 appended in order */
  method CopyRing(doc: Document, i: nat, ringNum: int, numSegments: int)
    requires doc.Valid() && i < |doc.objects|
    modifies doc
    ensures doc.Valid()
    ensures |doc.objects| == |old(doc.objects)| + |RingCopies(old(doc.objects)[i], ringNum, numSegments)|
    ensures doc.objects[..|old(doc.objects)|] == old(doc.objects)
    ensures Unnamed(doc.objects[|old(doc.objects)|..]) == RingCopies(old(doc.objects)[i], ringNum, numSegments)
  {
    ghost var start := doc.objects;
    ghost var copies := RingCopies(start[i], ringNum, numSegments);
    var c := 1;
    while c < numSegments
      invariant 1 <= c && (numSegments > 1 ==> c <= numSegments)
      invariant numSegments <= 1 ==> c == 1
      invariant doc.Valid()
      invariant |doc.objects| == |start| + (c - 1)
      invariant doc.objects[..|start|] == start
      invariant Unnamed(doc.objects[|start|..]) == copies[..c - 1]
    {
      ghost var prev := doc.objects;
      assert prev[i] == start[i] by {
        assert prev[..|start|][i] == start[i];
      }
      AddCopy(doc, i, ringNum, c, numSegments);
      var copy := doc.objects[|prev|];
      assert doc.objects == prev + [copy];
      CopiesStep(prev, copy, |start|, copies, c);
      c := c + 1;
    }
    assert copies[..c - 1] == copies;
  }

  lemma UnnamedAppend(a: seq<DocObject>, o: DocObject)
    ensures Unnamed(a + [o]) == Unnamed(a) + [o.(name := "")]
  {
  }

  // ---------------------------------------------------------------------------
  // The bowl solid: which face is opened

  /** The face loop of `bt_add_bowl_solid_click`: the first face whose centre is higher
      than every earlier one and than -1, starting from face 0 */
  function HighestFace(zs: seq<real>): (best: (real, nat)) {
    if zs == [] then (-1.0, 0)
    else
      var prev := HighestFace(zs[..|zs| - 1]);
      if zs[|zs| - 1] > prev.0 then (zs[|zs| - 1], |zs| - 1) else prev
  }

  /** The chosen face is the first of the highest faces, when any face is above -1. */
  lemma {:induction false} HighestFaceSpec(zs: seq<real>)
    ensures HighestFace(zs).0 >= -1.0
    ensures forall j :: 0 <= j < |zs| ==> zs[j] <= HighestFace(zs).0
    ensures HighestFace(zs).0 > -1.0 ==> HighestFace(zs).1 < |zs| && zs[HighestFace(zs).1] == HighestFace(zs).0
    ensures forall j :: 0 <= j < HighestFace(zs).1 < |zs| ==> zs[j] < HighestFace(zs).0
    ensures HighestFace(zs).0 == -1.0 ==> HighestFace(zs).1 == 0
  {
    if zs != [] {
      var init := zs[..|zs| - 1];
      HighestFaceSpec(init);
      assert forall j :: 0 <= j < |init| ==> zs[j] == init[j];
    }
  }

  /** The face the thickness feature opens, as written: always 'Face3' */
  function OpenedFaceAsWritten(zs: seq<real>): nat {
    2
  }

  /** The face the handler evidently means to open: the highest one it just found */
  function OpenedFace(zs: seq<real>): (k: nat)
    requires |zs| > 0
    ensures k < |zs|
    ensures forall j :: 0 <= j < |zs| ==> (zs[j] <= zs[k] || zs[k] <= -1.0)
  {
    HighestFaceSpec(zs);
    HighestFace(zs).1
  }

  /** A solid whose fourth face is the highest: the handler still opens the third. */
  lemma OpenedFaceIgnoresHighest()
    ensures OpenedFace([0.0, 0.0, 0.0, 10.0]) == 3
    ensures OpenedFaceAsWritten([0.0, 0.0, 0.0, 10.0]) != OpenedFace([0.0, 0.0, 0.0, 10.0])
  {
    var zs := [0.0, 0.0, 0.0, 10.0];
    assert zs[..3] == [0.0, 0.0, 0.0];
    assert zs[..3][..2] == [0.0, 0.0];
    assert zs[..3][..2][..1] == [0.0];
    assert [0.0][..0] == [];
  }

  /** The face loop itself: `a_face = faces_list[0]` fails on an empty face list. */
  method PickHighestFace(zs: seq<real>) returns (r: Option<nat>)
    ensures zs == [] ==> r.None?
    ensures zs != [] ==> r == Some(HighestFace(zs).1)
  {
    if zs == [] {
      return None;
    }
    var face: nat := 0;
    var highest := -1.0;
    var i := 0;
    while i < |zs|
      invariant 0 <= i <= |zs|
      invariant (highest, face) == HighestFace(zs[..i])
    {
      assert zs[..i + 1][..i] == zs[..i];
      if zs[i] > highest {
        highest := zs[i];
        face := i;
      }
      i := i + 1;
    }
    assert zs[..|zs|] == zs;
    r := Some(face);
  }

  /** `update_values` runs to the end */
  predicate UpdateSucceeds(inp: SegmentInputs) {
    ParseInt(inp.numSegments).Some? && ParseReal(inp.fudge).Some? &&
    ParseReal(inp.wallThickness).Some? && ParseReal(inp.rotation).Some?
  }

  /** The panel fields `update_values` assigns */
  datatype PanelFields = PanelFields(bowlNumSegments: int, fudge: real, wallThickness: real, rotationPerRing: real,
                                     solidBottom: bool)

  /** The fields after `update_values`: each field is assigned as its box parses, the
      first box that does not parse ending it; the radio button is read last. */
  function FieldsUpdated(f: PanelFields, inp: SegmentInputs): (u: PanelFields)
    ensures UpdateSucceeds(inp) ==>
              u == PanelFields(ParseInt(inp.numSegments).value, ParseReal(inp.fudge).value,
                               ParseReal(inp.wallThickness).value, ParseReal(inp.rotation).value, inp.solidBottomChecked)
    ensures !UpdateSucceeds(inp) ==> u.solidBottom == f.solidBottom
    ensures ParseInt(inp.numSegments).None? ==> u == f
  {
    match ParseInt(inp.numSegments)
    case None => f
    case Some(n) =>
      match ParseReal(inp.fudge)
      case None => f.(bowlNumSegments := n)
      case Some(fu) =>
        match ParseReal(inp.wallThickness)
        case None => f.(bowlNumSegments := n, fudge := fu)
        case Some(w) =>
          match ParseReal(inp.rotation)
          case None => f.(bowlNumSegments := n, fudge := fu, wallThickness := w)
          case Some(rot) => PanelFields(n, fu, w, rot, inp.solidBottomChecked)
  }

  /** `after` is `before` followed by one placed segment per layer, under the listed Names */
  ghost predicate SegmentsAppended(before: seq<DocObject>, after: seq<DocObject>, names: seq<string>,
                                   m: MathLib, numSegments: int, ls: seq<Layer>)
    requires numSegments != 0
  {
    SegmentsUpTo(before, after, names, m, numSegments, ls, |ls|)
  }

  /** `after` is `before` followed by placed segments for the first k layers */
  ghost predicate SegmentsUpTo(before: seq<DocObject>, after: seq<DocObject>, names: seq<string>,
                               m: MathLib, numSegments: int, ls: seq<Layer>, k: nat)
    requires numSegments != 0 && k <= |ls|
  {
    |names| == k && |after| == |before| + k && after[..|before|] == before &&
    forall b :: 0 <= b < k ==>
      StartsWith(names[b], SegmentName) && after[|before| + b] == SegmentObject(m, numSegments, names[b], ls[b])
  }

  /** The profile points of the "BowlProfileSketch", when there is one */
  function SketchPoints(objs: seq<DocObject>): Option<seq<Vec3>> {
    match FindByLabel(objs, ProfileSketchLabel)
    case None => None
    case Some(i) => Some(ProfilePoints(objs[i].geometry))
  }

  lemma SketchPointsOnlyProperties(a: seq<DocObject>, b: seq<DocObject>)
    requires |a| == |b|
    requires forall i :: 0 <= i < |a| ==> a[i].(properties := b[i].properties) == b[i]
    ensures SketchPoints(a) == SketchPoints(b)
  {
    FindByLabelOnlyProperties(a, b, ProfileSketchLabel);
    if FindByLabel(a, ProfileSketchLabel).Some? {
      var i := FindByLabel(a, ProfileSketchLabel).value;
      assert a[i].(properties := b[i].properties).geometry == a[i].geometry;
    }
  }

  /** Changing only properties does not change which object a Label finds. */
  lemma {:induction false} FindByLabelOnlyProperties(a: seq<DocObject>, b: seq<DocObject>, wanted: string)
    requires |a| == |b|
    requires forall i :: 0 <= i < |a| ==> a[i].(properties := b[i].properties) == b[i]
    ensures FindByLabel(a, wanted) == FindByLabel(b, wanted)
    decreases |a|
  {
    if a != [] {
      assert a[0].labelText == b[0].labelText by {
        assert a[0].(properties := b[0].properties) == b[0];
      }
      if a[0].labelText != wanted {
        forall i | 0 <= i < |a[1..]| ensures a[1..][i].(properties := b[1..][i].properties) == b[1..][i] {
          assert a[1..][i] == a[i + 1] && b[1..][i] == b[i + 1];
        }
        FindByLabelOnlyProperties(a[1..], b[1..], wanted);
      }
    }
  }

  /** The ring loop of `bt_rotate_rings_click`, for a rotation per ring of r */
  method StaggerRings(doc: Document, r: real)
    requires doc.Valid()
    modifies doc
    ensures doc.Valid()
    ensures doc.objects == Staggered(old(doc.objects), RingGroups(old(doc.objects)), Squared(r))
  {
    var rings := CollectRingGroups(doc.objects);
    ghost var base := doc.objects;
    StaggeredByNothing(base, Squared(r));
    var startingAngle := 0.0;
    var k := 0;
    while k < |rings|
      invariant 0 <= k <= |rings|
      invariant doc.Valid()
      invariant startingAngle == k as real * r
      invariant doc.objects == Staggered(base, rings[..k], Squared(r))
    {
      TurnObjectsWithPrefix(doc, rings[k], r * startingAngle);
      RingTurnIsStagger(base, rings, k, r, startingAngle);
      startingAngle := startingAngle + r;
      k := k + 1;
    }
    assert rings[..|rings|] == rings;
  }

  /** The per-ring step of the AddSegments stagger: rotation_per_ring applied twice */
  function Squared(r: real): real {
    r * r
  }

  /** Ring k of the AddSegments loop is turned by its stagger amount for step r·r. */
  lemma RingTurnIsStagger(objs: seq<DocObject>, rings: seq<string>, k: nat, r: real, startingAngle: real)
    requires k < |rings| && startingAngle == k as real * r
    ensures TurnGroup(Staggered(objs, rings[..k], Squared(r)), rings[k], r * startingAngle) ==
            Staggered(objs, rings[..k + 1], Squared(r))
  {
    var step := Squared(r);
    TimesStartingAngle(r, startingAngle, k as real, step);
    TurnGroupSameAngle(Staggered(objs, rings[..k], step), rings[k], r * startingAngle, k as real * step);
    StaggerOneMore(objs, rings, k, step);
  }

  lemma TimesStartingAngle(r: real, startingAngle: real, k: real, step: real)
    requires startingAngle == k * r && step == r * r
    ensures r * startingAngle == k * step
  {
  }

  // ---------------------------------------------------------------------------
  // The panel

  /** The var-set writes of `update_values`, up to the first field that does not parse */
  method WriteVarset(doc: Document, c: Caller, inp: SegmentInputs) returns (ok: bool)
    requires doc.Valid() && CallerIn(c, doc.objects)
    modifies doc
    ensures doc.Valid() && CallerIn(c, doc.objects)
    ensures doc.objects == UpdateWrites(c, old(doc.objects), inp)
    ensures ok <==> UpdateSucceeds(inp)
  {
    var n := ParseInt(inp.numSegments);
    if n.None? { return false; }
    SetVarsetValue(doc, c, true, "NumSegments", IntValue(n.value));
    var f := ParseReal(inp.fudge);
    if f.None? { return false; }
    var w := ParseReal(inp.wallThickness);
    if w.None? { return false; }
    SetVarsetValue(doc, c, true, "WallThickness", FloatValue(w.value));
    var rot := ParseReal(inp.rotation);
    if rot.None? { return false; }
    SetVarsetValue(doc, c, true, "RotateAngle", FloatValue(rot.value));
    ok := true;
  }

  /** One more placed segment extends the objects and Names the layer loop has made. */
  lemma SegmentStep(before: seq<DocObject>, o: seq<DocObject>, o2: seq<DocObject>, ns: seq<string>, name: string,
                    m: MathLib, n: int, ls: seq<Layer>, b: nat)
    requires n != 0 && b < |ls|
    requires SegmentsUpTo(before, o, ns, m, n, ls, b)
    requires StartsWith(name, SegmentName) && o2 == o + [SegmentObject(m, n, name, ls[b])]
    ensures SegmentsUpTo(before, o2, ns + [name], m, n, ls, b + 1)
  {
    assert o2[..|before|] == o[..|before|];
    forall k | 0 <= k < b + 1
      ensures StartsWith((ns + [name])[k], SegmentName) && o2[|before| + k] == SegmentObject(m, n, (ns + [name])[k], ls[k])
    {
      if k < b {
        assert o2[|before| + k] == o[|before| + k];
      }
    }
  }

  /** What building the layers from the profile sketch leaves, given the sketch's points
      (None without the sketch): without the sketch "Missing Sketch" and no change; fewer
      than two points, nothing built and an empty Name list; zero segments with two
      points or more, an error and nothing built; otherwise one placed segment per layer. */
  ghost predicate BuiltFromSketch(pts: Option<seq<Vec3>>, before: seq<DocObject>, after: seq<DocObject>,
                                  names0: seq<string>, names: seq<string>, r: Result<()>,
                                  m: MathLib, n: int, wall: real, fudge: real, solid: bool)
  {
    (pts.None? ==> r == Err("Missing Sketch") && after == before && names == names0) &&
    (pts.Some? ==>
       (|pts.value| < 2 ==> r.Ok? && after == before && names == []) &&
       (|pts.value| >= 2 && n == 0 ==> r.Err? && after == before && names == []) &&
       (n != 0 ==> r.Ok? && SegmentsAppended(before, after, names, m, n, Layers(pts.value, wall, fudge, solid))))
  }

  class AddSegmentsTaskPanel {
    var varset: Option<nat>
    var numberOfSegments: int
    var bowlNumSegments: int
    var fudge: real
    var wallThickness: real
    var rotationPerRing: real
    var solidBottom: bool
    var listOfSegmentNames: seq<string>

    /** The panel opens only when the document has a var-set: without one, reading its
        property list raises and the command reports the error. */
    constructor (doc: Document, wallThickness0: real, rotationPerRing0: real)
      requires FindByName(doc.objects, VarSetName).Some?
      ensures varset == FindByName(doc.objects, VarSetName)
      ensures numberOfSegments == 12 && bowlNumSegments == 12 && fudge == 4.0 && solidBottom
      ensures wallThickness == wallThickness0 && rotationPerRing == rotationPerRing0
      ensures listOfSegmentNames == []
    {
      varset := FindByName(doc.objects, VarSetName);
      numberOfSegments := 12;
      bowlNumSegments := 12;
      fudge := 4.0;
      wallThickness := wallThickness0;
      rotationPerRing := rotationPerRing0;
      solidBottom := true;
      listOfSegmentNames := [];
    }

    function Fields(): PanelFields
      reads this
    {
      PanelFields(bowlNumSegments, fudge, wallThickness, rotationPerRing, solidBottom)
    }

    /** `update_values`: parses the fields in order, writing NumSegments, WallThickness
        and RotateAngle to the var-set as it goes; the first field that does not parse
        stops it (`ok` false), leaving the fields before it updated. The var-set writes
        and the panel's own fields touch different objects, so they are made here in two
        passes, each stopping at the same field. */
    method UpdateValues(doc: Document, inp: SegmentInputs) returns (ok: bool)
      requires doc.Valid() && CallerIn(PanelWithVarset(varset), doc.objects)
      modifies this`bowlNumSegments, this`fudge, this`wallThickness, this`rotationPerRing, this`solidBottom, doc
      ensures doc.Valid() && CallerIn(PanelWithVarset(varset), doc.objects)
      ensures doc.objects == UpdateWrites(PanelWithVarset(varset), old(doc.objects), inp)
      ensures ok <==> UpdateSucceeds(inp)
      ensures Fields() == FieldsUpdated(old(Fields()), inp)
    {
      ok := WriteVarset(doc, PanelWithVarset(varset), inp);
      ReadFields(inp);
    }

    /** The panel-field assignments of `update_values`, up to the first field that does
        not parse */
    method ReadFields(inp: SegmentInputs)
      modifies this`bowlNumSegments, this`fudge, this`wallThickness, this`rotationPerRing, this`solidBottom
      ensures Fields() == FieldsUpdated(old(Fields()), inp)
    {
      var n := ParseInt(inp.numSegments);
      if n.None? { return; }
      bowlNumSegments := n.value;
      var f := ParseReal(inp.fudge);
      if f.None? { return; }
      fudge := f.value;
      var w := ParseReal(inp.wallThickness);
      if w.None? { return; }
      wallThickness := w.value;
      var rot := ParseReal(inp.rotation);
      if rot.None? { return; }
      rotationPerRing := rot.value;
      solidBottom := inp.solidBottomChecked;
    }

    /** `make_segment`: adds a "Segment_000" object holding the extruded wedge and returns
        its Name. The angle comes from the panel's `bowl_num_segments`, not from the
        `num_segments` argument; zero segments raise a division by zero. */
    method MakeSegment(doc: Document, m: MathLib, numSegments: int, radius: real, trapezoidHeight: real,
                       zLevel: real, extrudeHeight: real, solidBottomArg: bool) returns (r: Result<string>)
      requires doc.Valid()
      modifies doc
      ensures doc.Valid()
      ensures bowlNumSegments == 0 ==> r.Err? && doc.objects == old(doc.objects)
      ensures bowlNumSegments != 0 ==>
        r == Ok(FreshName(SegmentName, Names(old(doc.objects)))) &&
        doc.objects == old(doc.objects) + [NewObject(FeatureType, r.value).(
          shape := Extrusion(SegmentOutline(m, bowlNumSegments, radius, trapezoidHeight, zLevel, solidBottomArg), extrudeHeight))]
    {
      if bowlNumSegments == 0 {
        return Err("division by zero");
      }
      var outline := SegmentOutline(m, bowlNumSegments, radius, trapezoidHeight, zLevel, solidBottomArg);
      var i := doc.AddObject(FeatureType, SegmentName);
      doc.SetObject(i, doc.objects[i].(shape := Extrusion(outline, extrudeHeight)));
      r := Ok(doc.objects[i].name);
    }

    /** One layer of `bt_add_segments_click`: `make_segment`, then the new segment is
        turned -90 degrees about Z */
    method PlacedSegment(doc: Document, m: MathLib, ly: Layer) returns (r: Result<string>)
      requires doc.Valid()
      modifies doc
      ensures doc.Valid()
      ensures bowlNumSegments == 0 ==> r.Err? && doc.objects == old(doc.objects)
      ensures bowlNumSegments != 0 ==>
        r.Ok? && StartsWith(r.value, SegmentName) &&
        doc.objects == old(doc.objects) + [SegmentObject(m, bowlNumSegments, r.value, ly)]
    {
      r := MakeSegment(doc, m, numberOfSegments, ly.radius, ly.trapezoidHeight, ly.zLevel, ly.extrudeHeight, false);
      if r.Err? {
        return;
      }
      var i := |doc.objects| - 1;
      doc.SetObject(i, doc.objects[i].(placement := Placement(Origin, AboutZ(-90.0))));
    }

    /** The layer loop of `bt_add_segments_click`: one placed segment per layer, its Name
        appended to `list_of_segment_names` (reset first). */
    method AddLayerSegments(doc: Document, m: MathLib, pts: seq<Vec3>) returns (r: Result<()>)
      requires doc.Valid()
      modifies this`listOfSegmentNames, doc
      ensures doc.Valid()
      ensures |pts| < 2 ==> r.Ok? && doc.objects == old(doc.objects) && listOfSegmentNames == []
      ensures |pts| >= 2 && bowlNumSegments == 0 ==>
        r.Err? && doc.objects == old(doc.objects) && listOfSegmentNames == []
      ensures bowlNumSegments != 0 ==>
        r.Ok? && SegmentsAppended(old(doc.objects), doc.objects, listOfSegmentNames, m, bowlNumSegments,
                                  Layers(pts, wallThickness, fudge, solidBottom))
    {
      ghost var before := doc.objects;
      ghost var ls := Layers(pts, wallThickness, fudge, solidBottom);
      listOfSegmentNames := [];
      var b := 0;
      while b < |pts| - 1
        invariant 0 <= b <= |ls| && (|pts| >= 1 ==> b <= |pts| - 1)
        invariant doc.Valid()
        invariant bowlNumSegments == 0 ==> b == 0 && doc.objects == before && listOfSegmentNames == []
        invariant bowlNumSegments != 0 ==> SegmentsUpTo(before, doc.objects, listOfSegmentNames, m, bowlNumSegments, ls, b)
      {
        var ly := LayerOf(pts[b], pts[b + 1], wallThickness, fudge, b == 0 && solidBottom);
        assert ly == ls[b];
        ghost var o := doc.objects;
        var name := PlacedSegment(doc, m, ly);
        if name.Err? {
          return Err(name.message);
        }
        SegmentStep(before, o, doc.objects, listOfSegmentNames, name.value, m, bowlNumSegments, ls, b);
        listOfSegmentNames := listOfSegmentNames + [name.value];
        b := b + 1;
      }
      if |pts| < 2 && bowlNumSegments != 0 {
        assert doc.objects == doc.objects[..|before|];
      }
      r := Ok(());
    }

    /** The part of `bt_add_segments_click` after reading the panel: the profile sketch is
        found by Label, and its points, sorted by height, give the layers. */
    method AddSegmentsFromSketch(doc: Document, m: MathLib) returns (r: Result<()>)
      requires doc.Valid()
      modifies this`listOfSegmentNames, doc
      ensures doc.Valid()
      ensures BuiltFromSketch(SketchPoints(old(doc.objects)), old(doc.objects), doc.objects,
                              old(listOfSegmentNames), listOfSegmentNames, r,
                              m, bowlNumSegments, wallThickness, fudge, solidBottom)
    {
      var s := FindByLabel(doc.objects, ProfileSketchLabel);
      if s.None? {
        return Err("Missing Sketch");
      }
      var pts := CollectProfilePoints(doc.objects[s.value].geometry);
      r := AddLayerSegments(doc, m, pts);
    }

    /** `bt_add_segments_click`: reads the panel, then builds the layer segments from the
        profile sketch as it was before (reading the panel changes only var-set values). */
    method BtAddSegmentsClick(doc: Document, m: MathLib, inp: SegmentInputs) returns (r: Result<()>)
      requires doc.Valid() && CallerIn(PanelWithVarset(varset), doc.objects)
      modifies this`bowlNumSegments, this`fudge, this`wallThickness, this`rotationPerRing, this`solidBottom
      modifies this`listOfSegmentNames, doc
      ensures doc.Valid()
      ensures Fields() == FieldsUpdated(old(Fields()), inp)
      ensures !UpdateSucceeds(inp) ==>
        r.Err? && doc.objects == UpdateWrites(PanelWithVarset(varset), old(doc.objects), inp) &&
        listOfSegmentNames == old(listOfSegmentNames)
      ensures UpdateSucceeds(inp) ==>
        BuiltFromSketch(SketchPoints(old(doc.objects)), UpdateWrites(PanelWithVarset(varset), old(doc.objects), inp),
                        doc.objects, old(listOfSegmentNames), listOfSegmentNames, r,
                        m, bowlNumSegments, wallThickness, fudge, solidBottom)
    {
      ghost var before := doc.objects;
      var ok := UpdateValues(doc, inp);
      if !ok {
        return Err("invalid input");
      }
      ghost var mid := doc.objects;
      SketchPointsOnlyProperties(mid, before);
      r := AddSegmentsFromSketch(doc, m);
      assert UpdateWrites(PanelWithVarset(varset), before, inp) == mid;
      assert SketchPoints(mid) == SketchPoints(before);
    }

    /** `bt_array_segments_click` after reading the panel: relabels the k-th Intersect
        object `Ring_kkk_001` and appends its N-1 copies, at the origin turned by i·360/N,
        all labelled `Ring_kkk_002`. */
    method ArrayRings(doc: Document)
      requires doc.Valid()
      modifies doc
      ensures doc.Valid()
      ensures |doc.objects| == |old(doc.objects)| + |AllRingCopies(old(doc.objects), bowlNumSegments)|
      ensures doc.objects[..|old(doc.objects)|] == RelabelledAll(old(doc.objects))
      ensures Unnamed(doc.objects[|old(doc.objects)|..]) == AllRingCopies(old(doc.objects), bowlNumSegments)
    {
      ghost var before := doc.objects;
      var n := |doc.objects|;
      var ringNum := 1;
      var i := 0;
      while i < n
        invariant 0 <= i <= n == |before|
        invariant doc.Valid()
        invariant ringNum == IntersectCount(before[..i]) + 1
        invariant ArrayedUpTo(doc.objects, before, i, bowlNumSegments)
      {
        ringNum := ArrayOne(doc, before, n, i, ringNum);
        i := i + 1;
      }
      assert before[..n] == before;
      assert doc.objects[..n] == doc.objects[..i];
    }

    /** One pass of the loop over the document's objects */
    method ArrayOne(doc: Document, ghost before: seq<DocObject>, n: nat, i: nat, ringNum: int) returns (next: int)
      requires doc.Valid() && i < n == |before|
      requires ringNum == IntersectCount(before[..i]) + 1
      requires ArrayedUpTo(doc.objects, before, i, bowlNumSegments)
      modifies doc
      ensures doc.Valid()
      ensures next == IntersectCount(before[..i + 1]) + 1
      ensures ArrayedUpTo(doc.objects, before, i + 1, bowlNumSegments)
    {
      ArrayStep(before, i, bowlNumSegments);
      assert doc.objects[i] == before[i] by {
        assert doc.objects[i..n][0] == before[i..][0];
      }
      ghost var prev := doc.objects;
      next := ringNum;
      if IsIntersect(doc.objects[i]) {
        RelabelAndCopy(doc, n, i, ringNum);
        PrefixStep(prev, doc.objects, n, i, RelabelledAll(before), before, RelabelledAll(before)[i]);
        next := ringNum + 1;
      } else {
        PrefixStep(prev, doc.objects, n, i, RelabelledAll(before), before, prev[i]);
      }
    }

    /** One Intersect object: relabelled, then copied N-1 times. */
    method RelabelAndCopy(doc: Document, n: nat, i: nat, ringNum: int)
      requires doc.Valid() && i < n <= |doc.objects|
      modifies doc
      ensures doc.Valid()
      ensures |doc.objects| == |old(doc.objects)| + |RingCopies(old(doc.objects)[i], ringNum, bowlNumSegments)|
      ensures doc.objects[..n] == old(doc.objects)[..n][i := old(doc.objects)[i].(labelText := RingLabel(ringNum, "001"))]
      ensures Unnamed(doc.objects[n..]) == Unnamed(old(doc.objects)[n..]) +
        RingCopies(old(doc.objects)[i].(labelText := RingLabel(ringNum, "001")), ringNum, bowlNumSegments)
    {
      var src := doc.objects[i].(labelText := RingLabel(ringNum, "001"));
      doc.SetObject(i, src);
      ghost var first := doc.objects;
      CopyRing(doc, i, ringNum, bowlNumSegments);
      assert doc.objects[..n] == first[..n];
      assert doc.objects[n..] == first[n..] + doc.objects[|first|..];
      UnnamedConcat(first[n..], doc.objects[|first|..]);
    }

    /** `bt_array_segments_click`: reads the panel, then arrays the rings; a field that
        does not parse stops it before anything is arrayed. */
    method BtArraySegmentsClick(doc: Document, inp: SegmentInputs) returns (r: Result<()>)
      requires doc.Valid() && CallerIn(PanelWithVarset(varset), doc.objects)
      modifies this`bowlNumSegments, this`fudge, this`wallThickness, this`rotationPerRing, this`solidBottom, doc
      ensures doc.Valid()
      ensures Fields() == FieldsUpdated(old(Fields()), inp)
      ensures !UpdateSucceeds(inp) ==> r.Err? && doc.objects == UpdateWrites(PanelWithVarset(varset), old(doc.objects), inp)
      ensures UpdateSucceeds(inp) ==>
        var written := UpdateWrites(PanelWithVarset(varset), old(doc.objects), inp);
        r.Ok? && bowlNumSegments == ParseInt(inp.numSegments).value &&
        |doc.objects| == |written| + |AllRingCopies(written, bowlNumSegments)| &&
        doc.objects[..|written|] == RelabelledAll(written) &&
        Unnamed(doc.objects[|written|..]) == AllRingCopies(written, bowlNumSegments)
    {
      var ok := UpdateValues(doc, inp);
      if !ok {
        return Err("invalid input");
      }
      ArrayRings(doc);
      r := Ok(());
    }

    /** `bt_rotate_rings_click`: reads the panel, then turns ring k (0-based, in sorted
        order) by rotation_per_ring · (k · rotation_per_ring): the starting angle grows
        by rotation_per_ring per ring and is multiplied by it once more. */
    method BtRotateRingsClick(doc: Document, inp: SegmentInputs) returns (r: Result<()>)
      requires doc.Valid() && CallerIn(PanelWithVarset(varset), doc.objects)
      modifies this`bowlNumSegments, this`fudge, this`wallThickness, this`rotationPerRing, this`solidBottom, doc
      ensures doc.Valid()
      ensures Fields() == FieldsUpdated(old(Fields()), inp)
      ensures !UpdateSucceeds(inp) ==> r.Err? && doc.objects == UpdateWrites(PanelWithVarset(varset), old(doc.objects), inp)
      ensures UpdateSucceeds(inp) ==>
        var written := UpdateWrites(PanelWithVarset(varset), old(doc.objects), inp);
        r.Ok? && rotationPerRing == ParseReal(inp.rotation).value &&
        doc.objects == Staggered(written, RingGroups(written), Squared(rotationPerRing))
    {
      var ok := UpdateValues(doc, inp);
      if !ok {
        return Err("invalid input");
      }
      StaggerRings(doc, rotationPerRing);
      r := Ok(());
    }

    /** The checks `bt_add_bowl_solid_click` makes before it builds anything: the panel
        is read, the segment Name list is reset, the profile sketch must exist and hold at
        least two points; the points, sorted by height, become the spline's poles. */
    method BowlSolidPoles(doc: Document, inp: SegmentInputs) returns (r: Result<seq<Vec3>>)
      requires doc.Valid() && CallerIn(PanelWithVarset(varset), doc.objects)
      modifies this`bowlNumSegments, this`fudge, this`wallThickness, this`rotationPerRing, this`solidBottom
      modifies this`listOfSegmentNames, doc
      ensures doc.Valid()
      ensures Fields() == FieldsUpdated(old(Fields()), inp)
      ensures doc.objects == UpdateWrites(PanelWithVarset(varset), old(doc.objects), inp)
      ensures !UpdateSucceeds(inp) ==> r.Err? && listOfSegmentNames == old(listOfSegmentNames)
      ensures UpdateSucceeds(inp) ==>
        match SketchPoints(old(doc.objects))
        case None => r == Err("Missing Sketch") && listOfSegmentNames == old(listOfSegmentNames)
        case Some(pts) =>
          listOfSegmentNames == [] &&
          (|pts| == 0 ==> r == Err("No point geometries")) &&
          (|pts| == 1 ==> r == Err("Need at least 2 points")) &&
          (|pts| >= 2 ==> r == Ok(pts))
    {
      ghost var before := doc.objects;
      var ok := UpdateValues(doc, inp);
      if !ok {
        return Err("invalid input");
      }
      SketchPointsOnlyProperties(doc.objects, before);
      r := ProfilePoles(doc);
    }

    /** The checks on the profile sketch in `bt_add_bowl_solid_click` */
    method ProfilePoles(doc: Document) returns (r: Result<seq<Vec3>>)
      modifies this`listOfSegmentNames
      ensures match SketchPoints(doc.objects)
        case None => r == Err("Missing Sketch") && listOfSegmentNames == old(listOfSegmentNames)
        case Some(pts) =>
          listOfSegmentNames == [] &&
          (|pts| == 0 ==> r == Err("No point geometries")) &&
          (|pts| == 1 ==> r == Err("Need at least 2 points")) &&
          (|pts| >= 2 ==> r == Ok(pts))
    {
      var s := FindByLabel(doc.objects, ProfileSketchLabel);
      if s.None? {
        return Err("Missing Sketch");
      }
      listOfSegmentNames := [];
      var poles := CollectProfilePoints(doc.objects[s.value].geometry);
      if |poles| == 0 {
        return Err("No point geometries");
      }
      if |poles| < 2 {
        return Err("Need at least 2 points");
      }
      r := Ok(poles);
    }
  }
}
