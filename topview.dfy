/** The top-view panel: the Segment objects of a bowl, turned into their places round the
    axis, laid out flat in a grid for a plan drawing, and put back where they were from a
    snapshot of their placements. */
module TopView {
  import opened Wrappers
  import opened Geometry
  import opened Text
  import opened Sorting
  import opened Doc
  import opened Rings

  const SegmentPrefix := "Segment"
  const NoSegments := "No segment objects found."
  const NoDocument := "No active document found."
  const NoSnapshot := "No saved segment locations found."
  const BadSegmentCount := "unsupported operand for 360 / NumSegments"

  /** The number of columns of the plan grid */
  const PlanColumns := 4

  predicate IsSegment(o: DocObject) {
    StartsWith(o.labelText, SegmentPrefix)
  }

  function SegmentTest(): DocObject -> bool {
    (o: DocObject) => IsSegment(o)
  }

  predicate InRange(idx: seq<nat>, objs: seq<DocObject>) {
    forall k :: 0 <= k < |idx| ==> idx[k] < |objs|
  }

  // ---------------------------------------------------------------------------
  // `_get_segment_objects`

  function LabelAt(objs: seq<DocObject>, i: nat): string {
    if i < |objs| then objs[i].labelText else ""
  }

  /** Object indices compared by their Labels */
  function ByLabel(objs: seq<DocObject>): (nat, nat) -> bool {
    (a: nat, b: nat) => StrLe(LabelAt(objs, a), LabelAt(objs, b))
  }

  lemma ByLabelIsTotalPreorder(objs: seq<DocObject>)
    ensures TotalPreorder(ByLabel(objs))
  {
    forall a: nat, b: nat ensures ByLabel(objs)(a, b) || ByLabel(objs)(b, a) {
      StrLeTotal(LabelAt(objs, a), LabelAt(objs, b));
    }
    forall a: nat, b: nat, c: nat | ByLabel(objs)(a, b) && ByLabel(objs)(b, c)
      ensures ByLabel(objs)(a, c)
    {
      StrLeTrans(LabelAt(objs, a), LabelAt(objs, b), LabelAt(objs, c));
    }
  }

  /** The Segment objects, sorted by Label; none without a document */
  function SegmentObjects(objs: seq<DocObject>, hasDoc: bool): seq<nat> {
    if !hasDoc then [] else Sort<nat>(MatchingUpTo(objs, SegmentTest(), |objs|), ByLabel(objs))
  }

  lemma IncreasingNoDuplicates(s: seq<nat>)
    requires forall a, b :: 0 <= a < b < |s| ==> s[a] < s[b]
    ensures NoDuplicates(s)
  {
  }

  /** The segment objects are exactly the objects whose Label starts with "Segment",
      each once, in Label order. */
  lemma SegmentObjectsSpec(objs: seq<DocObject>, hasDoc: bool)
    ensures var segs := SegmentObjects(objs, hasDoc);
            InRange(segs, objs) && NoDuplicates(segs) &&
            (!hasDoc ==> segs == []) &&
            (hasDoc ==> (forall i :: i in segs <==> 0 <= i < |objs| && IsSegment(objs[i])) &&
                        SortedBy(segs, ByLabel(objs)))
  {
    if hasDoc {
      var m := MatchingUpTo(objs, SegmentTest(), |objs|);
      var segs := Sort<nat>(m, ByLabel(objs));
      ByLabelIsTotalPreorder(objs);
      SortCorrect<nat>(m, ByLabel(objs));
      SortMembers<nat>(m, ByLabel(objs));
      IncreasingNoDuplicates(m);
      SortNoDuplicates<nat>(m, ByLabel(objs));
      forall i ensures i in segs <==> 0 <= i < |objs| && IsSegment(objs[i]) {
        assert i in segs <==> i in m;
        if i in m {
          var k :| 0 <= k < |m| && m[k] == i;
          assert SegmentTest()(objs[m[k]]);
        }
        if 0 <= i < |objs| && IsSegment(objs[i]) {
          assert SegmentTest()(objs[i]);
        }
      }
      forall k | 0 <= k < |segs| ensures segs[k] < |objs| {
        assert segs[k] in m;
      }
    }
  }

  /** `_get_segment_objects`: the filtering loop, then the sort by Label */
  method GetSegmentObjects(objs: seq<DocObject>, hasDoc: bool) returns (segs: seq<nat>)
    ensures segs == SegmentObjects(objs, hasDoc)
  {
    if !hasDoc {
      return [];
    }
    var found := CollectMatching(objs, SegmentTest());
    segs := Sort<nat>(found, ByLabel(objs));
  }

  // ---------------------------------------------------------------------------
  // The placement snapshot

  type Snapshot = seq<(string, Placement)>

  function NamesOf(objs: seq<DocObject>, segs: seq<nat>): (r: seq<string>)
    requires InRange(segs, objs)
    ensures |r| == |segs| && forall k :: 0 <= k < |segs| ==> r[k] == objs[segs[k]].name
  {
    seq(|segs|, k requires 0 <= k < |segs| => objs[segs[k]].name)
  }

  function SnapshotOf(objs: seq<DocObject>, segs: seq<nat>): (r: Snapshot)
    requires InRange(segs, objs)
    ensures |r| == |segs| && forall k :: 0 <= k < |segs| ==> r[k] == (objs[segs[k]].name, objs[segs[k]].placement)
  {
    seq(|segs|, k requires 0 <= k < |segs| => (objs[segs[k]].name, objs[segs[k]].placement))
  }

  function SavedNames(saved: Snapshot): (r: seq<string>)
    ensures |r| == |saved| && forall k :: 0 <= k < |saved| ==> r[k] == saved[k].0
  {
    seq(|saved|, k requires 0 <= k < |saved| => saved[k].0)
  }

  /** The snapshot after a rotate or array click: taken afresh when there was none or it
      names other objects than the current segments, kept otherwise. Either way it then
      names exactly the current segments, in order. */
  function UpdatedSnapshot(saved: Snapshot, objs: seq<DocObject>, segs: seq<nat>): (r: Snapshot)
    requires InRange(segs, objs)
    ensures SavedNames(r) == NamesOf(objs, segs)
    ensures r == saved || r == SnapshotOf(objs, segs)
    ensures r != saved ==> saved == [] || SavedNames(saved) != NamesOf(objs, segs)
  {
    if saved == [] || SavedNames(saved) != NamesOf(objs, segs) then
      var taken := SnapshotOf(objs, segs);
      assert SavedNames(taken) == NamesOf(objs, segs);
      taken
    else saved
  }

  // ---------------------------------------------------------------------------
  // Rotating the segments into place

  /** `360 / num_segments` for the value read from the var-set when the panel opened */
  function RotationStep(v: Option<Value>): (r: Result<real>)
    ensures r.Ok? <==> v.Some? && ((v.value.IntValue? && v.value.i != 0) || (v.value.FloatValue? && v.value.r != 0.0))
    ensures r.Ok? && v.value.IntValue? ==> r.value * v.value.i as real == 360.0
    ensures r.Ok? && v.value.FloatValue? ==> r.value * v.value.r == 360.0
  {
    match v
    case Some(IntValue(n)) => if n == 0 then Err("division by zero") else Ok(360.0 / n as real)
    case Some(FloatValue(x)) => if x == 0.0 then Err("float division by zero") else Ok(360.0 / x)
    case _ => Err(BadSegmentCount)
  }

  /** Every Segment object shown and every other object hidden */
  function ShowOnlySegments(objs: seq<DocObject>): (r: seq<DocObject>)
    ensures |r| == |objs|
    ensures forall i :: 0 <= i < |objs| ==> r[i].visible == IsSegment(objs[i])
    ensures forall i :: 0 <= i < |objs| ==> r[i].(visible := objs[i].visible) == objs[i]
  {
    seq(|objs|, i requires 0 <= i < |objs| => objs[i].(visible := IsSegment(objs[i])))
  }

  function LabelsOf(objs: seq<DocObject>, idx: seq<nat>): (r: seq<string>)
    requires InRange(idx, objs)
    ensures |r| == |idx| && forall k :: 0 <= k < |idx| ==> r[k] == objs[idx[k]].labelText
  {
    seq(|idx|, k requires 0 <= k < |idx| => objs[idx[k]].labelText)
  }

  /** `segment_list`: the Segment Labels, in document order before sorting */
  function SegmentLabels(objs: seq<DocObject>): seq<string> {
    LabelsOf(objs, MatchingUpTo(objs, SegmentTest(), |objs|))
  }

  /** The Segment Labels among the first n objects */
  function SegmentLabelsUpTo(objs: seq<DocObject>, n: nat): seq<string>
    requires n <= |objs|
  {
    LabelsOf(objs, MatchingUpTo(objs, SegmentTest(), n))
  }

  lemma SegmentLabelsStep(objs: seq<DocObject>, n: nat)
    requires n < |objs|
    ensures SegmentLabelsUpTo(objs, n + 1) ==
              SegmentLabelsUpTo(objs, n) + (if IsSegment(objs[n]) then [objs[n].labelText] else [])
  {
    var m := MatchingUpTo(objs, SegmentTest(), n);
    if IsSegment(objs[n]) {
      assert SegmentTest()(objs[n]);
      assert LabelsOf(objs, m + [n]) == LabelsOf(objs, m) + [objs[n].labelText];
    } else {
      assert !SegmentTest()(objs[n]);
    }
  }

  function SortedSegmentLabels(objs: seq<DocObject>): seq<string> {
    Sort(SegmentLabels(objs), StrOrder())
  }

  /** The sorted labels are Segment Labels of the document, and each of them is found. */
  lemma SortedSegmentLabelsSpec(objs: seq<DocObject>)
    ensures SortedBy(SortedSegmentLabels(objs), StrOrder())
    ensures forall l :: l in SortedSegmentLabels(objs) <==> exists i :: 0 <= i < |objs| && IsSegment(objs[i]) && objs[i].labelText == l
  {
    var m := MatchingUpTo(objs, SegmentTest(), |objs|);
    StrOrderIsTotalPreorder();
    SortCorrect(SegmentLabels(objs), StrOrder());
    SortMembers(SegmentLabels(objs), StrOrder());
    forall l ensures l in SegmentLabels(objs) <==> exists i :: 0 <= i < |objs| && IsSegment(objs[i]) && objs[i].labelText == l {
      if l in SegmentLabels(objs) {
        var k :| 0 <= k < |m| && SegmentLabels(objs)[k] == l;
        assert IsSegment(objs[m[k]]);
      }
      if exists i :: 0 <= i < |objs| && IsSegment(objs[i]) && objs[i].labelText == l {
        var i :| 0 <= i < |objs| && IsSegment(objs[i]) && objs[i].labelText == l;
        assert SegmentTest()(objs[i]);
        var k :| 0 <= k < |m| && m[k] == i;
        assert SegmentLabels(objs)[k] == l;
      }
    }
  }

  /** The k-th turn of the rotate loop, as k steps added up */
  function TurnAngle(step: real, k: nat): real {
    if k == 0 then 0.0 else TurnAngle(step, k - 1) + step
  }

  /** The k-th turn is `rotation_angle * count` with count = k. */
  lemma {:induction false} TurnAngleIsProduct(step: real, k: nat)
    ensures TurnAngle(step, k) == step * k as real
  {
    if k > 0 {
      TurnAngleIsProduct(step, k - 1);
      assert step * k as real == step * (k - 1) as real + step;
    }
  }

  /** The turns of the rotate loop for the first n labels: the first object carrying the
      k-th label is turned by k · step on top of what it already has. */
  function RotateByLabels(objs: seq<DocObject>, labels: seq<string>, step: real, n: nat): (r: seq<DocObject>)
    requires n <= |labels|
    ensures |r| == |objs|
  {
    if n == 0 then objs
    else
      var prev := RotateByLabels(objs, labels, step, n - 1);
      match FindByLabel(prev, labels[n - 1])
      case None => prev
      case Some(i) =>
        prev[i := TurnedAboutZ(prev[i], TurnAngle(step, n - 1))]
  }

  /** The rotate loop keeps every Label and every Name. */
  lemma {:induction false} RotateByLabelsKeepsNames(objs: seq<DocObject>, labels: seq<string>, step: real, n: nat)
    requires n <= |labels|
    ensures var r := RotateByLabels(objs, labels, step, n);
            Labels(r) == Labels(objs) && Names(r) == Names(objs)
  {
    if n > 0 {
      RotateByLabelsKeepsNames(objs, labels, step, n - 1);
      var prev := RotateByLabels(objs, labels, step, n - 1);
      match FindByLabel(prev, labels[n - 1])
      case None =>
      case Some(i) =>
        var r := prev[i := TurnedAboutZ(prev[i], TurnAngle(step, n - 1))];
        assert Labels(r) == Labels(prev) && Names(r) == Names(prev);
    }
  }

  /** The rotate loop changes nothing but placements, and only those of objects whose
      Label is among the labels turned so far. */
  lemma {:induction false} RotateByLabelsFrame(objs: seq<DocObject>, labels: seq<string>, step: real, n: nat, i: nat)
    requires n <= |labels| && i < |objs|
    ensures var r := RotateByLabels(objs, labels, step, n);
            r[i].(placement := objs[i].placement) == objs[i] &&
            (r[i].placement != objs[i].placement ==> objs[i].labelText in labels[..n])
  {
    if n > 0 {
      RotateByLabelsFrame(objs, labels, step, n - 1, i);
      RotateByLabelsStepAt(objs, labels, step, n, i);
      InPrefixSnoc(labels, n, objs[i].labelText);
      if FindByLabel(objs, labels[n - 1]) == Some(i) {
        FindByLabelFound(objs, labels[n - 1], i);
      }
    }
  }

  /** A lookup that finds i finds an object carrying that Label. */
  lemma FindByLabelFound(objs: seq<DocObject>, wanted: string, i: nat)
    requires FindByLabel(objs, wanted) == Some(i)
    ensures i < |objs| && objs[i].labelText == wanted
  {
  }

  /** One more turn of the rotate loop, seen from object i */
  lemma RotateByLabelsStepAt(objs: seq<DocObject>, labels: seq<string>, step: real, n: nat, i: nat)
    requires 0 < n <= |labels| && i < |objs|
    ensures var prev := RotateByLabels(objs, labels, step, n - 1)[i];
            RotateByLabels(objs, labels, step, n)[i] ==
              if FindByLabel(objs, labels[n - 1]) == Some(i) then TurnedAboutZ(prev, TurnAngle(step, n - 1)) else prev
  {
    RotateByLabelsStep(objs, labels, step, n);
  }

  /** Where the rotate loop leaves object i when the labels are all different */
  function TurnedByRank(objs: seq<DocObject>, labels: seq<string>, step: real, n: nat, i: nat): DocObject
    requires n <= |labels| && i < |objs|
  {
    var lab := objs[i].labelText;
    if lab in labels[..n] && FindByLabel(objs, lab) == Some(i) then
      assert lab in labels;
      TurnedAboutZ(objs[i], TurnAngle(step, IndexOf(labels, lab)))
    else objs[i]
  }

  lemma TurnedByRankFound(objs: seq<DocObject>, labels: seq<string>, step: real, n: nat, i: nat)
    requires n <= |labels| && i < |objs|
    requires objs[i].labelText in labels[..n] && FindByLabel(objs, objs[i].labelText) == Some(i)
    ensures objs[i].labelText in labels
    ensures TurnedByRank(objs, labels, step, n, i) == TurnedAboutZ(objs[i], TurnAngle(step, IndexOf(labels, objs[i].labelText)))
  {
  }

  lemma IndexOfBelow(labels: seq<string>, x: string, n: nat)
    requires n <= |labels| && x in labels[..n]
    ensures x in labels && IndexOf(labels, x) < n
  {
    var j :| 0 <= j < n && labels[..n][j] == x;
    assert labels[j] == x;
  }

  lemma IndexOfDistinct(labels: seq<string>, j: nat)
    requires j < |labels| && NoDuplicates(labels)
    ensures IndexOf(labels, labels[j]) == j
  {
  }

  /** One more turn of the rotate loop: the object the next label finds in the document
      turns, every other object stays. */
  lemma RotateByLabelsStep(objs: seq<DocObject>, labels: seq<string>, step: real, n: nat)
    requires 0 < n <= |labels|
    ensures var prev := RotateByLabels(objs, labels, step, n - 1);
            var f := FindByLabel(objs, labels[n - 1]);
            RotateByLabels(objs, labels, step, n) ==
              if f.None? then prev else prev[f.value := TurnedAboutZ(prev[f.value], TurnAngle(step, n - 1))]
  {
    var prev := RotateByLabels(objs, labels, step, n - 1);
    RotateByLabelsKeepsNames(objs, labels, step, n - 1);
    FindByLabelSameLabels(prev, objs, labels[n - 1]);
  }

  lemma {:induction false} RotateAtDistinct(objs: seq<DocObject>, labels: seq<string>, step: real, n: nat, i: nat)
    requires n <= |labels| && NoDuplicates(labels) && i < |objs|
    ensures RotateByLabels(objs, labels, step, n)[i] == TurnedByRank(objs, labels, step, n, i)
  {
    if n == 0 {
      assert labels[..0] == [];
    } else {
      RotateAtDistinct(objs, labels, step, n - 1, i);
      RotateByLabelsStepAt(objs, labels, step, n, i);
      TurnedByRankStep(objs, labels, step, n, i);
    }
  }

  /** One more label, seen from the closed form: the object it finds turns by its
      position, having not turned before; every other object is where it was. */
  lemma TurnedByRankStep(objs: seq<DocObject>, labels: seq<string>, step: real, n: nat, i: nat)
    requires 0 < n <= |labels| && NoDuplicates(labels) && i < |objs|
    ensures var f := FindByLabel(objs, labels[n - 1]) == Some(i);
            (f ==> TurnedByRank(objs, labels, step, n - 1, i) == objs[i] &&
                   TurnedByRank(objs, labels, step, n, i) == TurnedAboutZ(objs[i], TurnAngle(step, n - 1))) &&
            (!f ==> TurnedByRank(objs, labels, step, n, i) == TurnedByRank(objs, labels, step, n - 1, i))
  {
    var l := labels[n - 1];
    InPrefixSnoc(labels, n, objs[i].labelText);
    if FindByLabel(objs, l) == Some(i) {
      FindByLabelFound(objs, l, i);
      NotInEarlierPrefix(labels, n - 1);
      IndexOfDistinct(labels, n - 1);
      TurnedByRankFound(objs, labels, step, n, i);
    }
  }

  /** With no duplicates, no entry appears before its own position. */
  lemma NotInEarlierPrefix<T>(s: seq<T>, j: nat)
    requires j < |s| && NoDuplicates(s)
    ensures s[j] !in s[..j]
  {
    forall k | 0 <= k < j ensures s[..j][k] != s[j] {
      assert s[..j][k] == s[k];
    }
  }

  /** With the labels all different, the object a label finds is turned by that label's
      position times the step, and every other object keeps its placement. */
  lemma RotateByDistinctLabels(objs: seq<DocObject>, labels: seq<string>, step: real, n: nat)
    requires n <= |labels| && NoDuplicates(labels)
    ensures forall i :: 0 <= i < |objs| ==>
              RotateByLabels(objs, labels, step, n)[i] == TurnedByRank(objs, labels, step, n, i)
  {
    forall i | 0 <= i < |objs|
      ensures RotateByLabels(objs, labels, step, n)[i] == TurnedByRank(objs, labels, step, n, i)
    {
      RotateAtDistinct(objs, labels, step, n, i);
    }
  }

  /** When no two Segment objects share a Label, each Segment object turns by its Label's
      rank among the sorted Segment Labels times the step; no other object turns. */
  lemma RotateSegmentsSpec(objs: seq<DocObject>, step: real)
    requires forall i, j :: 0 <= i < j < |objs| && IsSegment(objs[i]) && IsSegment(objs[j]) ==>
               objs[i].labelText != objs[j].labelText
    ensures forall i :: 0 <= i < |objs| && IsSegment(objs[i]) ==> objs[i].labelText in SortedSegmentLabels(objs)
    ensures var shown := ShowOnlySegments(objs);
            var labels := SortedSegmentLabels(objs);
            var r := RotateByLabels(shown, labels, step, |labels|);
            forall i :: 0 <= i < |objs| ==>
              r[i] == if IsSegment(objs[i])
                      then TurnedAboutZ(shown[i], TurnAngle(step, IndexOf(labels, objs[i].labelText)))
                      else shown[i]
  {
    var shown := ShowOnlySegments(objs);
    var labels := SortedSegmentLabels(objs);
    SegmentLabelsDistinct(objs);
    SortedSegmentLabelsSpec(objs);
    RotateByDistinctLabels(shown, labels, step, |labels|);
    assert labels[..|labels|] == labels;
    assert Labels(shown) == Labels(objs);
    forall i | 0 <= i < |objs|
      ensures RotateByLabels(shown, labels, step, |labels|)[i] ==
                if IsSegment(objs[i])
                then TurnedAboutZ(shown[i], TurnAngle(step, IndexOf(labels, objs[i].labelText)))
                else shown[i]
    {
      var lab := objs[i].labelText;
      assert shown[i].labelText == lab;
      FindByLabelSameLabels(shown, objs, lab);
      if IsSegment(objs[i]) {
        var f := FindByLabel(objs, lab);
        assert f.Some?;
        assert IsSegment(objs[f.value]);
        assert f.value == i;
        TurnedByRankFound(shown, labels, step, |labels|, i);
      } else {
        assert lab !in labels;
      }
    }
  }

  /** Each sorted Segment Label finds an object once the visibility has been set. */
  lemma SortedSegmentLabelsFound(objs: seq<DocObject>)
    ensures forall k :: 0 <= k < |SortedSegmentLabels(objs)| ==>
              FindByLabel(ShowOnlySegments(objs), SortedSegmentLabels(objs)[k]).Some?
  {
    var labels := SortedSegmentLabels(objs);
    var shown := ShowOnlySegments(objs);
    SortedSegmentLabelsSpec(objs);
    forall k | 0 <= k < |labels| ensures FindByLabel(shown, labels[k]).Some? {
      assert labels[k] in labels;
      var i :| 0 <= i < |objs| && IsSegment(objs[i]) && objs[i].labelText == labels[k];
      assert shown[i].labelText == labels[k];
    }
  }

  /** The Segment Labels are all different when no two Segment objects share a Label. */
  lemma SegmentLabelsDistinct(objs: seq<DocObject>)
    requires forall i, j :: 0 <= i < j < |objs| && IsSegment(objs[i]) && IsSegment(objs[j]) ==>
               objs[i].labelText != objs[j].labelText
    ensures NoDuplicates(SortedSegmentLabels(objs))
  {
    var m := MatchingUpTo(objs, SegmentTest(), |objs|);
    assert NoDuplicates(SegmentLabels(objs)) by {
      forall a, b | 0 <= a < b < |m| ensures SegmentLabels(objs)[a] != SegmentLabels(objs)[b] {
        assert m[a] < m[b];
        assert SegmentTest()(objs[m[a]]) && SegmentTest()(objs[m[b]]);
      }
    }
    SortNoDuplicates(SegmentLabels(objs), StrOrder());
  }

  // ---------------------------------------------------------------------------
  // Laying the segments out for a plan drawing

  /** A shape's bounding-box extent in x and y */
  datatype BoxSize = BoxSize(xLength: real, yLength: real)

  function Max(a: real, b: real): real {
    if a >= b then a else b
  }

  /** `max` folded over the values, from 0 */
  function MaxFrom0(vs: seq<real>): (m: real)
    ensures m >= 0.0
    ensures forall k :: 0 <= k < |vs| ==> vs[k] <= m
    ensures m == 0.0 || exists k :: 0 <= k < |vs| && vs[k] == m
  {
    if vs == [] then 0.0 else Max(MaxFrom0(vs[..|vs| - 1]), vs[|vs| - 1])
  }

  /** The bounding-box extents of the segments that have a shape */
  function Extents(objs: seq<DocObject>, segs: seq<nat>, box: DocObject -> Option<BoxSize>, useX: bool): (r: seq<real>)
    requires InRange(segs, objs)
    ensures |r| <= |segs|
    decreases |segs|
  {
    if segs == [] then []
    else
      var init := segs[..|segs| - 1];
      var rest := Extents(objs, init, box, useX);
      match box(objs[segs[|segs| - 1]])
      case None => rest
      case Some(b) => rest + [if useX then b.xLength else b.yLength]
  }

  /** Where grid cell k of the plan sits */
  function PlanBase(k: nat, spacingX: real, spacingY: real): Vec3 {
    Vec3(spacingX * (k % PlanColumns) as real, spacingY * (k / PlanColumns) as real, 0.0)
  }

  /** The plan cells are all different when both spacings are positive. */
  lemma PlanCellsDistinct(j: nat, k: nat, spacingX: real, spacingY: real)
    requires spacingX > 0.0 && spacingY > 0.0 && j != k
    ensures PlanBase(j, spacingX, spacingY) != PlanBase(k, spacingX, spacingY)
  {
    if j % PlanColumns == k % PlanColumns {
      assert j / PlanColumns != k / PlanColumns;
      CancelPositive(spacingY, (j / PlanColumns) as real, (k / PlanColumns) as real);
    } else {
      CancelPositive(spacingX, (j % PlanColumns) as real, (k % PlanColumns) as real);
    }
  }

  lemma CancelPositive(s: real, a: real, b: real)
    requires s > 0.0 && a != b
    ensures s * a != s * b
  {
    if a < b {
      assert s * (b - a) > 0.0;
    } else {
      assert s * (a - b) > 0.0;
    }
  }

  /** Object o moved to grid cell k, its rotation kept, and shown */
  function InCell(o: DocObject, k: nat, spacingX: real, spacingY: real): DocObject {
    o.(placement := Placement(PlanBase(k, spacingX, spacingY), o.placement.rotation), visible := true)
  }

  /** The first n segments moved to their grid cells, rotation kept, and shown */
  function ArrangedUpTo(objs: seq<DocObject>, segs: seq<nat>, spacingX: real, spacingY: real, n: nat): (r: seq<DocObject>)
    requires InRange(segs, objs) && n <= |segs|
    ensures |r| == |objs| && Names(r) == Names(objs)
  {
    if n == 0 then objs
    else
      var prev := ArrangedUpTo(objs, segs, spacingX, spacingY, n - 1);
      var s := segs[n - 1];
      var r := prev[s := InCell(prev[s], n - 1, spacingX, spacingY)];
      assert Names(r) == Names(prev);
      r
  }

  /** Segment k of the list sits in grid cell k, with its own rotation, shown; every
      object not in the list is as it was. */
  lemma {:induction false} ArrangedSpec(objs: seq<DocObject>, segs: seq<nat>, spacingX: real, spacingY: real, n: nat)
    requires InRange(segs, objs) && NoDuplicates(segs) && n <= |segs|
    ensures var r := ArrangedUpTo(objs, segs, spacingX, spacingY, n);
            (forall k :: 0 <= k < n ==>
               r[segs[k]] == InCell(objs[segs[k]], k, spacingX, spacingY)) &&
            (forall i :: 0 <= i < |objs| && i !in segs[..n] ==> r[i] == objs[i])
  {
    if n > 0 {
      ArrangedSpec(objs, segs, spacingX, spacingY, n - 1);
      assert segs[..n] == segs[..n - 1] + [segs[n - 1]];
      assert segs[n - 1] !in segs[..n - 1];
      var r := ArrangedUpTo(objs, segs, spacingX, spacingY, n);
      var prev := ArrangedUpTo(objs, segs, spacingX, spacingY, n - 1);
      var last := segs[n - 1];
      assert prev[last] == objs[last];
      forall k | 0 <= k < n
        ensures r[segs[k]] == InCell(objs[segs[k]], k, spacingX, spacingY)
      {
        if k < n - 1 {
          assert segs[k] != last;
          assert r[segs[k]] == prev[segs[k]];
        }
      }
      forall i | 0 <= i < |objs| && i !in segs[..n]
        ensures r[i] == objs[i]
      {
        assert i != segs[n - 1] && i !in segs[..n - 1];
        assert r[i] == prev[i];
      }
    }
  }

  // ---------------------------------------------------------------------------
  // Restoring from the snapshot

  /** The first n saved placements put back on the objects that still carry their Names */
  function RestoredUpTo(objs: seq<DocObject>, saved: Snapshot, n: nat): (r: seq<DocObject>)
    requires n <= |saved|
    ensures |r| == |objs|
  {
    if n == 0 then objs
    else
      RestoreEntry(RestoredUpTo(objs, saved, n - 1), saved[n - 1].0, saved[n - 1].1)
  }

  /** One saved entry put back: the object holding the Name, if any, takes the placement */
  function RestoreEntry(objs: seq<DocObject>, name: string, p: Placement): (r: seq<DocObject>)
    ensures |r| == |objs|
  {
    match FindByName(objs, name)
    case None => objs
    case Some(i) => objs[i := objs[i].(placement := p)]
  }

  /** Restoring keeps every Name */
  lemma {:induction false} RestoredKeepsNames(objs: seq<DocObject>, saved: Snapshot, n: nat)
    requires n <= |saved|
    ensures Names(RestoredUpTo(objs, saved, n)) == Names(objs)
  {
    if n > 0 {
      RestoredKeepsNames(objs, saved, n - 1);
      var prev := RestoredUpTo(objs, saved, n - 1);
      match FindByName(prev, saved[n - 1].0)
      case None =>
      case Some(i) =>
        assert Names(prev[i := prev[i].(placement := saved[n - 1].1)]) == Names(prev);
    }
  }

  /** One more restored entry: the object that has its Name in the document takes the
      saved placement, every other object stays. */
  lemma RestoredStep(objs: seq<DocObject>, saved: Snapshot, n: nat)
    requires 0 < n <= |saved|
    ensures var prev := RestoredUpTo(objs, saved, n - 1);
            var f := FindByName(objs, saved[n - 1].0);
            RestoredUpTo(objs, saved, n) ==
              if f.None? then prev else prev[f.value := prev[f.value].(placement := saved[n - 1].1)]
  {
    RestoredKeepsNames(objs, saved, n - 1);
    FindByNameSameNames(RestoredUpTo(objs, saved, n - 1), objs, saved[n - 1].0);
  }

  /** Restoring changes nothing but placements. */
  lemma {:induction false} RestoredFrame(objs: seq<DocObject>, saved: Snapshot, n: nat, i: nat)
    requires n <= |saved| && i < |objs|
    ensures RestoredUpTo(objs, saved, n)[i].(placement := objs[i].placement) == objs[i]
  {
    if n > 0 {
      RestoredFrame(objs, saved, n - 1, i);
      RestoredStep(objs, saved, n);
    }
  }

  /** How many of the first n saved Names are still in the document */
  function PresentCount(objs: seq<DocObject>, saved: Snapshot, n: nat): (c: nat)
    requires n <= |saved|
    ensures c <= n
  {
    if n == 0 then 0
    else PresentCount(objs, saved, n - 1) + (if FindByName(objs, saved[n - 1].0).Some? then 1 else 0)
  }

  lemma InPrefixSnoc<T>(s: seq<T>, n: nat, x: T)
    requires 0 < n <= |s|
    ensures x in s[..n] <==> x in s[..n - 1] || x == s[n - 1]
  {
    assert s[..n] == s[..n - 1] + [s[n - 1]];
  }

  /** With unique Names, looking up an object's own Name finds that object. */
  lemma FindOwnName(objs: seq<DocObject>, s: nat)
    requires UniqueNames(objs) && s < |objs|
    ensures FindByName(objs, objs[s].name) == Some(s)
  {
    FindByNameSpec(objs, objs[s].name);
    var f := FindByName(objs, objs[s].name);
    assert f.Some?;
  }

  /** Step n of the restore at one index, when the saved Name is found at index s */
  lemma RestoredStepAt(objs: seq<DocObject>, saved: Snapshot, n: nat, s: nat, i: nat)
    requires 0 < n <= |saved| && i < |objs| && FindByName(objs, saved[n - 1].0) == Some(s)
    ensures var prev := RestoredUpTo(objs, saved, n - 1);
            RestoredUpTo(objs, saved, n)[i] == if i == s then prev[i].(placement := saved[n - 1].1) else prev[i]
  {
    RestoredKeepsNames(objs, saved, n - 1);
    FindByNameSameNames(RestoredUpTo(objs, saved, n - 1), objs, saved[n - 1].0);
  }

  lemma {:induction false} RestoreAt(objs: seq<DocObject>, changed: seq<DocObject>, segs: seq<nat>, n: nat, i: nat)
    requires InRange(segs, objs) && n <= |segs| && UniqueNames(objs)
    requires Names(changed) == Names(objs) && i < |objs|
    ensures RestoredUpTo(changed, SnapshotOf(objs, segs), n)[i] ==
              if i in segs[..n] then changed[i].(placement := objs[i].placement) else changed[i]
  {
    if n == 0 {
      assert segs[..0] == [];
    } else {
      RestoreAt(objs, changed, segs, n - 1, i);
      var snap := SnapshotOf(objs, segs);
      var s := segs[n - 1];
      assert snap[n - 1] == (objs[s].name, objs[s].placement);
      FindOwnName(objs, s);
      FindByNameSameNames(changed, objs, objs[s].name);
      RestoredStepAt(changed, snap, n, s, i);
      InPrefixSnoc(segs, n, i);
    }
  }

  /** Restoring a snapshot of some objects, after changes that keep every Name, gives the
      snapshot's objects their placements from the snapshot's time and changes nothing
      else. */
  lemma RestoreSnapshot(objs: seq<DocObject>, changed: seq<DocObject>, segs: seq<nat>)
    requires InRange(segs, objs) && UniqueNames(objs) && Names(changed) == Names(objs)
    ensures var r := RestoredUpTo(changed, SnapshotOf(objs, segs), |segs|);
            forall i :: 0 <= i < |objs| ==>
              r[i] == if i in segs then changed[i].(placement := objs[i].placement) else changed[i]
  {
    assert segs[..|segs|] == segs;
    forall i | 0 <= i < |objs|
      ensures RestoredUpTo(changed, SnapshotOf(objs, segs), |segs|)[i] ==
                if i in segs then changed[i].(placement := objs[i].placement) else changed[i]
    {
      RestoreAt(objs, changed, segs, |segs|, i);
    }
  }

  /** Restoring right after laying out for the plan, from a snapshot taken just before,
      puts every object back at its placement. */
  lemma RestoreUndoesPlan(objs: seq<DocObject>, spacingX: real, spacingY: real)
    requires UniqueNames(objs)
    ensures var segs := SegmentObjects(objs, true);
            InRange(segs, objs) &&
            var r := RestoredUpTo(ArrangedUpTo(objs, segs, spacingX, spacingY, |segs|), SnapshotOf(objs, segs), |segs|);
            forall i :: 0 <= i < |objs| ==> r[i].placement == objs[i].placement
  {
    var segs := SegmentObjects(objs, true);
    SegmentObjectsSpec(objs, true);
    assert segs[..|segs|] == segs;
    ArrangedSpec(objs, segs, spacingX, spacingY, |segs|);
    RestoreSnapshot(objs, ArrangedUpTo(objs, segs, spacingX, spacingY, |segs|), segs);
  }

  /** Restoring right after the rotate click, from a snapshot taken just before, puts
      every object back at its placement. */
  lemma RestoreUndoesRotate(objs: seq<DocObject>, step: real)
    requires UniqueNames(objs)
    ensures var segs := SegmentObjects(objs, true);
            var labels := SortedSegmentLabels(objs);
            InRange(segs, objs) &&
            var turned := RotateByLabels(ShowOnlySegments(objs), labels, step, |labels|);
            var r := RestoredUpTo(turned, SnapshotOf(objs, segs), |segs|);
            forall i :: 0 <= i < |objs| ==> r[i].placement == objs[i].placement
  {
    var segs := SegmentObjects(objs, true);
    var labels := SortedSegmentLabels(objs);
    var shown := ShowOnlySegments(objs);
    var turned := RotateByLabels(shown, labels, step, |labels|);
    SegmentObjectsSpec(objs, true);
    SortedSegmentLabelsSpec(objs);
    assert labels[..|labels|] == labels;
    forall i | 0 <= i < |objs| && i !in segs
      ensures turned[i].placement == objs[i].placement
    {
      assert !IsSegment(objs[i]);
      assert objs[i].labelText !in labels;
      RotateByLabelsFrame(shown, labels, step, |labels|, i);
    }
    assert Names(shown) == Names(objs);
    RotateByLabelsKeepsNames(shown, labels, step, |labels|);
    RestoreSnapshot(objs, turned, segs);
  }

  // ---------------------------------------------------------------------------
  // The panel

  class TopViewPanel {
    /** "NumSegments" as read from the var-set when the panel opened */
    var numSegments: Option<Value>
    var savedLocations: Snapshot

    constructor (numSegments0: Option<Value>)
      ensures numSegments == numSegments0 && savedLocations == []
    {
      numSegments := numSegments0;
      savedLocations := [];
    }

    /** The snapshot update shared by the rotate and array clicks */
    method SaveLocationsIfChanged(objs: seq<DocObject>, segs: seq<nat>)
      requires InRange(segs, objs)
      modifies this`savedLocations
      ensures savedLocations == UpdatedSnapshot(old(savedLocations), objs, segs)
    {
      var currentNames := NamesOf(objs, segs);
      var savedNames := SavedNames(savedLocations);
      if savedLocations == [] || savedNames != currentNames {
        savedLocations := SnapshotOf(objs, segs);
      }
    }

    /** `bt_rotate_segments`: with segments present, the snapshot is updated, Segment
        objects are shown and the rest hidden; then, when `360 / NumSegments` can be
        computed, the k-th sorted Segment Label's object turns by k times that. */
    method BtRotateSegments(doc: Document, hasDoc: bool) returns (r: Result<()>)
      requires doc.Valid()
      modifies this`savedLocations, doc
      ensures doc.Valid()
      ensures SegmentObjects(old(doc.objects), hasDoc) == [] ==>
                r == Err(NoSegments) && doc.objects == old(doc.objects) && savedLocations == old(savedLocations)
      ensures SegmentObjects(old(doc.objects), hasDoc) != [] ==>
                InRange(SegmentObjects(old(doc.objects), hasDoc), old(doc.objects)) &&
                savedLocations == UpdatedSnapshot(old(savedLocations), old(doc.objects), SegmentObjects(old(doc.objects), hasDoc)) &&
                (r.Ok? <==> RotationStep(numSegments).Ok?) &&
                (r.Err? ==> doc.objects == ShowOnlySegments(old(doc.objects))) &&
                (r.Ok? ==> doc.objects == RotateByLabels(ShowOnlySegments(old(doc.objects)), SortedSegmentLabels(old(doc.objects)),
                                                         RotationStep(numSegments).value, |SortedSegmentLabels(old(doc.objects))|))
    {
      var segs := GetSegmentObjects(doc.objects, hasDoc);
      if segs == [] {
        return Err(NoSegments);
      }
      SegmentObjectsSpec(doc.objects, hasDoc);
      SaveLocationsIfChanged(doc.objects, segs);
      SortedSegmentLabelsFound(doc.objects);
      var labels := ShowSegmentsOnly(doc);
      var step := RotationStep(numSegments);
      if step.Err? {
        return Err(step.message);
      }
      TurnByLabels(doc, labels, step.value);
      r := Ok(());
    }

    /** `bt_array_segments_for_plan`: with a document and segments present, the snapshot
        is updated and segment k (in Label order) moves to grid cell k of four columns,
        spaced by the largest bounding-box extents, keeping its rotation, and is shown. */
    method BtArraySegmentsForPlan(doc: Document, hasDoc: bool, box: DocObject -> Option<BoxSize>) returns (r: Result<()>)
      requires doc.Valid()
      modifies this`savedLocations, doc
      ensures doc.Valid()
      ensures !hasDoc ==> r == Err(NoDocument)
      ensures hasDoc && SegmentObjects(old(doc.objects), hasDoc) == [] ==> r == Err(NoSegments)
      ensures r.Err? ==> doc.objects == old(doc.objects) && savedLocations == old(savedLocations)
      ensures r.Ok? <==> hasDoc && SegmentObjects(old(doc.objects), hasDoc) != []
      ensures r.Ok? ==>
                var segs := SegmentObjects(old(doc.objects), hasDoc);
                InRange(segs, old(doc.objects)) &&
                savedLocations == UpdatedSnapshot(old(savedLocations), old(doc.objects), segs) &&
                doc.objects == ArrangedUpTo(old(doc.objects), segs,
                                            MaxFrom0(Extents(old(doc.objects), segs, box, true)),
                                            MaxFrom0(Extents(old(doc.objects), segs, box, false)), |segs|)
    {
      if !hasDoc {
        return Err(NoDocument);
      }
      var segs := GetSegmentObjects(doc.objects, hasDoc);
      if segs == [] {
        return Err(NoSegments);
      }
      SegmentObjectsSpec(doc.objects, hasDoc);
      SaveLocationsIfChanged(doc.objects, segs);
      var maxX, maxY := Spacings(doc.objects, segs, box);
      ArrangeInGrid(doc, segs, maxX, maxY);
      r := Ok(());
    }

    /** `bt_restore_segment_locations`: every saved Name still in the document gets its
        saved placement back; the result counts the restored and the missing ones. */
    method BtRestoreSegmentLocations(doc: Document, hasDoc: bool) returns (r: Result<(nat, nat)>)
      requires doc.Valid()
      modifies doc
      ensures doc.Valid()
      ensures !hasDoc ==> r == Err(NoDocument)
      ensures hasDoc && savedLocations == [] ==> r == Err(NoSnapshot)
      ensures r.Err? ==> doc.objects == old(doc.objects)
      ensures r.Ok? <==> hasDoc && savedLocations != []
      ensures r.Ok? ==>
                doc.objects == RestoredUpTo(old(doc.objects), savedLocations, |savedLocations|) &&
                r.value.0 == PresentCount(old(doc.objects), savedLocations, |savedLocations|) &&
                r.value.0 + r.value.1 == |savedLocations|
    {
      if !hasDoc {
        return Err(NoDocument);
      }
      if savedLocations == [] {
        return Err(NoSnapshot);
      }
      var restored, missing := RestoreAll(doc, savedLocations);
      r := Ok((restored, missing));
    }
  }

  /** The loop of `bt_restore_segment_locations` over the saved entries */
  method RestoreAll(doc: Document, saved: Snapshot) returns (restored: nat, missing: nat)
    requires doc.Valid()
    modifies doc
    ensures doc.Valid()
    ensures doc.objects == RestoredUpTo(old(doc.objects), saved, |saved|)
    ensures restored == PresentCount(old(doc.objects), saved, |saved|) && restored + missing == |saved|
  {
    ghost var before := doc.objects;
    restored, missing := 0, 0;
    var k := 0;
    while k < |saved|
      invariant 0 <= k <= |saved|
      invariant doc.Valid()
      invariant doc.objects == RestoredUpTo(before, saved, k)
      invariant restored == PresentCount(before, saved, k) && restored + missing == k
    {
      RestoreFindsOriginal(before, saved, k);
      var found := RestoreOne(doc, saved[k].0, saved[k].1);
      if found {
        restored := restored + 1;
      } else {
        missing := missing + 1;
      }
      k := k + 1;
    }
  }

  /** The object the restore loop looks up by Name at step k is there exactly when it
      is in the original document. */
  lemma RestoreFindsOriginal(objs: seq<DocObject>, saved: Snapshot, k: nat)
    requires k < |saved|
    ensures FindByName(RestoredUpTo(objs, saved, k), saved[k].0).Some? == FindByName(objs, saved[k].0).Some?
  {
    RestoredKeepsNames(objs, saved, k);
    FindByNameSameNames(RestoredUpTo(objs, saved, k), objs, saved[k].0);
  }

  /** One pass of the restore loop: the object holding the Name, if any, takes the placement. */
  method RestoreOne(doc: Document, objectName: string, savedPlacement: Placement) returns (found: bool)
    requires doc.Valid()
    modifies doc
    ensures doc.Valid()
    ensures found == FindByName(old(doc.objects), objectName).Some?
    ensures doc.objects == RestoreEntry(old(doc.objects), objectName, savedPlacement)
  {
    var f := FindByName(doc.objects, objectName);
    found := f.Some?;
    if found {
      var i := f.value;
      doc.SetObject(i, doc.objects[i].(placement := savedPlacement));
    }
  }

  /** The loop of `bt_rotate_segments` over all objects: Segment objects are shown and
      their Labels collected, every other object is hidden; the list is sorted on every
      pass, which leaves it the sorted Segment Labels. */
  method ShowSegmentsOnly(doc: Document) returns (labels: seq<string>)
    requires doc.Valid()
    modifies doc
    ensures doc.Valid()
    ensures doc.objects == ShowOnlySegments(old(doc.objects))
    ensures labels == SortedSegmentLabels(old(doc.objects))
  {
    ghost var before := doc.objects;
    StrOrderIsTotalPreorder();
    labels := [];
    var i := 0;
    while i < |doc.objects|
      invariant 0 <= i <= |doc.objects| == |before|
      invariant doc.Valid()
      invariant VisitedUpTo(doc.objects, before, i)
      invariant SortedBy(labels, StrOrder())
      invariant multiset(labels) == multiset(SegmentLabelsUpTo(before, i))
    {
      labels := VisitObject(doc, i, labels, before);
      i := i + 1;
    }
    VisitedAll(doc.objects, before);
    SortedLabelsAreSortedSegmentLabels(before, labels);
  }

  /** The objects before position i have been shown or hidden, the rest are untouched */
  ghost predicate VisitedUpTo(objs: seq<DocObject>, before: seq<DocObject>, i: nat) {
    |objs| == |before| && i <= |before| &&
    (forall k :: 0 <= k < i ==> objs[k] == before[k].(visible := IsSegment(before[k]))) &&
    (forall k :: i <= k < |before| ==> objs[k] == before[k])
  }

  lemma VisitedAll(objs: seq<DocObject>, before: seq<DocObject>)
    requires VisitedUpTo(objs, before, |before|)
    ensures objs == ShowOnlySegments(before)
  {
    var r := ShowOnlySegments(before);
    forall k | 0 <= k < |objs|
      ensures objs[k] == r[k]
    {
      assert objs[k] == before[k].(visible := IsSegment(before[k]));
    }
  }

  /** Any sorted arrangement of the Segment Labels is the sorted Segment Labels. */
  lemma SortedLabelsAreSortedSegmentLabels(objs: seq<DocObject>, labels: seq<string>)
    requires SortedBy(labels, StrOrder()) && multiset(labels) == multiset(SegmentLabelsUpTo(objs, |objs|))
    ensures labels == SortedSegmentLabels(objs)
  {
    StrOrderIsTotalPreorder();
    StrOrderIsAntisymmetric();
    SortCorrect(SegmentLabels(objs), StrOrder());
    SortedUnique(labels, SortedSegmentLabels(objs), StrOrder());
  }

  /** One pass of the loop over all objects: object i shown when it is a Segment (its
      Label then appended to the list) and hidden otherwise; then the list sorted */
  method VisitObject(doc: Document, i: nat, labels: seq<string>, ghost before: seq<DocObject>) returns (r: seq<string>)
    requires doc.Valid() && i < |before| && VisitedUpTo(doc.objects, before, i)
    requires multiset(labels) == multiset(SegmentLabelsUpTo(before, i))
    modifies doc
    ensures doc.Valid()
    ensures doc.objects == old(doc.objects)[i := before[i].(visible := IsSegment(before[i]))]
    ensures VisitedUpTo(doc.objects, before, i + 1)
    ensures SortedBy(r, StrOrder())
    ensures multiset(r) == multiset(SegmentLabelsUpTo(before, i + 1))
  {
    var o := doc.objects[i];
    assert o == before[i];
    SegmentLabelsStep(before, i);
    r := labels;
    if IsSegment(o) {
      doc.SetObject(i, o.(visible := true));
      r := r + [o.labelText];
    } else {
      doc.SetObject(i, o.(visible := false));
    }
    StrOrderIsTotalPreorder();
    SortCorrect(r, StrOrder());
    r := Sort(r, StrOrder());
  }

  /** The turning loop of `bt_rotate_segments` */
  method TurnByLabels(doc: Document, labels: seq<string>, step: real)
    requires doc.Valid()
    requires forall k :: 0 <= k < |labels| ==> FindByLabel(doc.objects, labels[k]).Some?
    modifies doc
    ensures doc.Valid()
    ensures doc.objects == RotateByLabels(old(doc.objects), labels, step, |labels|)
  {
    ghost var before := doc.objects;
    var count := 0;
    while count < |labels|
      invariant 0 <= count <= |labels|
      invariant doc.Valid()
      invariant doc.objects == RotateByLabels(before, labels, step, count)
    {
      var lbl := labels[count];
      RotateByLabelsKeepsNames(before, labels, step, count);
      FindByLabelSameLabels(doc.objects, before, lbl);
      RotateByLabelsStep(before, labels, step, count + 1);
      var i := FindByLabel(doc.objects, lbl).value;
      var angle := step * count as real;
      TurnAngleIsProduct(step, count);
      doc.SetObject(i, TurnedAboutZ(doc.objects[i], angle));
      count := count + 1;
    }
  }

  /** The bounding-box loop of `bt_array_segments_for_plan` */
  method Spacings(objs: seq<DocObject>, segs: seq<nat>, box: DocObject -> Option<BoxSize>) returns (maxX: real, maxY: real)
    requires InRange(segs, objs)
    ensures maxX == MaxFrom0(Extents(objs, segs, box, true))
    ensures maxY == MaxFrom0(Extents(objs, segs, box, false))
  {
    maxX, maxY := 0.0, 0.0;
    var k := 0;
    while k < |segs|
      invariant 0 <= k <= |segs|
      invariant maxX == MaxFrom0(Extents(objs, segs[..k], box, true))
      invariant maxY == MaxFrom0(Extents(objs, segs[..k], box, false))
    {
      assert segs[..k + 1][..k] == segs[..k];
      var b := box(objs[segs[k]]);
      if b.Some? {
        maxX := Max(maxX, b.value.xLength);
        maxY := Max(maxY, b.value.yLength);
      }
      k := k + 1;
    }
    assert segs[..k] == segs;
  }

  /** The placement loop of `bt_array_segments_for_plan` */
  method ArrangeInGrid(doc: Document, segs: seq<nat>, spacingX: real, spacingY: real)
    requires doc.Valid() && InRange(segs, doc.objects)
    modifies doc
    ensures doc.Valid()
    ensures doc.objects == ArrangedUpTo(old(doc.objects), segs, spacingX, spacingY, |segs|)
  {
    ghost var before := doc.objects;
    var index := 0;
    while index < |segs|
      invariant 0 <= index <= |segs|
      invariant doc.Valid() && |doc.objects| == |before|
      invariant doc.objects == ArrangedUpTo(before, segs, spacingX, spacingY, index)
    {
      var s := segs[index];
      var o := doc.objects[s];
      var target := Vec3(spacingX * (index % PlanColumns) as real, spacingY * (index / PlanColumns) as real, 0.0);
      doc.SetObject(s, o.(placement := Placement(target, o.placement.rotation), visible := true));
      index := index + 1;
    }
  }
}
