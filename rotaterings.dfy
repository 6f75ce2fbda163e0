/** The ring-rotation panel: staggers the rings by a fixed angle per ring, turns the
    ring of the selected object, and resets every ring object to the angle its copy
    number gives it. */
module RotateRings {
  import opened Wrappers
  import opened Geometry
  import opened Text
  import opened Doc
  import opened Rings

  /** The direction radio buttons (one of them is always checked) */
  datatype Direction = Left | Right

  /** The percent radio buttons (one of them is always checked) */
  datatype Percent = Quarter | Third | Half

  function DirectionMultiplier(d: Direction): (m: real)
    ensures m == 1.0 || m == -1.0
  {
    match d
    case Left => -1.0
    case Right => 1.0
  }

  function Fraction(p: Percent): (f: real)
    ensures 0.0 < f < 1.0
  {
    match p
    case Quarter => 0.25
    case Third => 0.33
    case Half => 0.50
  }

  /** The panel's controls */
  datatype RotateInputs = RotateInputs(
    numSegmentsText: string,
    usePercent: bool,
    percent: Percent,
    direction: Direction,
    angleText: string)

  /** `get_rotation_angle`: a fraction of one segment's angle 360/N, or the typed angle
      (0 when it does not parse), signed by the direction; zero segments divide by zero
      in percent mode. */
  function RotationAngle(numSegments: int, inp: RotateInputs): (r: Result<real>)
    ensures r.Err? <==> inp.usePercent && numSegments == 0
  {
    if inp.usePercent then
      if numSegments == 0 then Err("division by zero")
      else Ok((360.0 / numSegments as real) * Fraction(inp.percent) * DirectionMultiplier(inp.direction))
    else
      match ParseReal(inp.angleText)
      case Some(a) => Ok(a * DirectionMultiplier(inp.direction))
      case None => Ok(0.0)
  }

  /** Left turns by exactly the opposite of Right. */
  lemma LeftIsOppositeOfRight(numSegments: int, inp: RotateInputs)
    requires RotationAngle(numSegments, inp).Ok?
    ensures RotationAngle(numSegments, inp.(direction := Left)).value ==
            -RotationAngle(numSegments, inp.(direction := Right)).value
  {
  }

  /** In percent mode N turns add up to the chosen fraction of a full turn, in the chosen
      direction; to the right the angle is positive for a positive segment count. */
  lemma PercentOfASegment(numSegments: int, inp: RotateInputs)
    requires inp.usePercent && numSegments != 0
    ensures RotationAngle(numSegments, inp).value * numSegments as real ==
            360.0 * Fraction(inp.percent) * DirectionMultiplier(inp.direction)
    ensures numSegments > 0 && inp.direction == Right ==> RotationAngle(numSegments, inp).value > 0.0
  {
    var n := numSegments as real;
    var s := 360.0 / n;
    assert s * n == 360.0;
    var f := Fraction(inp.percent);
    var d := DirectionMultiplier(inp.direction);
    assert s * f * d * n == s * n * f * d;
    if numSegments > 0 && inp.direction == Right {
      assert s > 0.0;
      assert s * f > 0.0;
    }
  }

  /** In manual mode the typed angle is used as it is, to the right, and a text that is not
      a number gives no rotation. */
  lemma ManualAngle(numSegments: int, inp: RotateInputs)
    requires !inp.usePercent
    ensures ParseReal(inp.angleText).None? ==> RotationAngle(numSegments, inp) == Ok(0.0)
    ensures ParseReal(inp.angleText).Some? && inp.direction == Right ==>
      RotationAngle(numSegments, inp) == Ok(ParseReal(inp.angleText).value)
  {
  }

  // ---------------------------------------------------------------------------
  // Reset

  const RingPrefix := "Ring"

  /** The objects `reset_rotation` sets: Labels starting with "Ring" whose last three
      characters read as an integer */
  predicate Resettable(o: DocObject) {
    StartsWith(o.labelText, RingPrefix) && ParseInt(Suffix(o.labelText, 3)).Some?
  }

  /** The z angle of copy number `index`: (index - 1) segment angles */
  function CopyAngle(index: int, numSegments: int): real
    requires numSegments != 0
  {
    (index - 1) as real * (360.0 / numSegments as real)
  }

  /** A resettable object gets a pure z rotation by its copy angle, its base kept; any
      other object is left alone. */
  function ResetObject(o: DocObject, numSegments: int): (r: DocObject)
    requires numSegments != 0 || !Resettable(o)
    ensures r.(placement := o.placement) == o
    ensures r.placement.base == o.placement.base
    ensures Resettable(o) ==>
      r.placement.rotation == AboutZ(CopyAngle(ParseInt(Suffix(o.labelText, 3)).value, numSegments))
    ensures !Resettable(o) ==> r == o
  {
    if Resettable(o) then
      o.(placement := Placement(o.placement.base, AboutZ(CopyAngle(ParseInt(Suffix(o.labelText, 3)).value, numSegments))))
    else o
  }

  predicate CanReset(objs: seq<DocObject>, numSegments: int) {
    numSegments != 0 || forall i :: 0 <= i < |objs| ==> !Resettable(objs[i])
  }

  function ResetAll(objs: seq<DocObject>, numSegments: int): (r: seq<DocObject>)
    requires CanReset(objs, numSegments)
    ensures |r| == |objs| && Names(r) == Names(objs)
    ensures forall i :: 0 <= i < |objs| ==> r[i] == ResetObject(objs[i], numSegments)
  {
    seq(|objs|, i requires 0 <= i < |objs| => ResetObject(objs[i], numSegments))
  }

  /** Resetting twice is resetting once: the rotation is replaced, not composed. */
  lemma ResetIdempotent(objs: seq<DocObject>, numSegments: int)
    requires CanReset(objs, numSegments)
    ensures CanReset(ResetAll(objs, numSegments), numSegments)
    ensures ResetAll(ResetAll(objs, numSegments), numSegments) == ResetAll(objs, numSegments)
  {
    var once := ResetAll(objs, numSegments);
    forall i | 0 <= i < |objs| ensures once[i].labelText == objs[i].labelText {
      assert once[i].(placement := objs[i].placement) == objs[i];
    }
  }

  /** A reset forgets every earlier turn of the objects it sets: whatever their rotation
      was, they end up the same. */
  lemma ResetForgetsRotation(o: DocObject, rot: Rotation, numSegments: int)
    requires numSegments != 0 && Resettable(o)
    ensures ResetObject(o.(placement := Placement(o.placement.base, rot)), numSegments) == ResetObject(o, numSegments)
  {
  }

  /** So a reset after any stagger gives what a reset alone gives, on every object it sets. */
  lemma ResetUndoesStagger(objs: seq<DocObject>, rings: seq<string>, step: real, numSegments: int)
    requires numSegments != 0
    ensures forall i :: 0 <= i < |objs| && Resettable(objs[i]) ==>
      ResetAll(Staggered(objs, rings, step), numSegments)[i] == ResetAll(objs, numSegments)[i]
  {
    var st := Staggered(objs, rings, step);
    forall i | 0 <= i < |objs| && Resettable(objs[i])
      ensures ResetAll(st, numSegments)[i] == ResetAll(objs, numSegments)[i]
    {
      assert st[i] == objs[i].(placement := Placement(objs[i].placement.base, st[i].placement.rotation));
      ResetForgetsRotation(objs[i], st[i].placement.rotation, numSegments);
    }
  }

  /** An array copy (a `Ring...` Label ending in `002`) is reset to a turn of one
      segment angle, its base kept. */
  lemma ResetOfSecondCopy(o: DocObject, numSegments: int)
    requires numSegments != 0 && StartsWith(o.labelText, RingPrefix) && EndsWith(o.labelText, "002")
    ensures ResetObject(o, numSegments).placement == Placement(o.placement.base, AboutZ(360.0 / numSegments as real))
  {
    assert Suffix(o.labelText, 3) == "002";
    FormatParseRoundTrip(2);
    assert Format03(2) == "002" by {
      assert NatToString(2) == [DigitChar(2)] == "2";
      assert "0" + "2" == "02";
      assert "0" + "02" == "002";
      assert ZeroPad("2", 3) == ZeroPad("02", 3) == ZeroPad("002", 3) == "002";
    }
  }
  /** The host makes Labels unique, so copy i of a ring, arrayed at i segment angles,
      may carry the suffix of i + 1 instead of `002`; under such a Label the reset puts
      it back at the angle it was arrayed at. */
  lemma ResetOfRenumberedCopy(o: DocObject, i: nat, numSegments: int)
    requires numSegments != 0 && i + 1 < 1000
    requires StartsWith(o.labelText, RingPrefix) && EndsWith(o.labelText, Format03(i + 1))
    ensures ResetObject(o, numSegments).placement ==
            Placement(o.placement.base, AboutZ(i as real * (360.0 / numSegments as real)))
  {
    Format03Width(i + 1);
    assert Suffix(o.labelText, 3) == Format03(i + 1);
    FormatParseRoundTrip(i + 1);
  }


  // ---------------------------------------------------------------------------
  // The panel

  class RotateRingsPanel {
    var numSegments: int
    var rotationPerRing: real

    /** The segment count starts out as the var-set's NumSegments and the rotation per
        ring as 15 degrees. */
    constructor (numSegments0: int)
      ensures numSegments == numSegments0 && rotationPerRing == 15.0
    {
      numSegments := numSegments0;
      rotationPerRing := 15.0;
    }

    /** `update_values`: the segment count from its text field (which must parse), then
        the rotation per ring from `get_rotation_angle`. */
    method UpdateValues(inp: RotateInputs) returns (ok: bool)
      modifies this
      ensures ok <==> ParseInt(inp.numSegmentsText).Some? && RotationAngle(ParseInt(inp.numSegmentsText).value, inp).Ok?
      ensures numSegments == ParseInt(inp.numSegmentsText).GetOr(old(numSegments))
      ensures rotationPerRing == if ok then RotationAngle(numSegments, inp).value else old(rotationPerRing)
    {
      var n := ParseInt(inp.numSegmentsText);
      if n.None? {
        return false;
      }
      numSegments := n.value;
      var a := RotationAngle(numSegments, inp);
      if a.Err? {
        return false;
      }
      rotationPerRing := a.value;
      ok := true;
    }

    /** `bt_rotate_rings_click`: ring k (0-based, in sorted order) is turned by
        k · rotation_per_ring. */
    method BtRotateRingsClick(doc: Document, inp: RotateInputs) returns (ok: bool)
      requires doc.Valid()
      modifies this, doc
      ensures doc.Valid()
      ensures ok <==> UpdateSucceeds(inp)
      ensures numSegments == ParseInt(inp.numSegmentsText).GetOr(old(numSegments))
      ensures rotationPerRing == if UpdateSucceeds(inp) then RotationAngle(numSegments, inp).value else old(rotationPerRing)
      ensures !ok ==> doc.objects == old(doc.objects)
      ensures ok ==> doc.objects == Staggered(old(doc.objects), RingGroups(old(doc.objects)), rotationPerRing)
    {
      ok := UpdateValues(inp);
      if !ok {
        return;
      }
      StaggerByRing(doc, rotationPerRing);
    }

    /** `bt_rotate_selected_ring_click`: every object whose Label starts with the first
        eight characters of the first selected object's Label is turned by
        rotation_per_ring. */
    method BtRotateSelectedRingClick(doc: Document, inp: RotateInputs, selection: seq<DocObject>) returns (r: Result<()>)
      requires doc.Valid()
      modifies this, doc
      ensures doc.Valid()
      ensures r.Err? ==> doc.objects == old(doc.objects)
      ensures numSegments == ParseInt(inp.numSegmentsText).GetOr(old(numSegments))
      ensures rotationPerRing == if UpdateSucceeds(inp) then RotationAngle(numSegments, inp).value else old(rotationPerRing)
      ensures r.Ok? <==> UpdateSucceeds(inp) && selection != [] && |selection[0].labelText| >= 8
      ensures r.Ok? ==> doc.objects == TurnGroup(old(doc.objects), selection[0].labelText[..8], rotationPerRing)
    {
      var ok := UpdateValues(inp);
      if !ok {
        return Err("invalid input");
      }
      if selection == [] {
        return Err("No ring selected. Please select a ring object.");
      }
      var selectedLabel := selection[0].labelText;
      if |selectedLabel| < 8 {
        return Err("Selected object label is invalid.");
      }
      TurnObjectsWithPrefix(doc, selectedLabel[..8], rotationPerRing);
      r := Ok(());
    }

    /** `reset_rotation`: every resettable object gets the rotation of its copy number.
        With zero segments the first resettable object raises a division by zero, before
        anything has changed. */
    method ResetRotation(doc: Document, inp: RotateInputs) returns (r: Result<()>)
      requires doc.Valid()
      modifies this, doc
      ensures doc.Valid()
      ensures r.Err? ==> doc.objects == old(doc.objects)
      ensures numSegments == ParseInt(inp.numSegmentsText).GetOr(old(numSegments))
      ensures rotationPerRing == if UpdateSucceeds(inp) then RotationAngle(numSegments, inp).value else old(rotationPerRing)
      ensures r.Ok? <==> UpdateSucceeds(inp) && CanReset(old(doc.objects), numSegments)
      ensures r.Ok? ==> doc.objects == ResetAll(old(doc.objects), numSegments)
    {
      var ok := UpdateValues(inp);
      if !ok {
        return Err("invalid input");
      }
      var done := ResetEach(doc, numSegments);
      if !done {
        return Err("division by zero");
      }
      r := Ok(());
    }
  }

  /** The loop of `reset_rotation` over all objects; false when it stops at the first
      resettable object for a division by zero, with nothing changed. */
  method ResetEach(doc: Document, numSegments: int) returns (ok: bool)
    requires doc.Valid()
    modifies doc
    ensures doc.Valid()
    ensures ok <==> CanReset(old(doc.objects), numSegments)
    ensures ok ==> doc.objects == ResetAll(old(doc.objects), numSegments)
    ensures !ok ==> doc.objects == old(doc.objects)
  {
    ghost var before := doc.objects;
    var i := 0;
    while i < |doc.objects|
      invariant 0 <= i <= |doc.objects| == |before|
      invariant doc.Valid()
      invariant numSegments == 0 ==> doc.objects == before
      invariant forall k :: 0 <= k < i ==> numSegments != 0 || !Resettable(before[k])
      invariant forall k :: 0 <= k < i ==> doc.objects[k] == ResetObject(before[k], numSegments)
      invariant forall k :: i <= k < |before| ==> doc.objects[k] == before[k]
    {
      ok := ResetOne(doc, i, numSegments);
      if !ok {
        return false;
      }
      i := i + 1;
    }
    ok := true;
  }

  /** One pass of that loop: object i set to its copy rotation when resettable; false,
      with nothing changed, when that needs a division by zero segments. */
  method ResetOne(doc: Document, i: nat, numSegments: int) returns (ok: bool)
    requires doc.Valid() && i < |doc.objects|
    modifies doc
    ensures doc.Valid()
    ensures ok <==> numSegments != 0 || !Resettable(old(doc.objects)[i])
    ensures ok ==> doc.objects == old(doc.objects)[i := ResetObject(old(doc.objects)[i], numSegments)]
    ensures !ok ==> doc.objects == old(doc.objects)
  {
    var o := doc.objects[i];
    if StartsWith(o.labelText, RingPrefix) {
      var index := ParseInt(Suffix(o.labelText, 3));
      if index.Some? {
        if numSegments == 0 {
          return false;
        }
        var angle := (index.value - 1) as real * (360.0 / numSegments as real);
        doc.SetObject(i, o.(placement := Placement(o.placement.base, AboutZ(angle))));
        return true;
      }
    }
    assert doc.objects[i := o] == doc.objects;
    ok := true;
  }

  /** `update_values` runs to the end */
  predicate UpdateSucceeds(inp: RotateInputs) {
    ParseInt(inp.numSegmentsText).Some? && RotationAngle(ParseInt(inp.numSegmentsText).value, inp).Ok?
  }

  /** The ring loop of `bt_rotate_rings_click`, for a rotation per ring of r */
  method StaggerByRing(doc: Document, r: real)
    requires doc.Valid()
    modifies doc
    ensures doc.Valid()
    ensures doc.objects == Staggered(old(doc.objects), RingGroups(old(doc.objects)), r)
  {
    var rings := CollectRingGroups(doc.objects);
    ghost var base := doc.objects;
    StaggeredByNothing(base, r);
    var ringNum := 0;
    while ringNum < |rings|
      invariant 0 <= ringNum <= |rings|
      invariant doc.Valid()
      invariant doc.objects == Staggered(base, rings[..ringNum], r)
    {
      TurnObjectsWithPrefix(doc, rings[ringNum], r * ringNum as real);
      TurnGroupSameAngle(Staggered(base, rings[..ringNum], r), rings[ringNum], r * ringNum as real, ringNum as real * r);
      StaggerOneMore(base, rings, ringNum, r);
      ringNum := ringNum + 1;
    }
    assert rings[..|rings|] == rings;
  }
}
