/** The host document as the workbench sees it: an ordered list of objects, each with an
    internal Name (unique, fixed at creation), a user-visible Label, a type, a placement,
    visibility, sketch geometry and constraints, a shape, dynamic properties and, for
    image planes, a size. */
module Doc {
  import opened Wrappers
  import opened Geometry
  import opened Text

  /** A property value. Length and angle properties are quantities, whose `.Value`
      is the bare number. */
  datatype Value = IntValue(i: int) | FloatValue(r: real) | Quantity(q: real) | TextValue(s: string)
                | BoolValue(b: bool) | VectorValue(v: Vec3)

  /** What an object's `Shape` holds: nothing, a face extruded along z, or a shape the
      geometry kernel computed (revolution, boolean result, clone, ...). */
  datatype Shape = NoShape | Extrusion(outline: seq<Vec3>, height: real) | KernelShape

  datatype DocObject = DocObject(
    name: string,
    labelText: string,
    typeId: string,
    placement: Placement,
    visible: bool,
    geometry: seq<Geo>,
    constraints: seq<Constraint>,
    shape: Shape,
    properties: map<string, Value>,
    xSize: real,
    ySize: real)

  const SketchType := "Sketcher::SketchObject"
  const ImagePlaneType := "Image::ImagePlane"
  const VarSetType := "App::VarSet"
  const RevolutionType := "Part::Revolution"

  /** A freshly added object: its Label starts out equal to its Name. */
  function NewObject(typeId: string, name: string): (o: DocObject)
    ensures o.name == name && o.labelText == name && o.typeId == typeId
    ensures o.placement == IdentityPlacement && o.geometry == [] && o.constraints == []
  {
    DocObject(name, name, typeId, IdentityPlacement, true, [], [], NoShape, map[], 0.0, 0.0)
  }

  function Names(objs: seq<DocObject>): (r: seq<string>)
    ensures |r| == |objs|
    ensures forall i :: 0 <= i < |objs| ==> r[i] == objs[i].name
  {
    seq(|objs|, i requires 0 <= i < |objs| => objs[i].name)
  }

  ghost predicate UniqueNames(objs: seq<DocObject>) {
    forall i, j :: 0 <= i < j < |objs| ==> objs[i].name != objs[j].name
  }

  /** The indices of the first n objects that `keep` accepts, in document order */
  function MatchingUpTo(objs: seq<DocObject>, keep: DocObject -> bool, n: nat): (r: seq<nat>)
    requires n <= |objs|
    ensures forall k :: 0 <= k < |r| ==> r[k] < n && keep(objs[r[k]])
    ensures forall i :: 0 <= i < n && keep(objs[i]) ==> i in r
    ensures forall a, b :: 0 <= a < b < |r| ==> r[a] < r[b]
  {
    if n == 0 then []
    else if keep(objs[n - 1]) then MatchingUpTo(objs, keep, n - 1) + [n - 1]
    else MatchingUpTo(objs, keep, n - 1)
  }

  /** The `for obj in doc.Objects: if ...: new_selection.append(obj)` loop */
  method CollectMatching(objs: seq<DocObject>, keep: DocObject -> bool) returns (r: seq<nat>)
    ensures r == MatchingUpTo(objs, keep, |objs|)
  {
    r := [];
    var i := 0;
    while i < |objs|
      invariant 0 <= i <= |objs|
      invariant r == MatchingUpTo(objs, keep, i)
    {
      if keep(objs[i]) {
        r := r + [i];
      }
      i := i + 1;
    }
  }

  /** `doc.getObject(name)`: the index of the object with that Name */
  function FindByName(objs: seq<DocObject>, name: string): (r: Option<nat>)
    ensures r.Some? ==> r.value < |objs| && objs[r.value].name == name
  {
    if objs == [] then None
    else if objs[0].name == name then Some(0)
    else match FindByName(objs[1..], name)
      case Some(k) => Some(k + 1)
      case None => None
  }

  /** A Name the lookup does not find is not among the Names. */
  lemma NameAbsent(objs: seq<DocObject>, name: string)
    requires FindByName(objs, name).None?
    ensures name !in Names(objs)
  {
    FindByNameSpec(objs, name);
  }

  /** The lookup finds the first object holding the Name, and None exactly when no
      object holds it. */
  lemma {:induction false} FindByNameSpec(objs: seq<DocObject>, name: string)
    ensures var r := FindByName(objs, name);
            (r.None? <==> forall i :: 0 <= i < |objs| ==> objs[i].name != name) &&
            (r.Some? ==> forall i :: 0 <= i < r.value ==> objs[i].name != name)
  {
    if objs != [] && objs[0].name != name {
      FindByNameSpec(objs[1..], name);
      var r := FindByName(objs, name);
      forall i | 0 < i < |objs| ensures objs[i].name == objs[1..][i - 1].name { }
    }
  }

  /** `doc.getObjectsByLabel(wanted)[0]`: the first object with that Label */
  function FindByLabel(objs: seq<DocObject>, wanted: string): (r: Option<nat>)
    ensures r.Some? ==> r.value < |objs| && objs[r.value].labelText == wanted
    ensures r.None? <==> forall i :: 0 <= i < |objs| ==> objs[i].labelText != wanted
    ensures r.Some? ==> forall i :: 0 <= i < r.value ==> objs[i].labelText != wanted
  {
    if objs == [] then None
    else if objs[0].labelText == wanted then Some(0)
    else match FindByLabel(objs[1..], wanted)
      case Some(k) => Some(k + 1)
      case None => None
  }

  lemma FindByNameSameNames(a: seq<DocObject>, b: seq<DocObject>, name: string)
    requires Names(a) == Names(b)
    ensures FindByName(a, name) == FindByName(b, name)
    decreases |a|
  {
    if a != [] {
      assert Names(a[1..]) == Names(b[1..]) by {
        assert Names(a[1..]) == Names(a)[1..];
        assert Names(b[1..]) == Names(b)[1..];
      }
      FindByNameSameNames(a[1..], b[1..], name);
    }
  }

  function Labels(objs: seq<DocObject>): (r: seq<string>)
    ensures |r| == |objs|
    ensures forall i :: 0 <= i < |objs| ==> r[i] == objs[i].labelText
  {
    seq(|objs|, i requires 0 <= i < |objs| => objs[i].labelText)
  }

  lemma FindByLabelSameLabels(a: seq<DocObject>, b: seq<DocObject>, wanted: string)
    requires Labels(a) == Labels(b)
    ensures FindByLabel(a, wanted) == FindByLabel(b, wanted)
    decreases |a|
  {
    if a != [] {
      assert Labels(a[1..]) == Labels(b[1..]) by {
        assert Labels(a[1..]) == Labels(a)[1..];
        assert Labels(b[1..]) == Labels(b)[1..];
      }
      FindByLabelSameLabels(a[1..], b[1..], wanted);
    }
  }

  function MaxLength(names: seq<string>): (m: nat)
    ensures forall i :: 0 <= i < |names| ==> |names[i]| <= m
  {
    if names == [] then 0
    else var rest := MaxLength(names[1..]);
      if |names[0]| > rest then |names[0]| else rest
  }

  /** The Name the document gives a new object asked to be called `base`: `base` itself
      when no object has it yet, otherwise `base` followed by digits, long enough to
      differ from every existing Name. */
  function FreshName(base: string, names: seq<string>): (r: string)
    ensures r !in names
    ensures StartsWith(r, base)
    ensures base !in names ==> r == base
  {
    if base !in names then base
    else
      var r := base + ZeroPad("1", MaxLength(names) + 1);
      assert r[..|base|] == base;
      r
  }

  /** The object with `Rotation(Vector(0,0,1), degrees)` composed before its rotation,
      its base kept */
  function TurnedAboutZ(o: DocObject, degrees: real): (t: DocObject)
    ensures t.placement.base == o.placement.base
    ensures t.placement.rotation.xTilt == o.placement.rotation.xTilt
    ensures t.placement.rotation.zAngle == o.placement.rotation.zAngle + degrees
    ensures t.(placement := o.placement) == o
  {
    o.(placement := Placement(o.placement.base, ComposeZ(degrees, o.placement.rotation)))
  }

  class Document {
    var objects: seq<DocObject>

    ghost predicate Valid()
      reads this
    {
      UniqueNames(objects)
    }

    constructor ()
      ensures objects == [] && Valid()
    {
      objects := [];
    }

    /** `doc.addObject(typeId, name)`: appends a new object under a fresh Name and
        returns its index. */
    method AddObject(typeId: string, name: string) returns (i: nat)
      requires Valid()
      modifies this
      ensures Valid()
      ensures i == |old(objects)|
      ensures objects == old(objects) + [NewObject(typeId, FreshName(name, Names(old(objects))))]
    {
      var newName := FreshName(name, Names(objects));
      i := |objects|;
      objects := objects + [NewObject(typeId, newName)];
      forall j | 0 <= j < i ensures objects[j].name != newName {
        assert objects[j].name == Names(objects[..i])[j];
      }
    }

    /** `doc.copyObject(obj)`: appends a duplicate of object i under a fresh Name and
        returns the copy's index. */
    method CopyObject(i: nat) returns (j: nat)
      requires i < |objects|
      requires Valid()
      modifies this
      ensures Valid()
      ensures j == |old(objects)|
      ensures objects == old(objects) + [old(objects)[i].(name := FreshName(old(objects)[i].name, Names(old(objects))))]
    {
      var newName := FreshName(objects[i].name, Names(objects));
      j := |objects|;
      objects := objects + [objects[i].(name := newName)];
      forall k | 0 <= k < j ensures objects[k].name != newName {
        assert objects[k].name == Names(objects[..j])[k];
      }
    }

    /** Changes the object at index i (placement, label, geometry, ...) except its Name. */
    method SetObject(i: nat, o: DocObject)
      requires i < |objects| && o.name == objects[i].name
      requires Valid()
      modifies this
      ensures Valid()
      ensures objects == old(objects)[i := o]
    {
      objects := objects[i := o];
    }

    /** Moves object i to the end of the object order, everything else keeping its
        relative order. */
    method MoveToEnd(i: nat)
      requires i < |objects|
      requires Valid()
      modifies this
      ensures Valid()
      ensures objects == old(objects)[..i] + old(objects)[i + 1..] + [old(objects)[i]]
    {
      MovedToEndUnique(objects, i);
      objects := objects[..i] + objects[i + 1..] + [objects[i]];
    }

    /** `doc.removeObject(name)` */
    method RemoveObject(i: nat)
      requires i < |objects|
      requires Valid()
      modifies this
      ensures Valid()
      ensures objects == old(objects)[..i] + old(objects)[i + 1..]
    {
      objects := objects[..i] + objects[i + 1..];
    }
  }

  /** Moving one object to the end keeps the Names unique. */
  lemma MovedToEndUnique(objs: seq<DocObject>, i: nat)
    requires i < |objs| && UniqueNames(objs)
    ensures UniqueNames(objs[..i] + objs[i + 1..] + [objs[i]])
  {
    var r := objs[..i] + objs[i + 1..] + [objs[i]];
    assert |r| == |objs|;
    forall p | 0 <= p < |r| - 1
      ensures r[p] == objs[if p < i then p else p + 1]
    {
      if p < i {
        assert r[p] == objs[..i][p];
      } else {
        assert r[p] == objs[i + 1..][p - i];
      }
    }
    forall p, q | 0 <= p < q < |r|
      ensures r[p].name != r[q].name
    {
      var fp := if p < i then p else p + 1;
      assert r[p] == objs[fp];
      if q < |r| - 1 {
        var fq := if q < i then q else q + 1;
        assert r[q] == objs[fq] && fp < fq;
      } else {
        assert r[q] == objs[i] && fp != i;
      }
    }
  }

  /** An object looked up by Name right after a new object was asked for under that
      Name finds the object that held it before, not the new one, which got a fresh
      Name. */
  lemma LookupAfterAddFindsOld(before: seq<DocObject>, name: string, added: DocObject)
    requires name in Names(before) && added.name == FreshName(name, Names(before))
    ensures var found := FindByName(before + [added], name);
            found.Some? && found == FindByName(before, name) && found.value < |before|
  {
    FindByNameSpec(before, name);
    var j :| 0 <= j < |before| && Names(before)[j] == name;
    assert before[j].name == name;
    FindByNameAppend(before, [added], name);
  }

  /** A Name found among some objects is found at the same index after more are appended. */
  lemma {:induction false} FindByNameAppend(a: seq<DocObject>, b: seq<DocObject>, name: string)
    requires FindByName(a, name).Some?
    ensures FindByName(a + b, name) == FindByName(a, name)
  {
    if a[0].name != name {
      assert (a + b)[1..] == a[1..] + b;
      FindByNameAppend(a[1..], b, name);
    }
  }

  /** Where `getObject(name)` or else `addObject("Sketcher::SketchObject", name)` leaves
      the sketch: at the existing index, or at the end when there was none; None when an
      object of another type holds the Name. */
  function SketchSlot(objs: seq<DocObject>, name: string): (r: Option<nat>)
    ensures r.Some? ==> r.value <= |objs|
  {
    match FindByName(objs, name)
    case None => Some(|objs|)
    case Some(i) => if objs[i].typeId == SketchType then Some(i) else None
  }

  /** The objects once the sketch is there */
  function WithSketch(objs: seq<DocObject>, name: string): seq<DocObject> {
    if FindByName(objs, name).None? then objs + [NewObject(SketchType, name)] else objs
  }

  /** The slot holds a sketch of that Name, and the objects before it are kept. */
  lemma SketchSlotHoldsSketch(objs: seq<DocObject>, name: string)
    requires SketchSlot(objs, name).Some?
    ensures var i := SketchSlot(objs, name).value;
            var w := WithSketch(objs, name);
            i < |w| && w[i].name == name && w[i].typeId == SketchType &&
            w[..|objs|] == objs && |w| <= |objs| + 1 &&
            FindByName(w, name) == Some(i)
  {
    var w := WithSketch(objs, name);
    if FindByName(objs, name).None? {
      FindByNameSpec(objs, name);
      FindByNameSpec(w, name);
      assert w[..|objs|] == objs;
      forall k | 0 <= k < |objs| ensures w[k].name != name {
        assert w[k] == objs[k];
      }
      assert w[|objs|].name == name;
      var f := FindByName(w, name);
      assert f.Some? && f.value >= |objs|;
    }
  }

  /** The get-or-add step shared by the sketch-making panels */
  method GetOrAddSketch(doc: Document, name: string) returns (r: Option<nat>)
    requires doc.Valid()
    modifies doc
    ensures doc.Valid()
    ensures r == SketchSlot(old(doc.objects), name)
    ensures doc.objects == if r.Some? then WithSketch(old(doc.objects), name) else old(doc.objects)
  {
    var found := FindByName(doc.objects, name);
    if found.None? {
      NameAbsent(doc.objects, name);
      var i := doc.AddObject(SketchType, name);
      return Some(i);
    } else if doc.objects[found.value].typeId != SketchType {
      return None;
    }
    return found;
  }

  /** `while len(sketch.Geometry) > 0: sketch.delGeometry(len(sketch.Geometry) - 1)` */
  method ClearGeometry(doc: Document, i: nat)
    requires doc.Valid() && i < |doc.objects|
    modifies doc
    ensures doc.Valid()
    ensures doc.objects == old(doc.objects)[i := old(doc.objects)[i].(geometry := [])]
  {
    ghost var o := doc.objects[i];
    assert o.(geometry := o.geometry[..|o.geometry|]) == o;
    while |doc.objects[i].geometry| > 0
      invariant doc.Valid() && |doc.objects| == |old(doc.objects)|
      invariant |doc.objects[i].geometry| <= |o.geometry|
      invariant doc.objects == old(doc.objects)[i := o.(geometry := o.geometry[..|doc.objects[i].geometry|])]
      decreases |doc.objects[i].geometry|
    {
      var g := doc.objects[i].geometry;
      assert g[..|g| - 1] == o.geometry[..|g| - 1];
      doc.SetObject(i, doc.objects[i].(geometry := g[..|g| - 1]));
    }
  }
}
