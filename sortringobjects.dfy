/** The "sort ring objects" macro: the objects whose Label starts with "Ring" are
    sorted by their Name and moved, one after the other, to the end of the document's
    object order, so that they end up last and in Name order. */
module SortRingObjects {
  import opened Wrappers
  import opened Text
  import opened Doc
  import opened Sorting

  const RingPrefix := "Ring"
  const NoDocument := "No active document found."

  predicate IsRingObject(o: DocObject) {
    StartsWith(o.labelText, RingPrefix)
  }

  /** The ring objects among the first n objects, in document order */
  function RingObjectsUpTo(objs: seq<DocObject>, n: nat): (r: seq<DocObject>)
    requires n <= |objs|
    ensures forall o :: o in r ==> o in objs[..n] && IsRingObject(o)
  {
    if n == 0 then []
    else
      assert objs[..n] == objs[..n - 1] + [objs[n - 1]];
      RingObjectsUpTo(objs, n - 1) + (if IsRingObject(objs[n - 1]) then [objs[n - 1]] else [])
  }

  function RingObjects(objs: seq<DocObject>): seq<DocObject> {
    RingObjectsUpTo(objs, |objs|)
  }

  /** The objects that are not ring objects, in document order */
  function OtherObjects(objs: seq<DocObject>): seq<DocObject> {
    if objs == [] then []
    else (if IsRingObject(objs[0]) then [] else [objs[0]]) + OtherObjects(objs[1..])
  }

  /** Every ring object is collected. */
  lemma {:induction false} RingObjectsComplete(objs: seq<DocObject>, n: nat, i: nat)
    requires i < n <= |objs| && IsRingObject(objs[i])
    ensures objs[i] in RingObjectsUpTo(objs, n)
  {
    if i < n - 1 {
      RingObjectsComplete(objs, n - 1, i);
    }
  }

  /** Collecting splits the objects into the ring objects and the others. */
  lemma {:induction false} SplitPermutation(objs: seq<DocObject>)
    ensures multiset(OtherObjects(objs)) + multiset(RingObjects(objs)) == multiset(objs)
  {
    if objs != [] {
      SplitPermutation(objs[1..]);
      RingObjectsFront(objs);
      assert objs == [objs[0]] + objs[1..];
    }
  }

  /** The ring objects of a sequence are those of its first element followed by
      those of the rest. */
  lemma RingObjectsFront(objs: seq<DocObject>)
    requires objs != []
    ensures RingObjects(objs) ==
            (if IsRingObject(objs[0]) then [objs[0]] else []) + RingObjects(objs[1..])
  {
    FrontUpTo(objs, |objs|);
  }

  lemma {:induction false} FrontUpTo(objs: seq<DocObject>, n: nat)
    requires 0 < n <= |objs|
    ensures RingObjectsUpTo(objs, n) ==
            (if IsRingObject(objs[0]) then [objs[0]] else []) + RingObjectsUpTo(objs[1..], n - 1)
  {
    if n > 1 {
      FrontUpTo(objs, n - 1);
      assert objs[1..][n - 2] == objs[n - 1];
    }
  }

  /** Without ring objects the others are all the objects. */
  lemma {:induction false} NoRingsNoOthersChange(objs: seq<DocObject>)
    requires RingObjects(objs) == []
    ensures OtherObjects(objs) == objs
  {
    if objs != [] {
      RingObjectsFront(objs);
      NoRingsNoOthersChange(objs[1..]);
    }
  }

  /** The loop that collects the ring objects */
  method CollectRingObjects(objs: seq<DocObject>) returns (r: seq<DocObject>)
    ensures r == RingObjects(objs)
  {
    r := [];
    var i := 0;
    while i < |objs|
      invariant 0 <= i <= |objs|
      invariant r == RingObjectsUpTo(objs, i)
    {
      if IsRingObject(objs[i]) {
        r := r + [objs[i]];
      }
      i := i + 1;
    }
  }

  /** `key=lambda x: x.Name` */
  function ByName(): (DocObject, DocObject) -> bool {
    (a: DocObject, b: DocObject) => StrLe(a.name, b.name)
  }

  lemma ByNameIsTotalPreorder()
    ensures TotalPreorder(ByName())
  {
    forall a: DocObject, b: DocObject ensures ByName()(a, b) || ByName()(b, a) {
      StrLeTotal(a.name, b.name);
    }
    forall a: DocObject, b: DocObject, c: DocObject | ByName()(a, b) && ByName()(b, c)
      ensures ByName()(a, c)
    {
      StrLeTrans(a.name, b.name, c.name);
    }
  }

  /** The objects whose Name is not among `names`, in order */
  function Without(objs: seq<DocObject>, names: seq<string>): seq<DocObject> {
    if objs == [] then []
    else (if objs[0].name in names then [] else [objs[0]]) + Without(objs[1..], names)
  }

  lemma {:induction false} WithoutMembers(objs: seq<DocObject>, names: seq<string>, o: DocObject)
    ensures o in Without(objs, names) <==> o in objs && o.name !in names
  {
    if objs != [] {
      WithoutMembers(objs[1..], names, o);
      assert objs == [objs[0]] + objs[1..];
    }
  }

  lemma {:induction false} WithoutAppend(a: seq<DocObject>, b: seq<DocObject>, names: seq<string>)
    ensures Without(a + b, names) == Without(a, names) + Without(b, names)
  {
    if a == [] {
      assert a + b == b;
    } else {
      assert (a + b)[1..] == a[1..] + b;
      WithoutAppend(a[1..], b, names);
    }
  }

  lemma {:induction false} WithoutNothing(objs: seq<DocObject>, names: seq<string>)
    requires forall j :: 0 <= j < |objs| ==> objs[j].name !in names
    ensures Without(objs, names) == objs
  {
    if objs != [] {
      assert forall j :: 0 <= j < |objs| - 1 ==> objs[1..][j] == objs[j + 1];
      WithoutNothing(objs[1..], names);
    }
  }

  lemma {:induction false} WithoutTwice(objs: seq<DocObject>, names: seq<string>, more: seq<string>)
    ensures Without(Without(objs, names), more) == Without(objs, names + more)
  {
    if objs != [] {
      var head := if objs[0].name in names then [] else [objs[0]];
      WithoutAppend(head, Without(objs[1..], names), more);
      WithoutTwice(objs[1..], names, more);
    }
  }

  /** Taking object i out of objects with unique Names is dropping its Name. */
  lemma RemoveAtIsWithout(objs: seq<DocObject>, i: nat)
    requires i < |objs| && UniqueNames(objs)
    ensures objs[..i] + objs[i + 1..] == Without(objs, [objs[i].name])
  {
    var front, back := objs[..i], objs[i + 1..];
    forall j | 0 <= j < |front| ensures front[j].name != objs[i].name {
      assert front[j] == objs[j];
    }
    forall j | 0 <= j < |back| ensures back[j].name != objs[i].name {
      assert back[j] == objs[i + 1 + j];
    }
    SplitAround(objs, i);
    RemoveOnly(front, objs[i], back);
  }

  lemma RemoveOnly(front: seq<DocObject>, x: DocObject, back: seq<DocObject>)
    requires forall j :: 0 <= j < |front| ==> front[j].name != x.name
    requires forall j :: 0 <= j < |back| ==> back[j].name != x.name
    ensures front + back == Without(front + ([x] + back), [x.name])
  {
    var n := [x.name];
    calc {
      Without(front + ([x] + back), n);
      { WithoutAppend(front, [x] + back, n); }
      Without(front, n) + Without([x] + back, n);
      { WithoutAppend([x], back, n); }
      Without(front, n) + (Without([x], n) + Without(back, n));
      { assert Without([x], n) == []; WithoutNothing(front, n); WithoutNothing(back, n); }
      front + ([] + back);
      { assert [] + back == back; }
      front + back;
    }
  }

  lemma SplitAround<T>(s: seq<T>, i: nat)
    requires i < |s|
    ensures s == s[..i] + ([s[i]] + s[i + 1..])
  {
    assert s[i..] == [s[i]] + s[i + 1..];
    assert s == s[..i] + s[i..];
  }

  /** Two objects of a document with unique Names that share a Name are one object. */
  lemma SameNameSame(objs: seq<DocObject>, a: DocObject, b: DocObject)
    requires UniqueNames(objs) && a in objs && b in objs && a.name == b.name
    ensures a == b
  {
    var i :| 0 <= i < |objs| && objs[i] == a;
    var j :| 0 <= j < |objs| && objs[j] == b;
    assert i == j;
  }

  /** What the ordering loop keeps: the objects not moved yet, in their old order,
      followed by the first k sorted ring objects. */
  ghost predicate MovedUpTo(objs: seq<DocObject>, before: seq<DocObject>, sorted: seq<DocObject>, k: nat)
    requires k <= |sorted|
  {
    objs == Without(before, Names(sorted[..k])) + sorted[..k]
  }

  /** What the sorted ring objects are to the starting object order */
  ghost predicate FromDocument(before: seq<DocObject>, sorted: seq<DocObject>) {
    UniqueNames(before) && NoDuplicates(sorted) && forall o :: o in sorted ==> o in before
  }

  /** Within the sorted objects no two share a Name. */
  lemma DistinctNames(before: seq<DocObject>, sorted: seq<DocObject>, k: nat)
    requires FromDocument(before, sorted) && k < |sorted|
    ensures sorted[k].name !in Names(sorted[..k])
  {
    if sorted[k].name in Names(sorted[..k]) {
      var j :| 0 <= j < k && Names(sorted[..k])[j] == sorted[k].name;
      SameNameSame(before, sorted[j], sorted[k]);
      assert false;
    }
  }

  /** The sorted objects before k have Names other than that of object k. */
  lemma EarlierNamesDiffer(before: seq<DocObject>, sorted: seq<DocObject>, k: nat)
    requires FromDocument(before, sorted) && k < |sorted|
    ensures forall j :: 0 <= j < k ==> sorted[..k][j].name !in [sorted[k].name]
  {
    DistinctNames(before, sorted, k);
    forall j | 0 <= j < k ensures sorted[..k][j].name != sorted[k].name {
      assert Names(sorted[..k])[j] == sorted[..k][j].name;
    }
  }

  /** The next sorted object is still in the document, and lookup by its Name finds it. */
  lemma NextStillThere(objs: seq<DocObject>, before: seq<DocObject>, sorted: seq<DocObject>, k: nat)
    requires FromDocument(before, sorted) && k < |sorted| && MovedUpTo(objs, before, sorted, k)
    ensures FindByName(objs, sorted[k].name).Some?
    ensures objs[FindByName(objs, sorted[k].name).value] == sorted[k]
  {
    var x := sorted[k];
    var names := Names(sorted[..k]);
    var w := Without(before, names);
    var p := sorted[..k];
    DistinctNames(before, sorted, k);
    WithoutMembers(before, names, x);
    assert x in objs;
    FindByNameSpec(objs, x.name);
    var i := FindByName(objs, x.name).value;
    var y := objs[i];
    EarlierNamesDiffer(before, sorted, k);
    assert y !in p;
    assert y in w;
    WithoutMembers(before, names, y);
    SameNameSame(before, x, y);
  }

  /** Moving the next sorted object to the end extends what the loop keeps. */
  lemma MoveStep(objs: seq<DocObject>, before: seq<DocObject>, sorted: seq<DocObject>, k: nat)
    requires FromDocument(before, sorted) && k < |sorted| && MovedUpTo(objs, before, sorted, k)
    ensures Without(objs, [sorted[k].name]) + [sorted[k]] == Without(before, Names(sorted[..k + 1])) + sorted[..k + 1]
  {
    var x := sorted[k];
    var p := sorted[..k];
    EarlierNamesDiffer(before, sorted, k);
    DropMoved(before, Names(p), p, x.name);
    NamesStep(sorted, k);
    assert p + [x] == sorted[..k + 1];
    var w' := Without(before, Names(sorted[..k + 1]));
    assert (w' + p) + [x] == w' + (p + [x]);
  }

  /** Dropping one more Name from the kept objects and the moved ones, none of which
      carries it, drops it from the kept objects only. */
  lemma DropMoved(before: seq<DocObject>, names: seq<string>, p: seq<DocObject>, name: string)
    requires forall j :: 0 <= j < |p| ==> p[j].name !in [name]
    ensures Without(Without(before, names) + p, [name]) == Without(before, names + [name]) + p
  {
    WithoutAppend(Without(before, names), p, [name]);
    WithoutNothing(p, [name]);
    WithoutTwice(before, names, [name]);
  }

  lemma NamesStep(sorted: seq<DocObject>, k: nat)
    requires k < |sorted|
    ensures Names(sorted[..k]) + [sorted[k].name] == Names(sorted[..k + 1])
  {
  }

  /** The sorted ring objects, as they leave the document */
  function SortedRings(objs: seq<DocObject>): seq<DocObject> {
    Sort(RingObjects(objs), ByName())
  }

  /** The sorted ring objects are the ring objects, each once, in Name order. */
  lemma SortedRingsSpec(objs: seq<DocObject>)
    requires UniqueNames(objs)
    ensures SortedBy(SortedRings(objs), ByName())
    ensures multiset(SortedRings(objs)) == multiset(RingObjects(objs))
    ensures FromDocument(objs, SortedRings(objs))
  {
    ByNameIsTotalPreorder();
    SortCorrect(RingObjects(objs), ByName());
    SortMembers(RingObjects(objs), ByName());
    RingsUnique(objs, |objs|);
    SortNoDuplicates(RingObjects(objs), ByName());
  }

  lemma {:induction false} RingsUnique(objs: seq<DocObject>, n: nat)
    requires n <= |objs| && UniqueNames(objs)
    ensures NoDuplicates(RingObjectsUpTo(objs, n))
  {
    if n > 0 {
      RingsUnique(objs, n - 1);
      var r := RingObjectsUpTo(objs, n - 1);
      forall o | o in r ensures o.name != objs[n - 1].name {
        var j :| 0 <= j < n - 1 && objs[..n - 1][j] == o;
        assert objs[j] == o;
      }
    }
  }

  /** Dropping the Names of all sorted ring objects leaves the other objects. */
  lemma WithoutRingsIsOthers(objs: seq<DocObject>)
    requires UniqueNames(objs)
    ensures Without(objs, Names(SortedRings(objs))) == OtherObjects(objs)
  {
    var sorted := SortedRings(objs);
    SortedRingsSpec(objs);
    forall o | o in objs ensures o.name in Names(sorted) <==> IsRingObject(o) {
      if IsRingObject(o) {
        var i :| 0 <= i < |objs| && objs[i] == o;
        RingObjectsComplete(objs, |objs|, i);
        assert o in multiset(RingObjects(objs));
        assert o in sorted;
        var j :| 0 <= j < |sorted| && sorted[j] == o;
        assert Names(sorted)[j] == o.name;
      }
      if o.name in Names(sorted) {
        var j :| 0 <= j < |sorted| && Names(sorted)[j] == o.name;
        assert sorted[j] in multiset(RingObjects(objs));
        SameNameSame(objs, sorted[j], o);
      }
    }
    WithoutFilter(objs, objs, Names(sorted));
  }

  lemma {:induction false} WithoutFilter(objs: seq<DocObject>, all: seq<DocObject>, names: seq<string>)
    requires forall o :: o in objs ==> o in all
    requires forall o :: o in all ==> (o.name in names <==> IsRingObject(o))
    ensures Without(objs, names) == OtherObjects(objs)
  {
    if objs != [] {
      assert objs[0] in objs;
      assert forall o :: o in objs[1..] ==> o in objs;
      WithoutFilter(objs[1..], all, names);
    }
  }

  /** The loop that moves each sorted ring object to the end */
  method MoveAll(doc: Document, sorted: seq<DocObject>)
    requires doc.Valid() && FromDocument(doc.objects, sorted)
    modifies doc
    ensures doc.Valid()
    ensures doc.objects == Without(old(doc.objects), Names(sorted)) + sorted
  {
    ghost var before := doc.objects;
    WithoutNothing(before, Names(sorted[..0]));
    var k := 0;
    while k < |sorted|
      invariant 0 <= k <= |sorted| && doc.Valid()
      invariant MovedUpTo(doc.objects, before, sorted, k)
    {
      NextStillThere(doc.objects, before, sorted, k);
      MoveStep(doc.objects, before, sorted, k);
      var i := FindByName(doc.objects, sorted[k].name).value;
      RemoveAtIsWithout(doc.objects, i);
      doc.MoveToEnd(i);
      k := k + 1;
    }
    assert sorted[..k] == sorted;
  }

  /** `sort_ring_objects()`: returns the ring objects in the order they now have */
  method SortRingObjects(doc: Document, hasDoc: bool) returns (r: Result<seq<DocObject>>)
    requires doc.Valid()
    modifies doc
    ensures doc.Valid()
    ensures !hasDoc ==> r == Err(NoDocument) && doc.objects == old(doc.objects)
    ensures hasDoc ==> r == Ok(SortedRings(old(doc.objects)))
    ensures hasDoc ==> doc.objects == OtherObjects(old(doc.objects)) + SortedRings(old(doc.objects))
    ensures RingObjects(old(doc.objects)) == [] ==> doc.objects == old(doc.objects)
  {
    if !hasDoc {
      return Err(NoDocument);
    }
    var rings := CollectRingObjects(doc.objects);
    if rings == [] {
      NoRingsNoOthersChange(doc.objects);
      return Ok([]);
    }
    ByNameIsTotalPreorder();
    var sorted := Sort(rings, ByName());
    SortedRingsSpec(doc.objects);
    WithoutRingsIsOthers(doc.objects);
    MoveAll(doc, sorted);
    return Ok(sorted);
  }

  /** The macro reorders the document and neither adds nor drops an object. */
  lemma ReorderIsPermutation(objs: seq<DocObject>)
    requires UniqueNames(objs)
    ensures multiset(OtherObjects(objs) + SortedRings(objs)) == multiset(objs)
  {
    SortedRingsSpec(objs);
    SplitPermutation(objs);
  }

  /** After the macro every ring object comes after every other object, and the ring
      objects stand in Name order. */
  lemma RingsLastInNameOrder(objs: seq<DocObject>)
    requires UniqueNames(objs)
    ensures var after := OtherObjects(objs) + SortedRings(objs);
            var m := |OtherObjects(objs)|;
            (forall i :: 0 <= i < m ==> !IsRingObject(after[i])) &&
            (forall i :: m <= i < |after| ==> IsRingObject(after[i])) &&
            SortedBy(after[m..], ByName())
  {
    var after := OtherObjects(objs) + SortedRings(objs);
    var m := |OtherObjects(objs)|;
    SortedRingsSpec(objs);
    OthersAreNotRings(objs);
    forall i | m <= i < |after| ensures IsRingObject(after[i]) {
      assert after[i] == SortedRings(objs)[i - m];
      assert after[i] in multiset(RingObjects(objs));
    }
    assert after[m..] == SortedRings(objs);
  }

  /** The macro as written. The host's `moveObject` transfers an object from another
      document into this one; for an object already in this document it leaves the
      object order as it was, and `None` is not the boolean its second argument takes,
      so the call may raise at the first move instead. Either way the order does not
      change; only the sorted list is reported. */
  method SortRingObjectsAsWritten(doc: Document, hasDoc: bool) returns (r: Result<seq<DocObject>>)
    requires doc.Valid()
    modifies doc
    ensures doc.Valid() && doc.objects == old(doc.objects)
    ensures !hasDoc ==> r == Err(NoDocument)
    ensures hasDoc ==> r == Ok(SortedRings(old(doc.objects)))
  {
    if !hasDoc {
      return Err(NoDocument);
    }
    var rings := CollectRingObjects(doc.objects);
    if rings == [] {
      return Ok([]);
    }
    var sorted := Sort(rings, ByName());
    return Ok(sorted);
  }

  /** Two ring objects Named "b" and "a", in that order: the order the macro as written
      leaves is not in Name order, while the sorted ring objects the corrected macro
      moves to the end are. */
  lemma OrderAsWrittenUnsorted()
    ensures var objs := [NewObject("Part::Feature", "b").(labelText := RingPrefix),
                         NewObject("Part::Feature", "a").(labelText := RingPrefix)];
            UniqueNames(objs) && RingObjects(objs) == objs &&
            !SortedBy(RingObjects(objs), ByName()) &&
            SortedBy(SortedRings(objs), ByName()) && multiset(SortedRings(objs)) == multiset(objs)
  {
    var objs := [NewObject("Part::Feature", "b").(labelText := RingPrefix),
                 NewObject("Part::Feature", "a").(labelText := RingPrefix)];
    assert IsRingObject(objs[0]) && IsRingObject(objs[1]);
    assert RingObjectsUpTo(objs, 1) == [objs[0]];
    assert RingObjects(objs) == objs;
    assert !StrLe(objs[0].name, objs[1].name);
    SortedRingsSpec(objs);
  }

  lemma {:induction false} OthersAreNotRings(objs: seq<DocObject>)
    ensures forall o :: o in OtherObjects(objs) ==> !IsRingObject(o)
  {
    if objs != [] {
      OthersAreNotRings(objs[1..]);
    }
  }
}
