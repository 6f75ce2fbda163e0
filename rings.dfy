/** Ring bookkeeping shared by the segment and ring panels. Ring objects are labelled
    `Ring_kkk_ccc` (ring number, copy number). A ring group is the first nine characters
    of such a Label. A stagger turns every object of group k (in sorted order) by k steps
    about z. */
module Rings {
  import opened Wrappers
  import opened Geometry
  import opened Text
  import opened Sorting
  import opened Doc

  const RingLabelPrefix := "Ring_"

  /** `label[:9]` */
  function GroupOf(lbl: string): string {
    Prefix(lbl, 9)
  }

  /** The object is a ring object and p is its group */
  predicate InGroup(o: DocObject, p: string) {
    StartsWith(o.labelText, RingLabelPrefix) && GroupOf(o.labelText) == p
  }

  predicate Distinct(s: seq<string>) {
    forall i, j :: 0 <= i < j < |s| ==> s[i] != s[j]
  }

  /** The groups of the ring objects, each once, in order of first appearance
      (the `if left_char not in list_of_rings: append` loop) */
  function FirstSeenGroups(objs: seq<DocObject>): seq<string> {
    if objs == [] then []
    else
      var acc := FirstSeenGroups(objs[..|objs| - 1]);
      var o := objs[|objs| - 1];
      if StartsWith(o.labelText, RingLabelPrefix) && GroupOf(o.labelText) !in acc
      then acc + [GroupOf(o.labelText)]
      else acc
  }

  /** Python's string order, as a comparison for `Sort` */
  function StrOrder(): (le: (string, string) -> bool) {
    (a: string, b: string) => StrLe(a, b)
  }

  lemma StrOrderIsTotalPreorder()
    ensures TotalPreorder(StrOrder())
  {
    forall a: string, b: string ensures StrOrder()(a, b) || StrOrder()(b, a) {
      StrLeTotal(a, b);
    }
    forall a: string, b: string, c: string | StrOrder()(a, b) && StrOrder()(b, c)
      ensures StrOrder()(a, c)
    {
      StrLeTrans(a, b, c);
    }
  }

  lemma StrOrderIsAntisymmetric()
    ensures Antisymmetric(StrOrder())
  {
    forall a: string, b: string | StrOrder()(a, b) && StrOrder()(b, a)
      ensures a == b
    {
      StrLeAntisym(a, b);
    }
  }

  /** `list_of_rings` after `list_of_rings.sort()` */
  function RingGroups(objs: seq<DocObject>): seq<string> {
    Sort(FirstSeenGroups(objs), StrOrder())
  }

  lemma {:induction false} FirstSeenGroupsSpec(objs: seq<DocObject>)
    ensures Distinct(FirstSeenGroups(objs))
    ensures forall p :: p in FirstSeenGroups(objs) <==> exists i :: 0 <= i < |objs| && InGroup(objs[i], p)
    ensures forall j :: 0 <= j < |FirstSeenGroups(objs)| ==> StartsWith(FirstSeenGroups(objs)[j], RingLabelPrefix)
  {
    if objs != [] {
      var init := objs[..|objs| - 1];
      FirstSeenGroupsSpec(init);
      forall p ensures p in FirstSeenGroups(objs) <==> exists i :: 0 <= i < |objs| && InGroup(objs[i], p) {
        if p in FirstSeenGroups(init) {
          var i :| 0 <= i < |init| && InGroup(init[i], p);
          assert objs[i] == init[i];
        }
        if i :| 0 <= i < |objs| && InGroup(objs[i], p) {
          if i < |init| {
            assert init[i] == objs[i];
          }
        }
      }
    }
  }

  lemma {:induction false} DistinctCounts(s: seq<string>)
    ensures Distinct(s) <==> forall x :: multiset(s)[x] <= 1
  {
    if s != [] {
      var rest := s[1..];
      DistinctCounts(rest);
      assert s == [s[0]] + rest;
      assert multiset(s) == multiset{s[0]} + multiset(rest);
      if Distinct(s) {
        assert Distinct(rest) by {
          forall i, j | 0 <= i < j < |rest| ensures rest[i] != rest[j] {
            assert rest[i] == s[i + 1] && rest[j] == s[j + 1];
          }
        }
        assert s[0] !in rest;
      }
      if forall x :: multiset(s)[x] <= 1 {
        assert forall x :: multiset(rest)[x] <= 1 by {
          forall x ensures multiset(rest)[x] <= 1 {
            assert multiset(s)[x] <= 1;
          }
        }
        assert multiset(s)[s[0]] <= 1;
        assert s[0] !in multiset(rest);
        forall i, j | 0 <= i < j < |s| ensures s[i] != s[j] {
          if i == 0 {
            assert s[j] == rest[j - 1];
            assert s[j] in rest;
          } else {
            assert s[i] == rest[i - 1] && s[j] == rest[j - 1];
          }
        }
      }
    }
  }

  /** The ring groups are sorted, each occurs once, every one starts with "Ring_", and a
      string is among them exactly when it is the group of some ring object. */
  lemma RingGroupsSpec(objs: seq<DocObject>)
    ensures SortedBy(RingGroups(objs), StrOrder())
    ensures Distinct(RingGroups(objs))
    ensures forall p :: p in RingGroups(objs) <==> exists i :: 0 <= i < |objs| && InGroup(objs[i], p)
    ensures forall j :: 0 <= j < |RingGroups(objs)| ==> StartsWith(RingGroups(objs)[j], RingLabelPrefix)
  {
    var seen := FirstSeenGroups(objs);
    FirstSeenGroupsSpec(objs);
    StrOrderIsTotalPreorder();
    SortCorrect(seen, StrOrder());
    SortMembers(seen, StrOrder());
    DistinctCounts(seen);
    DistinctCounts(RingGroups(objs));
    forall j | 0 <= j < |RingGroups(objs)| ensures StartsWith(RingGroups(objs)[j], RingLabelPrefix) {
      assert RingGroups(objs)[j] in seen;
    }
  }

  /** The loop of the ring-rotation handlers that builds and sorts `list_of_rings` */
  method CollectRingGroups(objs: seq<DocObject>) returns (rings: seq<string>)
    ensures rings == RingGroups(objs)
  {
    var seen: seq<string> := [];
    var i := 0;
    while i < |objs|
      invariant 0 <= i <= |objs|
      invariant seen == FirstSeenGroups(objs[..i])
    {
      assert objs[..i + 1][..i] == objs[..i];
      var lbl := objs[i].labelText;
      if StartsWith(lbl, RingLabelPrefix) {
        var group := GroupOf(lbl);
        if group !in seen {
          seen := seen + [group];
        }
      }
      i := i + 1;
    }
    assert objs[..|objs|] == objs;
    rings := Sort(seen, StrOrder());
  }

  // ---------------------------------------------------------------------------
  // Turning the objects of a group

  /** Turns the object about z when its Label starts with the prefix */
  function TurnIfPrefixed(o: DocObject, prefix: string, degrees: real): DocObject {
    if StartsWith(o.labelText, prefix) then TurnedAboutZ(o, degrees) else o
  }

  /** Every object whose Label starts with the prefix turned by the same angle */
  function TurnGroup(objs: seq<DocObject>, prefix: string, degrees: real): (r: seq<DocObject>)
    ensures |r| == |objs| && Names(r) == Names(objs)
    ensures forall i :: 0 <= i < |objs| ==> r[i] == TurnIfPrefixed(objs[i], prefix, degrees)
  {
    seq(|objs|, i requires 0 <= i < |objs| => TurnIfPrefixed(objs[i], prefix, degrees))
  }

  /** `for obj in doc.Objects: if obj.Label.startswith(prefix): compose a z turn` */
  method TurnObjectsWithPrefix(doc: Document, prefix: string, degrees: real)
    requires doc.Valid()
    modifies doc
    ensures doc.Valid()
    ensures doc.objects == TurnGroup(old(doc.objects), prefix, degrees)
  {
    ghost var before := doc.objects;
    var i := 0;
    while i < |doc.objects|
      invariant 0 <= i <= |doc.objects| == |before|
      invariant doc.Valid()
      invariant forall k :: 0 <= k < i ==> doc.objects[k] == TurnIfPrefixed(before[k], prefix, degrees)
      invariant forall k :: i <= k < |before| ==> doc.objects[k] == before[k]
    {
      var o := doc.objects[i];
      if StartsWith(o.labelText, prefix) {
        doc.SetObject(i, TurnedAboutZ(o, degrees));
      }
      i := i + 1;
    }
  }

  // ---------------------------------------------------------------------------
  // Staggering the rings

  /** The extra z angle a stagger gives an object with this Label: k·step for every
      group k (0-based) among `rings` that the Label starts with */
  function Stagger(lbl: string, rings: seq<string>, step: real): real {
    if rings == [] then 0.0
    else
      Stagger(lbl, rings[..|rings| - 1], step) +
      (if StartsWith(lbl, rings[|rings| - 1]) then (|rings| - 1) as real * step else 0.0)
  }

  /** Every object turned by its stagger */
  function Staggered(objs: seq<DocObject>, rings: seq<string>, step: real): (r: seq<DocObject>)
    ensures |r| == |objs| && Names(r) == Names(objs)
    ensures forall i :: 0 <= i < |objs| ==> r[i] == TurnedAboutZ(objs[i], Stagger(objs[i].labelText, rings, step))
  {
    seq(|objs|, i requires 0 <= i < |objs| => TurnedAboutZ(objs[i], Stagger(objs[i].labelText, rings, step)))
  }

  /** Staggering by one more group is turning that group's objects by its amount. */
  lemma StaggerOneMore(objs: seq<DocObject>, rings: seq<string>, k: nat, step: real)
    requires k < |rings|
    ensures TurnGroup(Staggered(objs, rings[..k], step), rings[k], k as real * step) ==
            Staggered(objs, rings[..k + 1], step)
  {
    var a := TurnGroup(Staggered(objs, rings[..k], step), rings[k], k as real * step);
    var b := Staggered(objs, rings[..k + 1], step);
    assert rings[..k + 1][..k] == rings[..k];
    forall i | 0 <= i < |objs| ensures a[i] == b[i] {
      var o := objs[i];
      assert Stagger(o.labelText, rings[..k + 1], step) ==
        Stagger(o.labelText, rings[..k], step) + (if StartsWith(o.labelText, rings[k]) then k as real * step else 0.0);
    }
  }

  /** Staggering by no groups leaves every object as it was. */
  lemma StaggeredByNothing(objs: seq<DocObject>, step: real)
    ensures Staggered(objs, [], step) == objs
  {
    forall i | 0 <= i < |objs| ensures Staggered(objs, [], step)[i] == objs[i] {
      ComposeZAdds(0.0, 0.0, objs[i].placement.rotation);
    }
  }

  lemma TurnGroupSameAngle(objs: seq<DocObject>, prefix: string, a: real, b: real)
    requires a == b
    ensures TurnGroup(objs, prefix, a) == TurnGroup(objs, prefix, b)
  {
  }

  /** The stagger amount is linear in the step. */
  lemma {:induction false} StaggerLinear(lbl: string, rings: seq<string>, a: real, b: real)
    ensures Stagger(lbl, rings, a) + Stagger(lbl, rings, b) == Stagger(lbl, rings, a + b)
  {
    if rings != [] {
      var n := (|rings| - 1) as real;
      StaggerLinear(lbl, rings[..|rings| - 1], a, b);
      Distributes(n, a, b);
    }
  }

  lemma Distributes(n: real, a: real, b: real)
    ensures n * a + n * b == n * (a + b)
  {
  }

  /** Staggering twice turns every object by the sum of both staggers: a second
      rotate-rings run adds the same amounts again. */
  lemma StaggeredTwice(objs: seq<DocObject>, rings: seq<string>, a: real, b: real)
    ensures Staggered(Staggered(objs, rings, a), rings, b) == Staggered(objs, rings, a + b)
  {
    var once := Staggered(objs, rings, a);
    forall i | 0 <= i < |objs|
      ensures Staggered(once, rings, b)[i] == Staggered(objs, rings, a + b)[i]
    {
      var lbl := objs[i].labelText;
      assert once[i].labelText == lbl;
      StaggerLinear(lbl, rings, a, b);
      ComposeZAdds(Stagger(lbl, rings, b), Stagger(lbl, rings, a), objs[i].placement.rotation);
    }
  }

  /** An object outside the ring objects is not turned. */
  lemma {:induction false} StaggerOfNonRing(lbl: string, rings: seq<string>, step: real)
    requires forall j :: 0 <= j < |rings| ==> StartsWith(rings[j], RingLabelPrefix)
    requires !StartsWith(lbl, RingLabelPrefix)
    ensures Stagger(lbl, rings, step) == 0.0
  {
    if rings != [] {
      var last := rings[|rings| - 1];
      StaggerOfNonRing(lbl, rings[..|rings| - 1], step);
    }
  }

  function IndexOf(s: seq<string>, x: string): (k: nat)
    requires x in s
    ensures k < |s| && s[k] == x
    ensures forall j :: 0 <= j < k ==> s[j] != x
  {
    if s[0] == x then 0 else 1 + IndexOf(s[1..], x)
  }

  /** When every group is the full nine characters, a ring object whose Label has at
      least nine characters matches exactly its own group, and is turned by that
      group's position times the step. */
  lemma StaggerOfRingObject(lbl: string, rings: seq<string>, step: real)
    requires Distinct(rings)
    requires forall j :: 0 <= j < |rings| ==> |rings[j]| == 9
    requires |lbl| >= 9 && GroupOf(lbl) in rings
    ensures Stagger(lbl, rings, step) == IndexOf(rings, GroupOf(lbl)) as real * step
  {
    OnlyAtIndex(rings, IndexOf(rings, GroupOf(lbl)));
    StaggerAtIndex(lbl, rings, step, IndexOf(rings, GroupOf(lbl)));
  }

  /** In a list without repeats, no entry but the k-th equals the k-th. */
  lemma OnlyAtIndex(rings: seq<string>, k: nat)
    requires Distinct(rings) && k < |rings|
    ensures forall j :: 0 <= j < |rings| && j != k ==> rings[j] != rings[k]
  {
    forall j | 0 <= j < |rings| && j != k ensures rings[j] != rings[k] {
      if j < k {
        assert rings[j] != rings[k];
      } else {
        assert rings[k] != rings[j];
      }
    }
  }

  /** When only group k matches the object, the stagger is k times the step. */
  lemma StaggerAtIndex(lbl: string, rings: seq<string>, step: real, k: nat)
    requires forall j :: 0 <= j < |rings| ==> |rings[j]| == 9
    requires |lbl| >= 9 && k < |rings| && rings[k] == GroupOf(lbl)
    requires forall j :: 0 <= j < |rings| && j != k ==> rings[j] != rings[k]
    ensures Stagger(lbl, rings, step) == k as real * step
  {
    StaggerUpTo(lbl, rings, step, k, |rings|);
    assert rings[..|rings|] == rings;
  }

  /** Within the first m groups, only group k (the object's own) adds to the stagger. */
  lemma {:induction false} StaggerUpTo(lbl: string, rings: seq<string>, step: real, k: nat, m: nat)
    requires forall j :: 0 <= j < |rings| ==> |rings[j]| == 9
    requires |lbl| >= 9 && k < |rings| && m <= |rings| && rings[k] == GroupOf(lbl)
    requires forall j :: 0 <= j < |rings| && j != k ==> rings[j] != rings[k]
    ensures Stagger(lbl, rings[..m], step) == if k < m then k as real * step else 0.0
  {
    if m > 0 {
      StaggerUpTo(lbl, rings, step, k, m - 1);
      assert rings[..m][..m - 1] == rings[..m - 1];
      StartsWithGroup(lbl, rings[m - 1]);
    }
  }

  lemma StartsWithGroup(lbl: string, g: string)
    requires |lbl| >= 9 && |g| == 9
    ensures StartsWith(lbl, g) <==> g == GroupOf(lbl)
  {
  }

}
