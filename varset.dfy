/** The shared parameter store: an `App::VarSet` object named "BowlVariables" whose
    dynamic properties (NumSegments, BowlHeight, ...) every panel reads and writes. */
module VarSet {
  import opened Wrappers
  import opened Doc

  const VarSetName := "BowlVariables"

  /** Who asks for a property: the `self` handed to the lookup helpers. */
  datatype Caller =
    | ObjectCaller(obj: nat)            // a document object, which has a PropertiesList
    | PanelWithVarset(varset: Option<nat>)  // a panel holding a `varset` attribute (possibly None)
    | PlainCaller                       // anything else
    | NoCaller                          // `None`

  /** A caller whose object references point into the document */
  predicate CallerIn(c: Caller, objs: seq<DocObject>) {
    match c
    case ObjectCaller(i) => i < |objs|
    case PanelWithVarset(v) => v.Some? ==> v.value < |objs|
    case _ => true
  }

  /** `_resolve_varset`: the caller itself when it is an object, else its `varset`
      attribute when it has one, else the active document's "BowlVariables", else None. */
  function ResolveVarset(c: Caller, hasDoc: bool, objs: seq<DocObject>): (r: Option<nat>)
    requires CallerIn(c, objs)
    ensures r.Some? ==> r.value < |objs|
    ensures c.ObjectCaller? ==> r == Some(c.obj)
    ensures c.PanelWithVarset? ==> r == c.varset
    ensures (c.PlainCaller? || c.NoCaller?) ==>
              r == (if hasDoc then FindByName(objs, VarSetName) else None)
  {
    match c
    case ObjectCaller(i) => Some(i)
    case PanelWithVarset(v) => v
    case _ => if hasDoc then FindByName(objs, VarSetName) else None
  }

  /** `_unwrap_value`: a quantity's bare number, any other value as it is */
  function Unwrap(v: Value): (r: Value)
    ensures !r.Quantity?
    ensures v.Quantity? ==> r == FloatValue(v.q)
    ensures !v.Quantity? ==> r == v
  {
    match v
    case Quantity(q) => FloatValue(q)
    case _ => v
  }

  /** `getVarsetValue`: None when there is no var-set or it lacks the property,
      otherwise the unwrapped value. */
  function GetVarsetValue(c: Caller, hasDoc: bool, objs: seq<DocObject>, prop: string): (r: Option<Value>)
    requires CallerIn(c, objs)
    ensures r.None? <==> (ResolveVarset(c, hasDoc, objs).None? ||
                          prop !in objs[ResolveVarset(c, hasDoc, objs).value].properties)
    ensures r.Some? ==> r.value == Unwrap(objs[ResolveVarset(c, hasDoc, objs).value].properties[prop])
  {
    match ResolveVarset(c, hasDoc, objs)
    case Some(i) => if prop in objs[i].properties then Some(Unwrap(objs[i].properties[prop])) else None
    case None => None
  }

  /** `getVarsetInt` performs the same lookup as `getVarsetValue`, without converting. */
  function GetVarsetInt(c: Caller, hasDoc: bool, objs: seq<DocObject>, prop: string): (r: Option<Value>)
    requires CallerIn(c, objs)
    ensures r == GetVarsetValue(c, hasDoc, objs, prop)
  {
    match ResolveVarset(c, hasDoc, objs)
    case Some(i) => if prop in objs[i].properties then Some(Unwrap(objs[i].properties[prop])) else None
    case None => None
  }

  /** The document after `setVarsetValue`: the property changes only when it is listed. */
  function SetVarsetEffect(c: Caller, hasDoc: bool, objs: seq<DocObject>, prop: string, v: Value): (r: seq<DocObject>)
    requires CallerIn(c, objs)
    ensures |r| == |objs| && CallerIn(c, r)
    ensures forall i :: 0 <= i < |objs| ==> r[i].(properties := objs[i].properties) == objs[i]
  {
    match ResolveVarset(c, hasDoc, objs)
    case Some(i) =>
      if prop in objs[i].properties
      then objs[i := objs[i].(properties := objs[i].properties[prop := v])]
      else objs
    case None => objs
  }

  /** `setVarsetValue` and `setVarsetInt` (whose bodies are the same) */
  method SetVarsetValue(doc: Document, c: Caller, hasDoc: bool, prop: string, v: Value)
    requires doc.Valid() && CallerIn(c, doc.objects)
    modifies doc
    ensures doc.Valid()
    ensures doc.objects == SetVarsetEffect(c, hasDoc, old(doc.objects), prop, v)
  {
    var target := ResolveVarset(c, hasDoc, doc.objects);
    if target.Some? && prop in doc.objects[target.value].properties {
      var i := target.value;
      doc.SetObject(i, doc.objects[i].(properties := doc.objects[i].properties[prop := v]));
    }
  }

  /** Reading a listed property back after setting it gives the stored value, unwrapped. */
  lemma GetAfterSet(c: Caller, hasDoc: bool, objs: seq<DocObject>, prop: string, v: Value)
    requires CallerIn(c, objs)
    requires GetVarsetValue(c, hasDoc, objs, prop).Some?
    ensures CallerIn(c, SetVarsetEffect(c, hasDoc, objs, prop, v))
    ensures GetVarsetValue(c, hasDoc, SetVarsetEffect(c, hasDoc, objs, prop, v), prop) == Some(Unwrap(v))
  {
    var after := SetVarsetEffect(c, hasDoc, objs, prop, v);
    var i := ResolveVarset(c, hasDoc, objs).value;
    assert Names(after) == Names(objs);
    assert FindByName(after, VarSetName) == FindByName(objs, VarSetName) by {
      FindByNameSameNames(after, objs, VarSetName);
    }
  }

  /** Setting one property leaves every other property, and every other object, as it was;
      setting a property the var-set does not list changes nothing. */
  lemma SetChangesOnlyThatProperty(c: Caller, hasDoc: bool, objs: seq<DocObject>, prop: string, v: Value, other: string)
    requires CallerIn(c, objs) && other != prop
    ensures CallerIn(c, SetVarsetEffect(c, hasDoc, objs, prop, v))
    ensures GetVarsetValue(c, hasDoc, SetVarsetEffect(c, hasDoc, objs, prop, v), other) == GetVarsetValue(c, hasDoc, objs, other)
    ensures GetVarsetValue(c, hasDoc, objs, prop).None? ==> SetVarsetEffect(c, hasDoc, objs, prop, v) == objs
  {
    var after := SetVarsetEffect(c, hasDoc, objs, prop, v);
    assert Names(after) == Names(objs);
    FindByNameSameNames(after, objs, VarSetName);
  }
}
