/** The "Add Vase Profile" panel: one height box and six buttons for bundled profiles.
    A click stores the height as the var-set's BowlHeight, imports the profile, scales the
    last image plane to that height keeping its aspect ratio and stands it upright on
    the origin. */
module AddVase {
  import opened Wrappers
  import opened Text
  import opened Doc
  import opened VarSet
  import opened VesselImage

  const PanelError := "Error adding panel"
  const AddError := "Error adding vase"
  const NotANumber := "could not convert string to float"

  /** The var-set the panel creates when the document has none: no BowlWidth */
  function DefaultVariables(): map<string, Value> {
    map["NumSegments" := IntValue(12), "BowlHeight" := Quantity(254.0),
        "LayerHeight" := Quantity(25.4), "RotateAngle" := Quantity(15.0), "WallThickness" := Quantity(10.0)]
  }

  /** The document once the panel is open: the var-set is created only when the
      document has none */
  function Opened(objs: seq<DocObject>): (r: seq<DocObject>)
    ensures |objs| <= |r| <= |objs| + 1 && r[..|objs|] == objs
    ensures FindByName(r, VarSetName).Some?
    ensures |r| == |objs| + 1 <==> FindByName(objs, VarSetName).None?
    ensures |r| == |objs| + 1 ==> r[|objs|].properties == DefaultVariables() && r[|objs|].typeId == VarSetType
  {
    if FindByName(objs, VarSetName).Some? then objs
    else
      var r := objs + [NewObject(VarSetType, VarSetName).(properties := DefaultVariables())];
      FindByNameSpec(r, VarSetName);
      assert r[|objs|].name == VarSetName;
      r
  }

  /** Opening leaves an existing var-set's values alone and gives a new one the
      defaults; opening again changes nothing. */
  lemma OpenedKeepsVariables(objs: seq<DocObject>, prop: string)
    ensures FindByName(objs, VarSetName).Some? ==> Opened(objs) == objs
    ensures FindByName(objs, VarSetName).None? ==>
              GetVarsetValue(PlainCaller, true, Opened(objs), prop) ==
                (if prop in DefaultVariables() then Some(Unwrap(DefaultVariables()[prop])) else None)
    ensures Opened(Opened(objs)) == Opened(objs)
  {
    if FindByName(objs, VarSetName).None? {
      var o := Opened(objs);
      NameAbsent(objs, VarSetName);
      FindByNameSpec(objs, VarSetName);
      FindByNameSpec(o, VarSetName);
      assert Names(o)[|objs|] == VarSetName;
      assert FindByName(o, VarSetName) == Some(|objs|);
    }
  }

  /** The six buttons: buttons 1 to 5 load vase1.svg to vase5.svg, and button 6 loads
      vase4.svg, as its icon shows. */
  function ButtonFile(button: nat): Option<string> {
    match button
    case 1 => Some("vase1.svg")
    case 2 => Some("vase2.svg")
    case 3 => Some("vase3.svg")
    case 4 => Some("vase4.svg")
    case 5 => Some("vase5.svg")
    case 6 => Some("vase4.svg")
    case _ => None
  }

  lemma ButtonFiles(button: nat)
    ensures ButtonFile(button).Some? <==> 1 <= button <= 6
    ensures 1 <= button <= 5 ==> ButtonFile(button) == Some(VaseFile(button))
    ensures ButtonFile(6) == Some(VaseFile(4))
  {
    assert VaseFile(1) == "vase" + "1" + ".svg" == "vase1.svg";
    assert VaseFile(2) == "vase" + "2" + ".svg" == "vase2.svg";
    assert VaseFile(3) == "vase" + "3" + ".svg" == "vase3.svg";
    assert VaseFile(4) == "vase" + "4" + ".svg" == "vase4.svg";
    assert VaseFile(5) == "vase" + "5" + ".svg" == "vase5.svg";
  }

  /** Opening the panel: without a document its construction raises. */
  method OpenPanel(doc: Document, hasDoc: bool) returns (r: Result<AddVasePanel>)
    requires doc.Valid()
    modifies doc
    ensures doc.Valid()
    ensures !hasDoc ==> r == Err(PanelError) && doc.objects == old(doc.objects)
    ensures hasDoc ==> r.Ok? && fresh(r.value) && r.value.svgHeight == 254.0 && r.value.heightText == "254" &&
                       doc.objects == Opened(old(doc.objects))
  {
    if !hasDoc {
      return Err(PanelError);
    }
    if FindByName(doc.objects, VarSetName).None? {
      NameAbsent(doc.objects, VarSetName);
      var v := doc.AddObject(VarSetType, VarSetName);
      doc.SetObject(v, doc.objects[v].(properties := DefaultVariables()));
    }
    var panel := new AddVasePanel();
    return Ok(panel);
  }

  /** The document after a click: the import, then the last image plane scaled to the
      height and centred at half of it; Err when there is no image plane or it has no
      height. */
  function VaseAdded(objs: seq<DocObject>, o: DocObject, height: real): (r: (seq<DocObject>, Result<nat>))
    ensures r.1.Ok? ==> LastOfType(Inserted(objs, o), ImagePlaneType) == Some(r.1.value)
  {
    var after := Inserted(objs, o);
    match LastOfType(after, ImagePlaneType)
    case None => (after, Err(AddError))
    case Some(i) =>
      match ScaleToHeight(SizesOf(after[i]), height)
      case None => (after, Err(AddError))
      case Some(f) => (after[i := Sized(after[i], f, height)], Ok(i))
  }

  /** The scaled image has the height asked for, keeps its aspect ratio and stands on
      the origin; when the import made the image plane, that one is scaled. */
  lemma VaseAddedStandsOnOrigin(objs: seq<DocObject>, o: DocObject, height: real)
    ensures var r := VaseAdded(objs, o, height);
            r.1.Ok? ==>
              var i := r.1.value;
              var before := Inserted(objs, o)[i];
              i < |r.0| && r.0[i].ySize == height && BottomEdge(r.0[i]) == 0.0 &&
              r.0[i].xSize * before.ySize == before.xSize * height &&
              (o.typeId == ImagePlaneType ==> i == |objs|)
    ensures VaseAdded(objs, o, height).1.Err? <==>
              var found := LastOfType(Inserted(objs, o), ImagePlaneType);
              found.None? || Inserted(objs, o)[found.value].ySize == 0.0
  {
    InsertedImageIsFound(objs, o);
    var r := VaseAdded(objs, o, height);
    if r.1.Ok? {
      var after := Inserted(objs, o);
      var f := ScaleToHeight(SizesOf(after[r.1.value]), height).value;
      SizedStandsOnOrigin(after[r.1.value], f);
    }
  }

  class AddVasePanel {
    var svgHeight: real
    /** The "Image Y Size" box */
    var heightText: string

    constructor()
      ensures svgHeight == 254.0 && heightText == "254"
    {
      svgHeight := 254.0;
      heightText := "254";
    }

    /** `update_values`: the box's number becomes the height and the var-set's
        BowlHeight; text that is not a number raises and changes nothing. */
    method UpdateValues(doc: Document) returns (r: Result<()>)
      requires doc.Valid()
      modifies this`svgHeight, doc
      ensures doc.Valid()
      ensures r.Ok? <==> ParseReal(heightText).Some?
      ensures r.Err? ==> r.message == NotANumber && svgHeight == old(svgHeight) && doc.objects == old(doc.objects)
      ensures r.Ok? ==> svgHeight == ParseReal(heightText).value &&
                        doc.objects == SetVarsetEffect(PlainCaller, true, old(doc.objects), "BowlHeight", FloatValue(svgHeight))
    {
      var h := ParseReal(heightText);
      if h.None? {
        return Err(NotANumber);
      }
      svgHeight := h.value;
      SetVarsetValue(doc, PlainCaller, true, "BowlHeight", FloatValue(svgHeight));
      r := Ok(());
    }

    /** `bt_add_vase_clicked`, after one of the buttons: `imported` is what the importer
        does with the bundled file, appending an object or raising. */
    method BtAddVaseClicked(doc: Document, imported: Result<DocObject>) returns (r: Result<nat>)
      requires doc.Valid()
      modifies this`svgHeight, doc
      ensures doc.Valid()
      ensures ParseReal(heightText).None? ==> r == Err(NotANumber) && doc.objects == old(doc.objects) && svgHeight == old(svgHeight)
      ensures ParseReal(heightText).Some? ==>
                var h := ParseReal(heightText).value;
                var stored := SetVarsetEffect(PlainCaller, true, old(doc.objects), "BowlHeight", FloatValue(h));
                svgHeight == h &&
                (imported.Err? ==> r == Err(AddError) && doc.objects == stored) &&
                (imported.Ok? ==> (doc.objects, r) == VaseAdded(stored, imported.value, h))
    {
      var u := UpdateValues(doc);
      if u.Err? {
        return Err(u.message);
      }
      if imported.Err? {
        return Err(AddError);
      }
      var _ := InsertImage(doc, imported.value);
      var found := FindImagePlane(doc.objects);
      if found.None? {
        return Err(AddError);
      }
      var i := found.value;
      var f := ScaleToHeight(SizesOf(doc.objects[i]), svgHeight);
      if f.None? {
        return Err(AddError);
      }
      ResizeImage(doc, i, f.value, svgHeight);
      r := Ok(i);
    }

    /** A click on button k (1 to 6) */
    method BtClickVase(doc: Document, button: nat, imported: Result<DocObject>) returns (file: string, r: Result<nat>)
      requires doc.Valid() && ButtonFile(button).Some?
      modifies this`svgHeight, doc
      ensures doc.Valid()
      ensures file == ButtonFile(button).value
      ensures ParseReal(heightText).None? ==> r == Err(NotANumber) && doc.objects == old(doc.objects) && svgHeight == old(svgHeight)
      ensures ParseReal(heightText).Some? ==>
                var h := ParseReal(heightText).value;
                var stored := SetVarsetEffect(PlainCaller, true, old(doc.objects), "BowlHeight", FloatValue(h));
                svgHeight == h &&
                (imported.Err? ==> r == Err(AddError) && doc.objects == stored) &&
                (imported.Ok? ==> (doc.objects, r) == VaseAdded(stored, imported.value, h))
    {
      file := ButtonFile(button).value;
      r := BtAddVaseClicked(doc, imported);
    }
  }
}
