/** What the two vessel-import panels share: the image plane an SVG import leaves in the
    document, found as the last `Image::ImagePlane` in document order, scaled to a
    height (or a width) keeping its aspect ratio, and stood upright on the origin. */
module VesselImage {
  import opened Wrappers
  import opened Text
  import opened Geometry
  import opened Doc

  /** The bundled profile a vessel button loads: `f"vase{k}.svg"` */
  function VaseFile(k: nat): string {
    "vase" + NatToString(k) + ".svg"
  }

  /** Different buttons load different files. */
  lemma VaseFilesDistinct(k1: nat, k2: nat)
    requires k1 != k2
    ensures VaseFile(k1) != VaseFile(k2)
  {
    if VaseFile(k1) == VaseFile(k2) {
      var s := VaseFile(k1);
      assert NatToString(k1) == s[4..|s| - 4] == NatToString(k2);
      NatToStringValue(k1);
      NatToStringValue(k2);
      assert false;
    }
  }

  /** An image plane's `XSize` and `YSize` */
  datatype Fit = Fit(xSize: real, ySize: real)

  function SizesOf(o: DocObject): Fit {
    Fit(o.xSize, o.ySize)
  }

  /** YSize becomes the height, XSize follows by the same factor; a zero YSize is a
      division by zero. */
  function ScaleToHeight(f: Fit, height: real): (r: Option<Fit>)
    ensures r.None? <==> f.ySize == 0.0
    ensures r.Some? ==> r.value.ySize == height && r.value.xSize * f.ySize == f.xSize * height
  {
    if f.ySize == 0.0 then None
    else
      var factor := height / f.ySize;
      Some(Fit(f.xSize * factor, height))
  }

  /** The same rule with the roles of the two sizes exchanged */
  function ScaleToWidth(f: Fit, width: real): (r: Option<Fit>)
    ensures r.None? <==> f.xSize == 0.0
    ensures r.Some? ==> r.value.xSize == width && r.value.ySize * f.xSize == f.ySize * width
  {
    if f.xSize == 0.0 then None
    else
      var factor := width / f.xSize;
      Some(Fit(width, f.ySize * factor))
  }

  /** "Scale By": by height, or by width when a non-zero width is given, falling back to
      height otherwise */
  function Scale(f: Fit, height: real, width: real, byHeight: bool): Option<Fit> {
    if byHeight || width == 0.0 then ScaleToHeight(f, height) else ScaleToWidth(f, width)
  }

  /** Scaling keeps the ratio of the two sizes and sets the chosen one; it fails exactly
      when the size it divides by is zero. */
  lemma ScaleKeepsAspect(f: Fit, height: real, width: real, byHeight: bool)
    ensures var r := Scale(f, height, width, byHeight);
            (r.None? <==> (if byHeight || width == 0.0 then f.ySize == 0.0 else f.xSize == 0.0)) &&
            (r.Some? ==> r.value.xSize * f.ySize == f.xSize * r.value.ySize) &&
            (r.Some? && (byHeight || width == 0.0) ==> r.value.ySize == height) &&
            (r.Some? && !byHeight && width != 0.0 ==> r.value.xSize == width)
  {
  }

  /** Scaling an image that already has the size asked for changes nothing, so a second
      scaling to the same targets is idempotent. */
  lemma ScaleIdempotent(f: Fit, height: real, width: real, byHeight: bool)
    requires height != 0.0 && Scale(f, height, width, byHeight).Some?
    ensures var g := Scale(f, height, width, byHeight).value;
            (byHeight || width == 0.0) ==> Scale(g, height, width, byHeight) == Some(g)
  {
    var g := Scale(f, height, width, byHeight).value;
    if byHeight || width == 0.0 {
      assert g.ySize == height;
      assert height / g.ySize == 1.0;
    }
  }

  /** The image upright (90 degrees about x) with its centre at half the height */
  function ProfilePlacement(height: real): Placement {
    Placement(Vec3(0.0, 0.0, height / 2.0), AboutX(90.0))
  }

  /** The height of the lower edge of an upright image plane, centred on its placement */
  function BottomEdge(o: DocObject): real {
    o.placement.base.z - o.ySize / 2.0
  }

  /** The image with its new sizes, placed for centre height z */
  function Sized(o: DocObject, f: Fit, z: real): (s: DocObject)
    ensures s.name == o.name && SizesOf(s) == f
    ensures s.placement == ProfilePlacement(z)
    ensures s.(xSize := o.xSize, ySize := o.ySize, placement := o.placement) == o
  {
    o.(xSize := f.xSize, ySize := f.ySize, placement := ProfilePlacement(z))
  }

  /** Placed for its own new height, an image stands on the origin. */
  lemma SizedStandsOnOrigin(o: DocObject, f: Fit)
    ensures BottomEdge(Sized(o, f, f.ySize)) == 0.0
  {
  }

  /** The last object of the given type in document order, as the scan that keeps
      overwriting `vase_obj` leaves it */
  function LastOfType(objs: seq<DocObject>, typeId: string): (r: Option<nat>)
    ensures r.Some? ==> r.value < |objs| && objs[r.value].typeId == typeId &&
                        forall j :: r.value < j < |objs| ==> objs[j].typeId != typeId
    ensures r.None? ==> forall j :: 0 <= j < |objs| ==> objs[j].typeId != typeId
  {
    if |objs| == 0 then None
    else if objs[|objs| - 1].typeId == typeId then Some(|objs| - 1)
    else LastOfType(objs[..|objs| - 1], typeId)
  }

  /** `for obj in doc.Objects: if obj.TypeId == "Image::ImagePlane": vase_obj = obj` */
  method FindImagePlane(objs: seq<DocObject>) returns (r: Option<nat>)
    ensures r == LastOfType(objs, ImagePlaneType)
  {
    r := None;
    var i := 0;
    while i < |objs|
      invariant 0 <= i <= |objs|
      invariant r == LastOfType(objs[..i], ImagePlaneType)
    {
      assert objs[..i + 1][..i] == objs[..i];
      if objs[i].typeId == ImagePlaneType {
        r := Some(i);
      }
      i := i + 1;
    }
    assert objs[..i] == objs;
  }

  /** The document after the importer appends object o under a fresh Name */
  function Inserted(objs: seq<DocObject>, o: DocObject): seq<DocObject> {
    objs + [o.(name := FreshName(o.name, Names(objs)))]
  }

  /** An import adds one object; if it is an image plane, that one is the one the
      panels scale, whatever image planes were there before. */
  lemma InsertedImageIsFound(objs: seq<DocObject>, o: DocObject)
    ensures var after := Inserted(objs, o);
            |after| == |objs| + 1 && after[..|objs|] == objs &&
            (o.typeId == ImagePlaneType ==> LastOfType(after, ImagePlaneType) == Some(|objs|)) &&
            (o.typeId != ImagePlaneType ==> LastOfType(after, ImagePlaneType) == LastOfType(objs, ImagePlaneType))
  {
    var after := Inserted(objs, o);
    assert after[..|objs|] == objs;
  }

  /** `module_io.OpenInsertObject(...)` when it succeeds: appends the imported object */
  method InsertImage(doc: Document, o: DocObject) returns (i: nat)
    requires doc.Valid()
    modifies doc
    ensures doc.Valid()
    ensures i == |old(doc.objects)| && doc.objects == Inserted(old(doc.objects), o)
  {
    i := doc.AddObject(o.typeId, o.name);
    doc.SetObject(i, o.(name := doc.objects[i].name));
  }

  /** Sets the image's sizes and placement */
  method ResizeImage(doc: Document, i: nat, f: Fit, z: real)
    requires doc.Valid() && i < |doc.objects|
    modifies doc
    ensures doc.Valid()
    ensures doc.objects == old(doc.objects)[i := Sized(old(doc.objects)[i], f, z)]
  {
    doc.SetObject(i, doc.objects[i].(ySize := f.ySize));
    doc.SetObject(i, doc.objects[i].(xSize := f.xSize));
    doc.SetObject(i, doc.objects[i].(placement := ProfilePlacement(z)));
  }
}
