/** The "Add Vessel Profile" panel: height and width boxes in millimetres and inches kept
    in step, a grid of buttons for the bundled profiles `vase1.svg` ... `vase9.svg`, a
    Browse button for any SVG file and a Delete button. An imported profile is scaled
    by height or by width, keeping its aspect ratio, and stood upright on the origin. */
module AddVessel {
  import opened Wrappers
  import opened Text
  import opened Numbers
  import opened Geometry
  import opened Doc
  import opened VarSet
  import opened VesselImage

  const MmPerInch := 25.4
  const VesselCount := 9
  const PanelError := "Error adding panel"
  const AddError := "Error adding vase"
  const ScaleError := "Error adding and scaling vase"
  const NoImage := "Could not find image object"
  const NotANumber := "could not convert string to float"
  const Cancelled := "File selection cancelled"
  const FileNotFound := "File not found"

  /** The var-set the panel creates when the document has none */
  function DefaultVariables(): map<string, Value> {
    map["NumSegments" := IntValue(12), "BowlHeight" := Quantity(254.0), "BowlWidth" := Quantity(100.0),
        "LayerHeight" := Quantity(25.4), "RotateAngle" := Quantity(15.0), "WallThickness" := Quantity(10.0)]
  }

  // ---------------------------------------------------------------------------
  // The four size boxes

  /** A line edit: text the user typed, or a number the panel wrote with
      `setText(str(v))`, which `float` reads back as v */
  datatype Field = Typed(text: string) | Shown(value: real)

  /** `float(box.text())`, None where it raises ValueError */
  function FieldValue(f: Field): Option<real> {
    match f
    case Typed(t) => ParseReal(t)
    case Shown(v) => Some(v)
  }

  datatype Dim = Height | Width
  datatype Unit = Mm | In

  function Other(u: Unit): Unit {
    if u == Mm then In else Mm
  }

  /** A millimetre size expressed in a unit */
  function InUnit(mm: real, u: Unit): real {
    if u == Mm then mm else mm / MmPerInch
  }

  /** The panel's sizes (`svg_height`, `svg_width`, in millimetres) and its four boxes */
  datatype Entries = Entries(height: real, width: real,
                             heightMm: Field, widthMm: Field, heightIn: Field, widthIn: Field)

  function SizeOf(e: Entries, d: Dim): real {
    if d == Height then e.height else e.width
  }

  function WithSize(e: Entries, d: Dim, v: real): Entries {
    if d == Height then e.(height := v) else e.(width := v)
  }

  function Box(e: Entries, d: Dim, u: Unit): Field {
    match (d, u)
    case (Height, Mm) => e.heightMm
    case (Width, Mm) => e.widthMm
    case (Height, In) => e.heightIn
    case (Width, In) => e.widthIn
  }

  function WithBox(e: Entries, d: Dim, u: Unit, f: Field): Entries {
    match (d, u)
    case (Height, Mm) => e.(heightMm := f)
    case (Width, Mm) => e.(widthMm := f)
    case (Height, In) => e.(heightIn := f)
    case (Width, In) => e.(widthIn := f)
  }

  /** The box whose editing finished: 'y-mm', 'x-mm', 'y-in' or 'x-in' */
  datatype Edited = Edited(dim: Dim, unit: Unit)

  /** `update_text_boxes(source)`: a number typed in one unit becomes the size (an inch
      value times 25.4), and the other unit's box shows that size in its unit to two
      places; text that is not a number changes nothing. */
  function TextBoxesUpdated(e: Entries, x: Edited): (r: Entries)
    ensures FieldValue(Box(e, x.dim, x.unit)).None? ==> r == e
    ensures FieldValue(Box(e, x.dim, x.unit)).Some? ==>
              var typed := FieldValue(Box(e, x.dim, x.unit)).value;
              var size := SizeOf(r, x.dim);
              InUnit(size, x.unit) == typed &&
              FieldValue(Box(r, x.dim, Other(x.unit))).Some? &&
              InUnit(size, Other(x.unit)) - 0.005 <= FieldValue(Box(r, x.dim, Other(x.unit))).value
                                               <= InUnit(size, Other(x.unit)) + 0.005 &&
              r == WithBox(WithSize(e, x.dim, size), x.dim, Other(x.unit), Box(r, x.dim, Other(x.unit)))
  {
    match FieldValue(Box(e, x.dim, x.unit))
    case None => e
    case Some(t) =>
      var mm := if x.unit == Mm then t else t * MmPerInch;
      WithBox(WithSize(e, x.dim, mm), x.dim, Other(x.unit), Shown(Round2(InUnit(mm, Other(x.unit)))))
  }

  /** Finishing the same edit twice gives what finishing it once gave. */
  lemma TextBoxesIdempotent(e: Entries, x: Edited)
    ensures TextBoxesUpdated(TextBoxesUpdated(e, x), x) == TextBoxesUpdated(e, x)
  {
    var r := TextBoxesUpdated(e, x);
    assert Box(r, x.dim, x.unit) == Box(e, x.dim, x.unit);
  }

  /** An edit in millimetres shows the inch value rounded to two places, and an edit in
      inches stores 25.4 times the inches. */
  lemma TextBoxConversions(e: Entries, d: Dim, t: real)
    ensures FieldValue(Box(e, d, Mm)) == Some(t) ==>
              var r := TextBoxesUpdated(e, Edited(d, Mm));
              SizeOf(r, d) == t && Box(r, d, In) == Shown(Round2(t / 25.4))
    ensures FieldValue(Box(e, d, In)) == Some(t) ==>
              var r := TextBoxesUpdated(e, Edited(d, In));
              SizeOf(r, d) == t * 25.4 && Box(r, d, Mm) == Shown(Round2(t * 25.4))
  {
  }

  /** Both sizes read from the millimetre boxes, as `update_values` needs them */
  predicate Readable(e: Entries) {
    FieldValue(e.heightMm).Some? && FieldValue(e.widthMm).Some?
  }

  // ---------------------------------------------------------------------------
  // The button grid

  /** The number of buttons in row a of the grid for n profiles */
  function RowLength(n: nat, a: nat): nat {
    if n <= 4 * a then 0 else if n - 4 * a < 4 then n - 4 * a else 4
  }

  /** The profile numbers each grid row holds: row a holds 4a+1, 4a+2, ... */
  predicate GridRow(row: seq<nat>, n: nat, a: nat) {
    |row| == RowLength(n, a) && forall b :: 0 <= b < |row| ==> row[b] == 4 * a + b + 1
  }

  /** The loops in `__init__` that lay out the vessel buttons, four to a row, numbering
      them with `button_index` */
  method ButtonGrid(n: nat) returns (rows: seq<seq<nat>>)
    ensures |rows| == (n + 3) / 4
    ensures forall a :: 0 <= a < |rows| ==> GridRow(rows[a], n, a) && 0 < |rows[a]| <= 4
  {
    var p := n / 4;
    if n % 4 != 0 {
      p := p + 1;
    }
    var buttonIndex := 1;
    rows := [];
    var i := 0;
    while i < p
      invariant 0 <= i <= p && p == (n + 3) / 4
      invariant buttonIndex == (if 4 * i < n then 4 * i else n) + 1
      invariant |rows| == i
      invariant forall a :: 0 <= a < i ==> GridRow(rows[a], n, a)
    {
      var row: seq<nat> := [];
      var j := 0;
      while j < 4
        invariant 0 <= j <= 4
        invariant buttonIndex == (if 4 * i + j < n then 4 * i + j else n) + 1
        invariant |row| == buttonIndex - 1 - 4 * i
        invariant forall b :: 0 <= b < |row| ==> row[b] == 4 * i + b + 1
      {
        if buttonIndex <= n {
          row := row + [buttonIndex];
          buttonIndex := buttonIndex + 1;
        }
        j := j + 1;
      }
      rows := rows + [row];
      i := i + 1;
    }
    forall a | 0 <= a < |rows|
      ensures 0 < |rows[a]| <= 4
    {
      assert 4 * a < n;
    }
  }

  /** Every profile 1..n has exactly one button: the one at row (k-1)/4, column (k-1)%4. */
  lemma GridHoldsEachProfileOnce(rows: seq<seq<nat>>, n: nat, k: nat)
    requires |rows| == (n + 3) / 4
    requires forall a :: 0 <= a < |rows| ==> GridRow(rows[a], n, a)
    requires 1 <= k <= n
    ensures (k - 1) / 4 < |rows| && (k - 1) % 4 < |rows[(k - 1) / 4]| && rows[(k - 1) / 4][(k - 1) % 4] == k
    ensures forall a, b :: 0 <= a < |rows| && 0 <= b < |rows[a]| && rows[a][b] == k ==>
                           a == (k - 1) / 4 && b == (k - 1) % 4
  {
    var a := (k - 1) / 4;
    assert GridRow(rows[a], n, a);
    forall a2, b2 | 0 <= a2 < |rows| && 0 <= b2 < |rows[a2]| && rows[a2][b2] == k
      ensures a2 == a && b2 == (k - 1) % 4
    {
      assert GridRow(rows[a2], n, a2);
      assert b2 < 4;
    }
  }

  // ---------------------------------------------------------------------------
  // The click on a profile button

  /** The document after the import: one object more, or the same when it raised */
  function Imported(objs: seq<DocObject>, imported: Result<DocObject>): seq<DocObject> {
    if imported.Ok? then Inserted(objs, imported.value) else objs
  }

  /** The image plane the scan finds and the sizes scaling gives it; Err when there is
      none or when a zero size is divided by */
  function ScaledImage(objs: seq<DocObject>, height: real, width: real, byHeight: bool): (r: Result<(nat, Fit)>)
    ensures r.Ok? ==> LastOfType(objs, ImagePlaneType) == Some(r.value.0) &&
                      Scale(SizesOf(objs[r.value.0]), height, width, byHeight) == Some(r.value.1)
    ensures r.Err? <==> LastOfType(objs, ImagePlaneType).None? ||
                        Scale(SizesOf(objs[LastOfType(objs, ImagePlaneType).value]), height, width, byHeight).None?
  {
    match LastOfType(objs, ImagePlaneType)
    case None => Err(NoImage)
    case Some(i) =>
      match Scale(SizesOf(objs[i]), height, width, byHeight)
      case None => Err(AddError)
      case Some(f) => Ok((i, f))
  }

  /** Image i resized to f and stood on the origin, then BowlHeight and BowlWidth of the
      document's var-set set to the new sizes */
  function VesselWritten(objs: seq<DocObject>, i: nat, f: Fit): seq<DocObject>
    requires i < |objs|
  {
    var sized := objs[i := Sized(objs[i], f, f.ySize)];
    var h := SetVarsetEffect(PlainCaller, true, sized, "BowlHeight", FloatValue(f.ySize));
    SetVarsetEffect(PlainCaller, true, h, "BowlWidth", FloatValue(f.xSize))
  }

  /** After a profile button: the image has the new sizes and stands upright on the
      origin, nothing else but properties changes, and BowlHeight and BowlWidth read back
      as the image's height and width wherever the var-set lists them. */
  lemma VesselWrittenFacts(objs: seq<DocObject>, i: nat, f: Fit)
    requires i < |objs|
    ensures var r := VesselWritten(objs, i, f);
            |r| == |objs| && SizesOf(r[i]) == f && BottomEdge(r[i]) == 0.0 &&
            r[i].placement.rotation == AboutX(90.0) &&
            (forall j :: 0 <= j < |objs| && j != i ==> r[j].(properties := objs[j].properties) == objs[j]) &&
            (GetVarsetValue(PlainCaller, true, objs, "BowlHeight").Some? ==>
               GetVarsetValue(PlainCaller, true, r, "BowlHeight") == Some(FloatValue(f.ySize))) &&
            (GetVarsetValue(PlainCaller, true, objs, "BowlWidth").Some? ==>
               GetVarsetValue(PlainCaller, true, r, "BowlWidth") == Some(FloatValue(f.xSize)))
  {
    var sized := objs[i := Sized(objs[i], f, f.ySize)];
    var h := SetVarsetEffect(PlainCaller, true, sized, "BowlHeight", FloatValue(f.ySize));
    assert Names(sized) == Names(objs);
    FindByNameSameNames(sized, objs, VarSetName);
    assert GetVarsetValue(PlainCaller, true, sized, "BowlHeight") == GetVarsetValue(PlainCaller, true, objs, "BowlHeight");
    assert GetVarsetValue(PlainCaller, true, sized, "BowlWidth") == GetVarsetValue(PlainCaller, true, objs, "BowlWidth");
    if GetVarsetValue(PlainCaller, true, objs, "BowlHeight").Some? {
      GetAfterSet(PlainCaller, true, sized, "BowlHeight", FloatValue(f.ySize));
    }
    SetChangesOnlyThatProperty(PlainCaller, true, sized, "BowlHeight", FloatValue(f.ySize), "BowlWidth");
    if GetVarsetValue(PlainCaller, true, objs, "BowlWidth").Some? {
      GetAfterSet(PlainCaller, true, h, "BowlWidth", FloatValue(f.xSize));
    }
    SetChangesOnlyThatProperty(PlainCaller, true, h, "BowlWidth", FloatValue(f.xSize), "BowlHeight");
  }

  // ---------------------------------------------------------------------------
  // The Browse path (`_add_and_scale_vase`)

  /** The browsed image as written: scaled like a bundled one, but placed for
      `svg_height`, which a width scaling leaves at the typed height */
  function BrowsedImageAsWritten(o: DocObject, height: real, width: real, byHeight: bool): Option<DocObject> {
    match Scale(SizesOf(o), height, width, byHeight)
    case None => None
    case Some(f) => Some(Sized(o, f, height))
  }

  /** Scaled by width, a browsed 50 x 100 image asked to be 254 high and 100 wide becomes
      100 x 200 but is centred at 127, so its lower edge floats 27 above the origin. */
  lemma BrowsedWidthScalingFloats(o: DocObject)
    requires o.xSize == 50.0 && o.ySize == 100.0
    ensures var s := BrowsedImageAsWritten(o, 254.0, 100.0, false);
            s.Some? && SizesOf(s.value) == Fit(100.0, 200.0) && BottomEdge(s.value) == 27.0
  {
  }

  /** The browsed image placed for its own new height */
  function BrowsedImage(o: DocObject, height: real, width: real, byHeight: bool): (s: Option<DocObject>)
    ensures s.None? <==> Scale(SizesOf(o), height, width, byHeight).None?
    ensures s.Some? ==> SizesOf(s.value) == Scale(SizesOf(o), height, width, byHeight).value &&
                        s.value.(xSize := o.xSize, ySize := o.ySize, placement := o.placement) == o
  {
    match Scale(SizesOf(o), height, width, byHeight)
    case None => None
    case Some(f) => Some(Sized(o, f, f.ySize))
  }

  /** Every browsed image stands on the origin, keeps its aspect ratio and has the size
      asked for; by height it is placed exactly as written. */
  lemma BrowsedImageStandsOnOrigin(o: DocObject, height: real, width: real, byHeight: bool)
    requires BrowsedImage(o, height, width, byHeight).Some?
    ensures var s := BrowsedImage(o, height, width, byHeight).value;
            BottomEdge(s) == 0.0 && s.xSize * o.ySize == o.xSize * s.ySize &&
            ((byHeight || width == 0.0) ==> s.ySize == height && BrowsedImageAsWritten(o, height, width, byHeight) == Some(s)) &&
            (!byHeight && width != 0.0 ==> s.xSize == width)
  {
    var f := Scale(SizesOf(o), height, width, byHeight).value;
    ScaleKeepsAspect(SizesOf(o), height, width, byHeight);
    SizedStandsOnOrigin(o, f);
  }

  /** A browsed image leaves the var-set alone: the var-set is not an image plane, so
      BowlHeight and BowlWidth stay as they were. */
  lemma BrowsingKeepsBowlVariables(objs: seq<DocObject>, i: nat, s: DocObject, prop: string)
    requires i < |objs| && s.name == objs[i].name && s.properties == objs[i].properties
    ensures GetVarsetValue(PlainCaller, true, objs[i := s], prop) == GetVarsetValue(PlainCaller, true, objs, prop)
  {
    assert Names(objs[i := s]) == Names(objs);
    FindByNameSameNames(objs[i := s], objs, VarSetName);
  }

  /** The document and the outcome of `_add_and_scale_vase`: an unreadable box or a
      failed import is caught before anything changes; a missing image plane or a zero
      size leaves the import in place. */
  function AddedAndScaled(objs: seq<DocObject>, e: Entries, heightChecked: bool, imported: Result<DocObject>)
    : (r: (seq<DocObject>, Result<nat>))
    ensures r.1.Ok? ==> Readable(e) && imported.Ok? &&
                        LastOfType(Inserted(objs, imported.value), ImagePlaneType) == Some(r.1.value)
  {
    if !Readable(e) || imported.Err? then (objs, Err(ScaleError))
    else
      var after := Inserted(objs, imported.value);
      match LastOfType(after, ImagePlaneType)
      case None => (after, Err(NoImage))
      case Some(i) =>
        match BrowsedImage(after[i], FieldValue(e.heightMm).value, FieldValue(e.widthMm).value, heightChecked)
        case None => (after, Err(ScaleError))
        case Some(s) => (after[i := s], Ok(i))
  }

  /** A browsed profile is the last image plane after the import, standing on the origin,
      and the var-set's BowlHeight and BowlWidth are not written. */
  lemma BrowsingPlacesImageOnly(objs: seq<DocObject>, e: Entries, heightChecked: bool, imported: Result<DocObject>, prop: string)
    requires Readable(e) && imported.Ok?
    ensures var r := AddedAndScaled(objs, e, heightChecked, imported);
            var after := Inserted(objs, imported.value);
            |r.0| == |after| &&
            GetVarsetValue(PlainCaller, true, r.0, prop) == GetVarsetValue(PlainCaller, true, after, prop) &&
            (r.1.Ok? ==> r.1.value < |r.0| && r.0[r.1.value].typeId == ImagePlaneType && BottomEdge(r.0[r.1.value]) == 0.0 &&
                         (imported.value.typeId == ImagePlaneType ==> r.1.value == |objs|))
  {
    var after := Inserted(objs, imported.value);
    InsertedImageIsFound(objs, imported.value);
    var r := AddedAndScaled(objs, e, heightChecked, imported);
    if r.1.Ok? {
      var i := r.1.value;
      var h := FieldValue(e.heightMm).value;
      var w := FieldValue(e.widthMm).value;
      var s := BrowsedImage(after[i], h, w, heightChecked).value;
      assert r.0 == after[i := s];
      BrowsedImageStandsOnOrigin(after[i], h, w, heightChecked);
      BrowsingKeepsBowlVariables(after, i, s, prop);
    }
  }

  // ---------------------------------------------------------------------------
  // Deleting the profiles

  predicate IsVaseName(name: string) {
    StartsWith(Lower(name), "vase")
  }

  /** The objects whose Name does not start with "vase" in any case, in order */
  function WithoutVases(objs: seq<DocObject>): (r: seq<DocObject>)
    ensures |r| <= |objs|
  {
    if |objs| == 0 then []
    else
      var last := objs[|objs| - 1];
      WithoutVases(objs[..|objs| - 1]) + (if IsVaseName(last.name) then [] else [last])
  }

  /** Deleting keeps exactly the objects whose Name does not start with "vase", and
      removes all the others. */
  lemma {:induction false} WithoutVasesKeeps(objs: seq<DocObject>)
    ensures forall o :: o in WithoutVases(objs) <==> o in objs && !IsVaseName(o.name)
  {
    if |objs| > 0 {
      var init := objs[..|objs| - 1];
      WithoutVasesKeeps(init);
      assert objs == init + [objs[|objs| - 1]];
    }
  }

  /** Deleting twice deletes nothing more. */
  lemma {:induction false} WithoutVasesIdempotent(objs: seq<DocObject>)
    ensures WithoutVases(WithoutVases(objs)) == WithoutVases(objs)
  {
    if |objs| > 0 {
      var init := objs[..|objs| - 1];
      var last := objs[|objs| - 1];
      WithoutVasesIdempotent(init);
      var w := WithoutVases(init);
      assert WithoutVases(objs) == w + (if IsVaseName(last.name) then [] else [last]);
      if !IsVaseName(last.name) {
        var wl := w + [last];
        assert wl[..|wl| - 1] == w && wl[|wl| - 1] == last;
        assert WithoutVases(wl) == WithoutVases(w) + [last];
      } else {
        assert w + [] == w;
      }
    }
  }

  lemma WithoutVasesStep(s: seq<DocObject>, k: nat)
    requires k < |s|
    ensures WithoutVases(s[..k + 1]) == WithoutVases(s[..k]) + (if IsVaseName(s[k].name) then [] else [s[k]])
  {
    assert s[..k + 1][..k] == s[..k];
  }

  /** Removing the first of the objects still to visit */
  lemma RemoveNext(w: seq<DocObject>, s: seq<DocObject>, k: nat)
    requires k < |s|
    ensures var d := w + s[k..];
            |w| < |d| && d[|w|] == s[k] && d[..|w|] + d[|w| + 1..] == w + s[k + 1..] &&
            d == (w + [s[k]]) + s[k + 1..]
  {
    var d := w + s[k..];
    assert d[..|w|] == w;
    assert d[|w| + 1..] == s[k + 1..];
  }

  /** Opening the panel: without a document its construction raises; the var-set is
      created with the defaults when the document has none. */
  method OpenPanel(doc: Document, hasDoc: bool) returns (r: Result<AddVesselPanel>)
    requires doc.Valid()
    modifies doc
    ensures doc.Valid()
    ensures !hasDoc ==> r == Err(PanelError) && doc.objects == old(doc.objects)
    ensures hasDoc ==> r.Ok? && fresh(r.value) && r.value.Valid() &&
                       r.value.EntriesOf() == DefaultEntries() &&
                       doc.objects == (if FindByName(old(doc.objects), VarSetName).Some? then old(doc.objects)
                                       else old(doc.objects) + [NewObject(VarSetType, VarSetName).(properties := DefaultVariables())])
  {
    if !hasDoc {
      return Err(PanelError);
    }
    if FindByName(doc.objects, VarSetName).None? {
      NameAbsent(doc.objects, VarSetName);
      var v := doc.AddObject(VarSetType, VarSetName);
      doc.SetObject(v, doc.objects[v].(properties := DefaultVariables()));
    }
    var grid := ButtonGrid(VesselCount);
    var panel := new AddVesselPanel(grid);
    return Ok(panel);
  }

  /** The panel's starting sizes 254 x 100 mm, the inch boxes showing 10.0 and 3.94 */
  function DefaultEntries(): Entries {
    Entries(254.0, 100.0, Typed("254"), Typed("100"), Shown(Round2(254.0 / 25.4)), Shown(Round2(100.0 / 25.4)))
  }

  lemma DefaultInches()
    ensures DefaultEntries().heightIn == Shown(10.0) && DefaultEntries().widthIn == Shown(3.94)
  {
    assert RoundHalfEven(254.0 / 25.4 * 100.0) == 1000 by {
      assert 254.0 / 25.4 * 100.0 == 1000.0;
      WholeNumbers(1000);
    }
    assert RoundHalfEven(100.0 / 25.4 * 100.0) == 394 by {
      RoundHalfEvenNearest(100.0 / 25.4 * 100.0, 394);
    }
  }

  class AddVesselPanel {
    var svgHeight: real
    var svgWidth: real
    var scaleByY: bool
    var heightMm: Field
    var widthMm: Field
    var heightIn: Field
    var widthIn: Field
    /** The vessel buttons, row by row, each holding the profile number it loads */
    const buttons: seq<seq<nat>>

    ghost predicate Valid()
      reads this
    {
      |buttons| == (VesselCount + 3) / 4 &&
      forall a :: 0 <= a < |buttons| ==> GridRow(buttons[a], VesselCount, a)
    }

    function EntriesOf(): Entries
      reads this
    {
      Entries(svgHeight, svgWidth, heightMm, widthMm, heightIn, widthIn)
    }

    constructor(grid: seq<seq<nat>>)
      requires |grid| == (VesselCount + 3) / 4
      requires forall a :: 0 <= a < |grid| ==> GridRow(grid[a], VesselCount, a)
      ensures Valid() && EntriesOf() == DefaultEntries() && scaleByY
    {
      svgHeight := 254.0;
      svgWidth := 100.0;
      heightMm := Typed("254");
      widthMm := Typed("100");
      heightIn := Shown(Round2(254.0 / 25.4));
      widthIn := Shown(Round2(100.0 / 25.4));
      scaleByY := true;
      buttons := grid;
    }

    /** The file the button at row a, column b loads */
    function ButtonFile(a: nat, b: nat): string
      requires Valid() && a < |buttons| && b < |buttons[a]|
      reads this
    {
      VaseFile(buttons[a][b])
    }

    /** `update_text_boxes(source)` */
    method UpdateTextBoxes(x: Edited)
      modifies this`svgHeight, this`svgWidth, this`heightMm, this`widthMm, this`heightIn, this`widthIn
      ensures EntriesOf() == TextBoxesUpdated(old(EntriesOf()), x)
    {
      var typed := FieldValue(Box(EntriesOf(), x.dim, x.unit));
      if typed.None? {
        return;
      }
      var mm := if x.unit == Mm then typed.value else typed.value * MmPerInch;
      var shown := Shown(Round2(InUnit(mm, Other(x.unit))));
      if x.dim == Height {
        svgHeight := mm;
        if x.unit == Mm { heightIn := shown; } else { heightMm := shown; }
      } else {
        svgWidth := mm;
        if x.unit == Mm { widthIn := shown; } else { widthMm := shown; }
      }
    }

    /** `update_values`: height, then width, then the radio button; a box that is not a
        number raises there, after the earlier assignments. */
    method UpdateValues(heightChecked: bool) returns (r: Result<()>)
      modifies this`svgHeight, this`svgWidth, this`scaleByY
      ensures r.Ok? <==> Readable(EntriesOf())
      ensures r.Err? ==> r.message == NotANumber && scaleByY == old(scaleByY) &&
                         svgHeight == FieldValue(heightMm).GetOr(old(svgHeight)) && svgWidth == old(svgWidth)
      ensures r.Ok? ==> svgHeight == FieldValue(heightMm).value && svgWidth == FieldValue(widthMm).value &&
                        scaleByY == heightChecked
    {
      var h := FieldValue(heightMm);
      if h.None? {
        return Err(NotANumber);
      }
      svgHeight := h.value;
      var w := FieldValue(widthMm);
      if w.None? {
        return Err(NotANumber);
      }
      svgWidth := w.value;
      scaleByY := heightChecked;
      r := Ok(());
    }

    /** `bt_add_vessel_clicked`: `imported` is what the importer does with the bundled
        file, appending an object or raising. The scaled sizes become the panel's sizes,
        the var-set's BowlHeight and BowlWidth and all four boxes. */
    method BtAddVesselClicked(doc: Document, heightChecked: bool, imported: Result<DocObject>) returns (r: Result<nat>)
      requires doc.Valid()
      modifies doc, this`svgHeight, this`svgWidth, this`scaleByY, this`heightMm, this`widthMm, this`heightIn, this`widthIn
      ensures doc.Valid()
      ensures !Readable(old(EntriesOf())) ==>
                r == Err(NotANumber) && doc.objects == old(doc.objects) && scaleByY == old(scaleByY) &&
                EntriesOf() == old(EntriesOf()).(height := FieldValue(old(heightMm)).GetOr(old(svgHeight)))
      ensures Readable(old(EntriesOf())) ==> scaleByY == heightChecked
      ensures Readable(old(EntriesOf())) && imported.Err? ==>
                r == Err(AddError) && doc.objects == old(doc.objects) &&
                EntriesOf() == old(EntriesOf()).(height := FieldValue(old(heightMm)).value, width := FieldValue(old(widthMm)).value)
      ensures Readable(old(EntriesOf())) && imported.Ok? ==>
                var after := Inserted(old(doc.objects), imported.value);
                var s := ScaledImage(after, FieldValue(old(heightMm)).value, FieldValue(old(widthMm)).value, heightChecked);
                (s.Err? ==> r.Err? && doc.objects == after &&
                            EntriesOf() == old(EntriesOf()).(height := FieldValue(old(heightMm)).value,
                                                             width := FieldValue(old(widthMm)).value)) &&
                (s.Ok? ==> r == Ok(s.value.0) && doc.objects == VesselWritten(after, s.value.0, s.value.1) &&
                           EntriesOf() == Entries(s.value.1.ySize, s.value.1.xSize,
                                                  Shown(Round2(s.value.1.ySize)), Shown(Round2(s.value.1.xSize)),
                                                  Shown(Round2(s.value.1.ySize / 25.4)), Shown(Round2(s.value.1.xSize / 25.4))))
    {
      var u := UpdateValues(heightChecked);
      if u.Err? {
        return Err(u.message);
      }
      if imported.Err? {
        return Err(AddError);
      }
      assert EntriesOf() == old(EntriesOf()).(height := FieldValue(old(heightMm)).value,
                                              width := FieldValue(old(widthMm)).value);
      r := PlaceImported(doc, imported.value);
    }

    /** The tail of `bt_add_vessel_clicked` once both boxes were read: the image goes in,
        is scaled to the panel's sizes, written back with BowlHeight and BowlWidth, and the
        boxes show its new sizes; when no image or no scale is found nothing else changes. */
    method PlaceImported(doc: Document, o: DocObject) returns (r: Result<nat>)
      requires doc.Valid()
      modifies doc, this`svgHeight, this`svgWidth, this`heightMm, this`widthMm, this`heightIn, this`widthIn
      ensures doc.Valid()
      ensures var after := Inserted(old(doc.objects), o);
              var s := ScaledImage(after, old(svgHeight), old(svgWidth), scaleByY);
              (s.Err? ==> r.Err? && doc.objects == after && EntriesOf() == old(EntriesOf())) &&
              (s.Ok? ==> r == Ok(s.value.0) && doc.objects == VesselWritten(after, s.value.0, s.value.1) &&
                         EntriesOf() == Entries(s.value.1.ySize, s.value.1.xSize,
                                                Shown(Round2(s.value.1.ySize)), Shown(Round2(s.value.1.xSize)),
                                                Shown(Round2(s.value.1.ySize / 25.4)), Shown(Round2(s.value.1.xSize / 25.4))))
    {
      var s := ImportAndScale(doc, o, svgHeight, svgWidth, scaleByY);
      if s.Err? {
        return Err(s.message);
      }
      var i := s.value.0;
      var f := s.value.1;
      WriteBack(doc, i, f);
      ShowSizes(f);
      r := Ok(i);
    }

    /** The panel takes the image's new sizes and shows them in all four boxes. */
    method ShowSizes(f: Fit)
      modifies this`svgHeight, this`svgWidth, this`heightMm, this`widthMm, this`heightIn, this`widthIn
      ensures EntriesOf() == Entries(f.ySize, f.xSize, Shown(Round2(f.ySize)), Shown(Round2(f.xSize)),
                                     Shown(Round2(f.ySize / 25.4)), Shown(Round2(f.xSize / 25.4)))
    {
      svgHeight := f.ySize;
      svgWidth := f.xSize;
      widthMm := Shown(Round2(svgWidth));
      heightMm := Shown(Round2(svgHeight));
      widthIn := Shown(Round2(svgWidth / MmPerInch));
      heightIn := Shown(Round2(svgHeight / MmPerInch));
    }

    /** `_add_and_scale_vase`, placing the image for its scaled height; the panel's sizes
        are read again from the boxes, which it leaves as they were. */
    method AddAndScaleVase(doc: Document, heightChecked: bool, imported: Result<DocObject>) returns (r: Result<nat>)
      requires doc.Valid()
      modifies doc, this`svgHeight, this`svgWidth, this`scaleByY
      ensures doc.Valid()
      ensures (doc.objects, r) == AddedAndScaled(old(doc.objects), old(EntriesOf()), heightChecked, imported)
      ensures Readable(old(EntriesOf())) ==>
                svgHeight == FieldValue(heightMm).value && svgWidth == FieldValue(widthMm).value &&
                scaleByY == heightChecked
      ensures !Readable(old(EntriesOf())) ==>
                svgHeight == FieldValue(heightMm).GetOr(old(svgHeight)) && svgWidth == old(svgWidth) &&
                scaleByY == old(scaleByY)
      ensures heightMm == old(heightMm) && widthMm == old(widthMm) && heightIn == old(heightIn) && widthIn == old(widthIn)
    {
      var u := UpdateValues(heightChecked);
      if u.Err? || imported.Err? {
        return Err(ScaleError);
      }
      var s := ImportAndScale(doc, imported.value, svgHeight, svgWidth, scaleByY);
      if s.Err? {
        return Err(if s.message == NoImage then NoImage else ScaleError);
      }
      var i := s.value.0;
      var f := s.value.1;
      ResizeImage(doc, i, f, f.ySize);
      u := UpdateValues(heightChecked);
      r := Ok(i);
    }

    /** `bt_browse_vase`: `chosen` is the dialog's answer ("" when cancelled) and
        `fileExists` whether that file exists. */
    method BtBrowseVase(doc: Document, chosen: string, fileExists: bool, heightChecked: bool, imported: Result<DocObject>)
      returns (r: Result<nat>)
      requires doc.Valid()
      modifies doc, this`svgHeight, this`svgWidth, this`scaleByY
      ensures doc.Valid()
      ensures chosen == "" ==> r == Err(Cancelled) && doc.objects == old(doc.objects) && EntriesOf() == old(EntriesOf()) &&
                                scaleByY == old(scaleByY)
      ensures chosen != "" && !fileExists ==>
                r == Err(FileNotFound) && doc.objects == old(doc.objects) && EntriesOf() == old(EntriesOf()) &&
                scaleByY == old(scaleByY)
      ensures chosen != "" && fileExists ==>
                (doc.objects, r) == AddedAndScaled(old(doc.objects), old(EntriesOf()), heightChecked, imported)
    {
      if chosen == "" {
        return Err(Cancelled);
      }
      if !fileExists {
        return Err(FileNotFound);
      }
      r := AddAndScaleVase(doc, heightChecked, imported);
    }
  }

  /** The import, the scan for the last image plane and the scaling it asks for */
  method ImportAndScale(doc: Document, o: DocObject, height: real, width: real, byHeight: bool) returns (r: Result<(nat, Fit)>)
    requires doc.Valid()
    modifies doc
    ensures doc.Valid()
    ensures doc.objects == Inserted(old(doc.objects), o)
    ensures r == ScaledImage(doc.objects, height, width, byHeight)
    ensures r.Ok? ==> r.value.0 < |doc.objects|
  {
    var _ := InsertImage(doc, o);
    var found := FindImagePlane(doc.objects);
    if found.None? {
      return Err(NoImage);
    }
    var f := Scale(SizesOf(doc.objects[found.value]), height, width, byHeight);
    if f.None? {
      return Err(AddError);
    }
    r := Ok((found.value, f.value));
  }

  /** The objects once the first k of the snapshot have been visited, `kept` of them
      still there */
  ghost predicate DeletedUpTo(objs: seq<DocObject>, snapshot: seq<DocObject>, k: nat, kept: nat)
    requires k <= |snapshot|
  {
    kept == |WithoutVases(snapshot[..k])| && objs == WithoutVases(snapshot[..k]) + snapshot[k..]
  }

  /** One pass of the delete loop: `doc.removeObject(obj.Name)` for a vase-named object.
      Its Name is unique, so it is the object at index `kept`. */
  method VisitForDelete(doc: Document, snapshot: seq<DocObject>, k: nat, kept: nat) returns (kept': nat)
    requires doc.Valid() && k < |snapshot| && DeletedUpTo(doc.objects, snapshot, k, kept)
    modifies doc
    ensures doc.Valid() && DeletedUpTo(doc.objects, snapshot, k + 1, kept')
  {
    WithoutVasesStep(snapshot, k);
    RemoveNext(WithoutVases(snapshot[..k]), snapshot, k);
    if IsVaseName(snapshot[k].name) {
      doc.RemoveObject(kept);
      kept' := kept;
    } else {
      kept' := kept + 1;
    }
  }

  /** Resizes and places image i for its new height, then writes BowlHeight and
      BowlWidth through the document's var-set */
  method WriteBack(doc: Document, i: nat, f: Fit)
    requires doc.Valid() && i < |doc.objects|
    modifies doc
    ensures doc.Valid()
    ensures doc.objects == VesselWritten(old(doc.objects), i, f)
  {
    ResizeImage(doc, i, f, f.ySize);
    SetVarsetValue(doc, PlainCaller, true, "BowlHeight", FloatValue(f.ySize));
    SetVarsetValue(doc, PlainCaller, true, "BowlWidth", FloatValue(f.xSize));
  }

  /** `bt_delete_vase`: walks the objects as they were and removes each one whose Name
      starts with "vase" in any case. */
  method DeleteVases(doc: Document)
    requires doc.Valid()
    modifies doc
    ensures doc.Valid()
    ensures doc.objects == WithoutVases(old(doc.objects))
  {
    var snapshot := doc.objects;
    var kept := 0;
    var k := 0;
    while k < |snapshot|
      invariant 0 <= k <= |snapshot|
      invariant doc.Valid()
      invariant DeletedUpTo(doc.objects, snapshot, k, kept)
    {
      kept := VisitForDelete(doc, snapshot, k, kept);
      k := k + 1;
    }
    assert snapshot[..k] == snapshot;
  }
}
