/** The "segment spreadsheet" command: a new spreadsheet listing every object whose
    Label contains "Segment", one row per object in Label order, with the bounding
    box in millimetres (width and end length rounded up) and in inches. */
module SegmentSpreadsheet {
  import opened Wrappers
  import opened Numbers
  import opened Text
  import opened Doc
  import opened Sorting
  import opened VarSet

  const SheetType := "Spreadsheet::Sheet"
  /** The Name the script asks for. The host turns the spaces of an object Name into
      underscores, so the sheet is found as `Segment_Dimension_Spreadsheet`; the model
      keeps the Name as asked for, and its Label is the same text. */
  const SheetName := "Segment Dimension Spreadsheet"
  const SegmentWord := "Segment"
  const NoDocument := "No active document found"
  const MissingVariable := "AttributeError"
  const FirstDataRow := 6
  const MmPerInch := 25.4
  const Millimetres := "mm"
  const Inches := "\""
  const NoUnit := ""
  /** The columns of a data row: the Label, three millimetre and three inch columns */
  const Columns := "ABCDEFG"

  /** What `spreadsheet.set` puts in a cell: a text, a number printed with `:.2f`,
      or `str()` of a property value */
  datatype Content = Text(s: string) | Fixed2(v: real) | ValueText(value: Value)

  /** A cell's content and its display unit ("" for none) */
  datatype Cell = Cell(content: Content, unit: string)

  /** The spreadsheet the command fills, cell by cell */
  class Sheet {
    var cells: map<string, Cell>

    constructor ()
      ensures cells == map[]
    {
      cells := map[];
    }

    /** `spreadsheet.set(name, text)` followed, where the command does, by
        `setDisplayUnit` on the same cell */
    method Set(name: string, c: Cell)
      modifies this
      ensures cells == old(cells)[name := c]
    {
      cells := cells[name := c];
    }
  }

  /** The cell address `f"{col}{row}"` */
  function CellName(col: char, row: nat): (r: string)
    ensures |r| > 1 && r[0] == col
  {
    [col] + NatToString(row)
  }

  /** Two different cells have different addresses. */
  lemma CellNamesDiffer(c1: char, r1: nat, c2: char, r2: nat)
    requires c1 != c2 || r1 != r2
    ensures CellName(c1, r1) != CellName(c2, r2)
  {
    if c1 == c2 {
      assert CellName(c1, r1)[1..] == NatToString(r1);
      assert CellName(c2, r2)[1..] == NatToString(r2);
      NatToStringValue(r1);
      NatToStringValue(r2);
    }
  }

  /** `"Segment" in obj.Label` */
  function SegmentTest(): DocObject -> bool {
    (o: DocObject) => Contains(o.labelText, SegmentWord)
  }

  /** What reading `obj.Shape.BoundBox` gives: the object has no Shape attribute,
      the box's extents, or an exception. The geometry kernel computes the box; the
      model takes it as given. */
  datatype Measure = NoShapeAttribute | Bounds(xLength: real, yLength: real, zLength: real) | Raises

  /** One entry of `object_data`: the Label, the rounded-up width and end length,
      and the thickness */
  datatype Row = Row(labelText: string, x: int, y: int, z: real)

  /** The entry for one object, None when reading it raises */
  function RowOf(o: DocObject, m: Measure): (r: Option<Row>)
    ensures r.None? <==> m.Raises?
    ensures r.Some? ==> r.value.labelText == o.labelText
    ensures m.NoShapeAttribute? ==> r == Some(Row(o.labelText, 0, 0, 0.0))
    ensures m.Bounds? ==> r.value.z == m.zLength &&
                          r.value.x as real - 1.0 < m.xLength <= r.value.x as real &&
                          r.value.y as real - 1.0 < m.yLength <= r.value.y as real
  {
    match m
    case NoShapeAttribute => Some(Row(o.labelText, 0, 0, 0.0))
    case Bounds(x, y, z) => Some(Row(o.labelText, Ceil(x), Ceil(y), z))
    case Raises => None
  }

  predicate InRange(segs: seq<nat>, objs: seq<DocObject>) {
    forall k :: 0 <= k < |segs| ==> segs[k] < |objs|
  }

  /** The entries for the first n segment objects, skipping those that raise */
  function RowsUpTo(objs: seq<DocObject>, segs: seq<nat>, measure: DocObject -> Measure, n: nat): (r: seq<Row>)
    requires n <= |segs| && InRange(segs, objs)
    ensures |r| <= n
  {
    if n == 0 then []
    else
      var o := objs[segs[n - 1]];
      RowsUpTo(objs, segs, measure, n - 1) +
      (match RowOf(o, measure(o)) case Some(row) => [row] case None => [])
  }

  /** The loop that reads every segment object */
  method CollectRows(objs: seq<DocObject>, segs: seq<nat>, measure: DocObject -> Measure) returns (rows: seq<Row>)
    requires InRange(segs, objs)
    ensures rows == RowsUpTo(objs, segs, measure, |segs|)
  {
    rows := [];
    var i := 0;
    while i < |segs|
      invariant 0 <= i <= |segs|
      invariant rows == RowsUpTo(objs, segs, measure, i)
    {
      var o := objs[segs[i]];
      var row := RowOf(o, measure(o));
      if row.Some? {
        rows := rows + [row.value];
      }
      i := i + 1;
    }
  }

  /** Every entry carries the Label of one of the segment objects. */
  lemma {:induction false} RowsFromSegments(objs: seq<DocObject>, segs: seq<nat>, measure: DocObject -> Measure, n: nat)
    requires n <= |segs| && InRange(segs, objs)
    ensures forall row :: row in RowsUpTo(objs, segs, measure, n) ==>
              exists k :: 0 <= k < n && row.labelText == objs[segs[k]].labelText
  {
    if n > 0 {
      RowsFromSegments(objs, segs, measure, n - 1);
      var prev := RowsUpTo(objs, segs, measure, n - 1);
      forall row | row in RowsUpTo(objs, segs, measure, n)
        ensures exists k :: 0 <= k < n && row.labelText == objs[segs[k]].labelText
      {
        if row !in prev {
          assert row.labelText == objs[segs[n - 1]].labelText;
        }
      }
    }
  }

  /** When no read raises there is one entry per segment object, in order. */
  lemma {:induction false} RowsWhenNoneRaise(objs: seq<DocObject>, segs: seq<nat>, measure: DocObject -> Measure, n: nat)
    requires n <= |segs| && InRange(segs, objs)
    requires forall k :: 0 <= k < n ==> !measure(objs[segs[k]]).Raises?
    ensures |RowsUpTo(objs, segs, measure, n)| == n
    ensures forall k :: 0 <= k < n ==>
              Some(RowsUpTo(objs, segs, measure, n)[k]) == RowOf(objs[segs[k]], measure(objs[segs[k]]))
  {
    if n > 0 {
      RowsWhenNoneRaise(objs, segs, measure, n - 1);
      var prev := RowsUpTo(objs, segs, measure, n - 1);
      var o := objs[segs[n - 1]];
      assert RowsUpTo(objs, segs, measure, n) == prev + [RowOf(o, measure(o)).value];
    }
  }

  /** `object_data.sort(key=lambda x: x[0])` */
  function ByLabel(): (Row, Row) -> bool {
    (a: Row, b: Row) => StrLe(a.labelText, b.labelText)
  }

  lemma ByLabelIsTotalPreorder()
    ensures TotalPreorder(ByLabel())
  {
    forall a: Row, b: Row ensures ByLabel()(a, b) || ByLabel()(b, a) {
      StrLeTotal(a.labelText, b.labelText);
    }
    forall a: Row, b: Row, c: Row | ByLabel()(a, b) && ByLabel()(b, c)
      ensures ByLabel()(a, c)
    {
      StrLeTrans(a.labelText, b.labelText, c.labelText);
    }
  }

  /** The cells of data row `row` for one entry. The inch columns hold the
      millimetre figures divided by 25.4. The sheet gains exactly the seven cells of
      that row. */
  function WithRow(cells: map<string, Cell>, row: nat, r: Row): (w: map<string, Cell>)
    ensures w.Keys == cells.Keys + set c | c in Columns :: CellName(c, row)
  {
    cells[CellName('A', row) := Cell(Text(r.labelText), NoUnit)]
         [CellName('B', row) := Cell(Fixed2(r.x as real), Millimetres)]
         [CellName('C', row) := Cell(Fixed2(r.y as real), Millimetres)]
         [CellName('D', row) := Cell(Fixed2(r.z), Millimetres)]
         [CellName('E', row) := Cell(Fixed2(r.x as real / MmPerInch), Inches)]
         [CellName('F', row) := Cell(Fixed2(r.y as real / MmPerInch), Inches)]
         [CellName('G', row) := Cell(Fixed2(r.z / MmPerInch), Inches)]
  }

  /** The sheet once the first n entries are written, from row 6 down */
  function WrittenUpTo(base: map<string, Cell>, rows: seq<Row>, n: nat): map<string, Cell>
    requires n <= |rows|
  {
    if n == 0 then base else WithRow(WrittenUpTo(base, rows, n - 1), FirstDataRow + n - 1, rows[n - 1])
  }

  /** The loop that writes the sorted entries */
  method WriteRows(sheet: Sheet, rows: seq<Row>) returns (row: nat)
    modifies sheet
    ensures sheet.cells == WrittenUpTo(old(sheet.cells), rows, |rows|)
    ensures row == FirstDataRow + |rows|
  {
    ghost var base := sheet.cells;
    row := FirstDataRow;
    var k := 0;
    while k < |rows|
      invariant 0 <= k <= |rows| && row == FirstDataRow + k
      invariant sheet.cells == WrittenUpTo(base, rows, k)
    {
      var r := rows[k];
      sheet.Set(CellName('A', row), Cell(Text(r.labelText), NoUnit));
      sheet.Set(CellName('B', row), Cell(Fixed2(r.x as real), Millimetres));
      sheet.Set(CellName('C', row), Cell(Fixed2(r.y as real), Millimetres));
      sheet.Set(CellName('D', row), Cell(Fixed2(r.z), Millimetres));
      sheet.Set(CellName('E', row), Cell(Fixed2(r.x as real / MmPerInch), Inches));
      sheet.Set(CellName('F', row), Cell(Fixed2(r.y as real / MmPerInch), Inches));
      sheet.Set(CellName('G', row), Cell(Fixed2(r.z / MmPerInch), Inches));
      row := row + 1;
      k := k + 1;
    }
  }

  /** Writing one data row leaves every cell outside that row as it was. */
  lemma WithRowKeeps(cells: map<string, Cell>, row: nat, r: Row, col: char, other: nat)
    requires other != row
    ensures var name := CellName(col, other);
            (name in WithRow(cells, row, r) <==> name in cells) &&
            (name in cells ==> WithRow(cells, row, r)[name] == cells[name])
  {
    forall c | c in Columns ensures CellName(col, other) != CellName(c, row) {
      CellNamesDiffer(col, other, c, row);
    }
  }

  /** The cells one data row holds: its Label, its millimetre figures and its inch
      figures, each with its display unit. */
  lemma RowCellsHold(cells: map<string, Cell>, row: nat, r: Row)
    ensures var w := WithRow(cells, row, r);
            w[CellName('A', row)] == Cell(Text(r.labelText), NoUnit) &&
            w[CellName('B', row)] == Cell(Fixed2(r.x as real), Millimetres) &&
            w[CellName('C', row)] == Cell(Fixed2(r.y as real), Millimetres) &&
            w[CellName('D', row)] == Cell(Fixed2(r.z), Millimetres) &&
            w[CellName('E', row)].content.Fixed2? && w[CellName('E', row)].unit == Inches &&
            w[CellName('F', row)].content.Fixed2? && w[CellName('F', row)].unit == Inches &&
            w[CellName('G', row)].content.Fixed2? && w[CellName('G', row)].unit == Inches &&
            w[CellName('E', row)].content.v * MmPerInch == r.x as real &&
            w[CellName('F', row)].content.v * MmPerInch == r.y as real &&
            w[CellName('G', row)].content.v * MmPerInch == r.z
  {
  }

  /** Later rows leave the cells of data row 6 + k as step k wrote them. */
  lemma {:induction false} WrittenRowStays(base: map<string, Cell>, rows: seq<Row>, n: nat, k: nat, c: char)
    requires k < n <= |rows|
    ensures var row := FirstDataRow + k;
            var w := WrittenUpTo(base, rows, k + 1);
            CellName(c, row) in w ==>
              CellName(c, row) in WrittenUpTo(base, rows, n) &&
              WrittenUpTo(base, rows, n)[CellName(c, row)] == w[CellName(c, row)]
  {
    if n > k + 1 {
      WrittenRowStays(base, rows, n - 1, k, c);
      WithRowKeeps(WrittenUpTo(base, rows, n - 1), FirstDataRow + n - 1, rows[n - 1], c, FirstDataRow + k);
    }
  }

  /** After the loop, data row 6 + k holds entry k: its Label, its millimetre figures
      and its inch figures (the millimetre figures over 25.4), each with its display
      unit. */
  lemma DataRowHolds(base: map<string, Cell>, rows: seq<Row>, k: nat)
    requires k < |rows|
    ensures var cells := WrittenUpTo(base, rows, |rows|);
            var row, r := FirstDataRow + k, rows[k];
            CellName('A', row) in cells && cells[CellName('A', row)] == Cell(Text(r.labelText), NoUnit) &&
            CellName('B', row) in cells && cells[CellName('B', row)] == Cell(Fixed2(r.x as real), Millimetres) &&
            CellName('C', row) in cells && cells[CellName('C', row)] == Cell(Fixed2(r.y as real), Millimetres) &&
            CellName('D', row) in cells && cells[CellName('D', row)] == Cell(Fixed2(r.z), Millimetres) &&
            CellName('E', row) in cells && cells[CellName('E', row)].content.Fixed2? &&
            CellName('F', row) in cells && cells[CellName('F', row)].content.Fixed2? &&
            CellName('G', row) in cells && cells[CellName('G', row)].content.Fixed2? &&
            cells[CellName('E', row)].unit == Inches && cells[CellName('E', row)].content.v * MmPerInch == r.x as real &&
            cells[CellName('F', row)].unit == Inches && cells[CellName('F', row)].content.v * MmPerInch == r.y as real &&
            cells[CellName('G', row)].unit == Inches && cells[CellName('G', row)].content.v * MmPerInch == r.z
  {
    var row := FirstDataRow + k;
    var n := |rows|;
    RowCellsHold(WrittenUpTo(base, rows, k), row, rows[k]);
    WrittenRowStays(base, rows, n, k, 'A');
    WrittenRowStays(base, rows, n, k, 'B');
    WrittenRowStays(base, rows, n, k, 'C');
    WrittenRowStays(base, rows, n, k, 'D');
    WrittenRowStays(base, rows, n, k, 'E');
    WrittenRowStays(base, rows, n, k, 'F');
    WrittenRowStays(base, rows, n, k, 'G');
  }

  /** The rows above the data, and whatever else lies outside written data rows, keep
      what the header put there. */
  lemma {:induction false} WrittenKeepsHeader(base: map<string, Cell>, rows: seq<Row>, n: nat, col: char, row: nat)
    requires n <= |rows| && row < FirstDataRow
    ensures var name := CellName(col, row);
            (name in WrittenUpTo(base, rows, n) <==> name in base) &&
            (name in base ==> WrittenUpTo(base, rows, n)[name] == base[name])
  {
    if n > 0 {
      var prev := WrittenUpTo(base, rows, n - 1);
      WrittenKeepsHeader(base, rows, n - 1, col, row);
      WithRowKeeps(prev, FirstDataRow + n - 1, rows[n - 1], col, row);
      assert WrittenUpTo(base, rows, n) == WithRow(prev, FirstDataRow + n - 1, rows[n - 1]);
    }
  }

  /** The fixed texts of rows 1 to 5 */
  function TitleCells(): map<string, Cell> {
    map[CellName('A', 1) := Cell(Text("Vessel Name:"), NoUnit),
        CellName('A', 2) := Cell(Text("Vessel Height:"), NoUnit),
        CellName('A', 3) := Cell(Text("Vessel Diameter:"), NoUnit)]
  }

  function HeadingCells(cells: map<string, Cell>): map<string, Cell> {
    cells[CellName('B', 4) := Cell(Text("Segment Dimensions (in mm rounded up)"), NoUnit)]
         [CellName('E', 4) := Cell(Text("Segment Dimensions (in inches 2 Decimal)"), NoUnit)]
         [CellName('A', 5) := Cell(Text("Label"), NoUnit)]
         [CellName('B', 5) := Cell(Text("Segment Width"), NoUnit)]
         [CellName('C', 5) := Cell(Text("Segment End Length"), NoUnit)]
         [CellName('D', 5) := Cell(Text("Segment Thickness"), NoUnit)]
         [CellName('E', 5) := Cell(Text("Segment Width"), NoUnit)]
         [CellName('F', 5) := Cell(Text("Segment End Length"), NoUnit)]
         [CellName('G', 5) := Cell(Text("Segment Thickness"), NoUnit)]
  }

  /** What `doc.getObject("BowlVariables")` supplies to B2 and B3: nothing without a
      var-set, the two values, or the failure of reading a missing property (with
      the height written when only the width is missing) */
  datatype Variables = NoVariables | Both(height: Value, width: Value) | HeightOnly(height: Value) | Neither

  function ReadVariables(objs: seq<DocObject>): (v: Variables)
    ensures v.NoVariables? <==> FindByName(objs, VarSetName).None?
    ensures v.Both? ==> var p := objs[FindByName(objs, VarSetName).value].properties;
                        "BowlHeight" in p && "BowlWidth" in p && v.height == p["BowlHeight"] && v.width == p["BowlWidth"]
  {
    match FindByName(objs, VarSetName)
    case None => NoVariables
    case Some(i) =>
      var p := objs[i].properties;
      if "BowlHeight" !in p then Neither
      else if "BowlWidth" !in p then HeightOnly(p["BowlHeight"])
      else Both(p["BowlHeight"], p["BowlWidth"])
  }

  /** Rows 1 to 5 as the header part leaves them */
  function HeaderCells(v: Variables): map<string, Cell> {
    match v
    case NoVariables => HeadingCells(TitleCells())
    case Both(h, w) =>
      HeadingCells(TitleCells()[CellName('B', 2) := Cell(ValueText(h), Millimetres)]
                               [CellName('B', 3) := Cell(ValueText(w), Millimetres)])
    case HeightOnly(h) => TitleCells()[CellName('B', 2) := Cell(ValueText(h), NoUnit)]
    case Neither => TitleCells()
  }

  /** The header part of the command */
  method WriteHeader(sheet: Sheet, v: Variables) returns (ok: bool)
    requires sheet.cells == map[]
    modifies sheet
    ensures ok <==> v.NoVariables? || v.Both?
    ensures sheet.cells == HeaderCells(v)
  {
    sheet.Set(CellName('A', 1), Cell(Text("Vessel Name:"), NoUnit));
    sheet.Set(CellName('A', 2), Cell(Text("Vessel Height:"), NoUnit));
    sheet.Set(CellName('A', 3), Cell(Text("Vessel Diameter:"), NoUnit));
    match v {
      case NoVariables =>
      case Neither =>
        return false;
      case HeightOnly(h) =>
        sheet.Set(CellName('B', 2), Cell(ValueText(h), NoUnit));
        return false;
      case Both(h, w) =>
        sheet.Set(CellName('B', 2), Cell(ValueText(h), Millimetres));
        sheet.Set(CellName('B', 3), Cell(ValueText(w), Millimetres));
    }
    sheet.Set(CellName('B', 4), Cell(Text("Segment Dimensions (in mm rounded up)"), NoUnit));
    sheet.Set(CellName('E', 4), Cell(Text("Segment Dimensions (in inches 2 Decimal)"), NoUnit));
    sheet.Set(CellName('A', 5), Cell(Text("Label"), NoUnit));
    sheet.Set(CellName('B', 5), Cell(Text("Segment Width"), NoUnit));
    sheet.Set(CellName('C', 5), Cell(Text("Segment End Length"), NoUnit));
    sheet.Set(CellName('D', 5), Cell(Text("Segment Thickness"), NoUnit));
    sheet.Set(CellName('E', 5), Cell(Text("Segment Width"), NoUnit));
    sheet.Set(CellName('F', 5), Cell(Text("Segment End Length"), NoUnit));
    sheet.Set(CellName('G', 5), Cell(Text("Segment Thickness"), NoUnit));
    ok := true;
  }

  /** The entries in the order the sheet lists them */
  function SortedRows(objs: seq<DocObject>, measure: DocObject -> Measure): seq<Row> {
    var segs := MatchingUpTo(objs, SegmentTest(), |objs|);
    Sort(RowsUpTo(objs, segs, measure, |segs|), ByLabel())
  }

  /** The sorted entries are the entries, in Label order. */
  lemma SortedRowsSpec(objs: seq<DocObject>, measure: DocObject -> Measure)
    ensures var segs := MatchingUpTo(objs, SegmentTest(), |objs|);
            SortedBy(SortedRows(objs, measure), ByLabel()) &&
            multiset(SortedRows(objs, measure)) == multiset(RowsUpTo(objs, segs, measure, |segs|))
  {
    ByLabelIsTotalPreorder();
    var segs := MatchingUpTo(objs, SegmentTest(), |objs|);
    SortCorrect(RowsUpTo(objs, segs, measure, |segs|), ByLabel());
  }

  /** The Activated command: adds the spreadsheet to the document, fills it, and
      returns the number of objects it reports. Without a document it stops before
      creating anything; a var-set missing a property stops it after the first rows. */
  method Activated(doc: Document, hasDoc: bool, measure: DocObject -> Measure)
      returns (r: Result<nat>, sheet: Sheet?)
    requires doc.Valid()
    modifies doc
    ensures doc.Valid()
    ensures !hasDoc ==> r == Err(NoDocument) && sheet == null && doc.objects == old(doc.objects)
    ensures hasDoc ==> doc.objects == old(doc.objects) + [NewObject(SheetType, FreshName(SheetName, Names(old(doc.objects))))]
    ensures hasDoc ==> sheet != null && fresh(sheet)
    ensures hasDoc && !(ReadVariables(old(doc.objects)).NoVariables? || ReadVariables(old(doc.objects)).Both?) ==>
              r == Err(MissingVariable) && sheet.cells == HeaderCells(ReadVariables(old(doc.objects)))
    ensures hasDoc && (ReadVariables(old(doc.objects)).NoVariables? || ReadVariables(old(doc.objects)).Both?) ==>
              var rows := SortedRows(old(doc.objects), measure);
              r == Ok(|rows|) &&
              sheet.cells == WrittenUpTo(HeaderCells(ReadVariables(old(doc.objects))), rows, |rows|)
  {
    if !hasDoc {
      return Err(NoDocument), null;
    }
    ghost var before := doc.objects;
    var segs := CollectMatching(doc.objects, SegmentTest());
    var vars := ReadVariables(doc.objects);
    var objs := doc.objects;
    var _ := doc.AddObject(SheetType, SheetName);
    sheet := new Sheet();
    var ok := WriteHeader(sheet, vars);
    if !ok {
      return Err(MissingVariable), sheet;
    }
    var rows := CollectRows(objs, segs, measure);
    ByLabelIsTotalPreorder();
    rows := Sort(rows, ByLabel());
    var row := WriteRows(sheet, rows);
    r := Ok(ReportedCount(row));
  }

  /** The count the closing message reports: the rows below the headings */
  function ReportedCount(row: nat): (n: nat)
    ensures row >= FirstDataRow ==> n + FirstDataRow == row
  {
    if row >= FirstDataRow then row - FirstDataRow else 0
  }

  /** `f"{x_dim:.2f}"` in the inch columns, as the command writes them: the
      millimetre figure */
  function WithRowAsWritten(cells: map<string, Cell>, row: nat, r: Row): map<string, Cell> {
    cells[CellName('A', row) := Cell(Text(r.labelText), NoUnit)]
         [CellName('B', row) := Cell(Fixed2(r.x as real), Millimetres)]
         [CellName('C', row) := Cell(Fixed2(r.y as real), Millimetres)]
         [CellName('D', row) := Cell(Fixed2(r.z), Millimetres)]
         [CellName('E', row) := Cell(Fixed2(r.x as real), Inches)]
         [CellName('F', row) := Cell(Fixed2(r.y as real), Inches)]
         [CellName('G', row) := Cell(Fixed2(r.z), Inches)]
  }

  /** A 254 mm wide segment is listed as 254.00 under the inch heading, where 10.00
      is meant. */
  lemma InchColumnHoldsMillimetres()
    ensures var cells := WithRowAsWritten(map[], FirstDataRow, Row("Segment", 254, 10, 1.0));
            cells[CellName('E', FirstDataRow)].content == Fixed2(254.0) &&
            cells[CellName('E', FirstDataRow)].unit == Inches &&
            254.0 / MmPerInch == 10.0
  {
    var row := FirstDataRow;
    CellNamesDiffer('E', row, 'F', row);
    CellNamesDiffer('E', row, 'G', row);
  }

  /** `row - 2`, as the closing message computes it after the loop */
  function ReportedCountAsWritten(row: int): int {
    row - 2
  }

  /** With n entries written the message reports n + 4 objects, never n. */
  lemma ReportedCountOverstates(n: nat)
    ensures ReportedCountAsWritten(FirstDataRow + n) == n + 4
    ensures ReportedCount(FirstDataRow + n) == n
  {
  }

  /** A spreadsheet left by an earlier run has "Segment" in its Label, so a second run
      lists it as a segment (with zero dimensions, as a sheet has no Shape). */
  lemma EarlierSheetIsListed(objs: seq<DocObject>)
    ensures var o := NewObject(SheetType, FreshName(SheetName, Names(objs)));
            SegmentTest()(o) && RowOf(o, NoShapeAttribute) == Some(Row(o.labelText, 0, 0, 0.0))
  {
    var sheetLabel := FreshName(SheetName, Names(objs));
    assert sheetLabel[..|SheetName|] == SheetName;
    assert sheetLabel[0..|SegmentWord|] == SheetName[0..|SegmentWord|];
    assert OccursAt(sheetLabel, SegmentWord, 0);
  }
}
