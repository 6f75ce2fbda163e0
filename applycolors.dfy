/** The colour dialog: choosing segments (a ring, a column, every x-th segment around a
    ring) and keeping a palette of named colours that is edited in place, saved to and
    loaded from JSON. A new selection is returned as `Ok(indices)` into the document's
    object list; `Err` means a warning or an exception, after which the host selection is
    left as it was. */
module ApplyColors {
  import opened Wrappers
  import opened Text
  import opened Doc
  import VarSet

  const NoDocument := "No active document in FreeCAD."
  const NoSelection := "Please select an object in FreeCAD first."
  const IndexOutOfRange := "list index out of range"
  const NotAnInteger := "invalid literal for int()"
  const NoNumSegments := "Property NumSegments not found in BowlVariables."

  // ---------------------------------------------------------------------------
  // Selecting a ring or a column

  /** The ring of a label: its first nine characters, "Ring_001_" */
  function RingKey(lbl: string): string {
    Prefix(lbl, 9)
  }

  /** The column of a label: its last three characters, the segment number */
  function ColumnKey(lbl: string): string {
    Suffix(lbl, 3)
  }

  /** `select_ring_click`: every object whose Label starts with the first selected
      object's ring key. */
  method SelectRingClick(objs: seq<DocObject>, hasDoc: bool, selection: seq<DocObject>) returns (r: Result<seq<nat>>)
    ensures !hasDoc ==> r == Err(NoDocument)
    ensures hasDoc && selection == [] ==> r == Err(NoSelection)
    ensures hasDoc && selection != [] ==> r.Ok?
    ensures r.Ok? ==> forall i :: i in r.value <==>
              0 <= i < |objs| && StartsWith(objs[i].labelText, RingKey(selection[0].labelText))
    ensures r.Ok? ==> forall a, b :: 0 <= a < b < |r.value| ==> r.value[a] < r.value[b]
  {
    if !hasDoc {
      return Err(NoDocument);
    }
    if selection == [] {
      return Err(NoSelection);
    }
    var key := RingKey(selection[0].labelText);
    var found := CollectMatching(objs, (o: DocObject) => StartsWith(o.labelText, key));
    r := Ok(found);
  }

  /** `select_column_click`: every object whose Label ends with the first selected
      object's column key. */
  method SelectColumnClick(objs: seq<DocObject>, hasDoc: bool, selection: seq<DocObject>) returns (r: Result<seq<nat>>)
    ensures !hasDoc ==> r == Err(NoDocument)
    ensures hasDoc && selection == [] ==> r == Err(NoSelection)
    ensures hasDoc && selection != [] ==> r.Ok?
    ensures r.Ok? ==> forall i :: i in r.value <==>
              0 <= i < |objs| && EndsWith(objs[i].labelText, ColumnKey(selection[0].labelText))
    ensures r.Ok? ==> forall a, b :: 0 <= a < b < |r.value| ==> r.value[a] < r.value[b]
  {
    if !hasDoc {
      return Err(NoDocument);
    }
    if selection == [] {
      return Err(NoSelection);
    }
    var key := ColumnKey(selection[0].labelText);
    var found := CollectMatching(objs, (o: DocObject) => EndsWith(o.labelText, key));
    r := Ok(found);
  }

  /** A segment label "Ring_kkk_sss" is in its own ring and in its own column. */
  lemma SegmentInItsRingAndColumn(ring: nat, segment: nat)
    requires ring < 1000 && segment < 1000
    ensures var lbl := "Ring_" + Format03(ring) + "_" + Format03(segment);
            RingKey(lbl) == "Ring_" + Format03(ring) + "_" && ColumnKey(lbl) == Format03(segment) &&
            ParseInt(ColumnKey(lbl)) == Some(segment)
  {
    var lbl := "Ring_" + Format03(ring) + "_" + Format03(segment);
    Format03Width(ring);
    Format03Width(segment);
    assert lbl[..9] == "Ring_" + Format03(ring) + "_";
    assert lbl[|lbl| - 3..] == Format03(segment);
    FormatParseRoundTrip(segment);
  }

  // ---------------------------------------------------------------------------
  // "Select every x": from segment s, step x segments at a time around a ring of n,
  // wrapping past n once, until the first index after the wrap that is at or past s.

  /** The least j >= 0 with (j + 1) · x > d */
  function Threshold(d: int, x: int): nat
    requires x >= 1
  {
    if d < 0 then 0 else d / x
  }

  lemma ThresholdSpec(d: int, x: int, j: nat)
    requires x >= 1
    ensures (j + 1) * x > d <==> j >= Threshold(d, x)
  {
    if d >= 0 {
      var q := d / x;
      assert d == q * x + d % x;
      if j >= q {
        MulLe(q + 1, j + 1, x);
      } else {
        MulLe(j + 1, q, x);
      }
    } else {
      MulLe(1, j + 1, x);
    }
  }

  lemma {:induction false} MulLe(a: int, b: int, x: int)
    requires a <= b && x >= 0
    ensures a * x <= b * x
    decreases b - a
  {
    if a < b {
      MulLe(a + 1, b, x);
      assert (a + 1) * x == a * x + x;
    }
  }

  /** The step (0-based) on which the index passes n and is brought back by n */
  function WrapStep(s: int, x: int, n: int): nat
    requires x >= 1
  {
    Threshold(n - s, x)
  }

  /** The last step: the first one at or after the wrap whose index is at least s */
  function StopStep(s: int, x: int, n: int): nat
    requires x >= 1
  {
    var w := WrapStep(s, x, n);
    var c := Threshold(n - 1, x);
    if w >= c then w else c
  }

  /** The index chosen on step j, in closed form */
  function EveryXIndex(s: int, x: int, n: int, j: nat): int
    requires x >= 1
  {
    s + (j + 1) * x - (if j >= WrapStep(s, x, n) then n else 0)
  }

  /** Every index the stepping chooses, in order */
  function EveryXIndices(s: int, x: int, n: int): seq<int>
    requires x >= 1
  {
    seq(StopStep(s, x, n) + 1, j requires 0 <= j => EveryXIndex(s, x, n, j))
  }

  /** The object `getObjectsByLabel(prefix + f"{k:03d}")[0]` picks, if any */
  function Lookup(objs: seq<DocObject>, prefix: string, k: int): Option<nat> {
    FindByLabel(objs, prefix + Format03(k))
  }

  /** Looking up every index in turn: the first missing Label raises `IndexError`. */
  function LookUpAll(objs: seq<DocObject>, prefix: string, idx: seq<int>): (r: Result<seq<nat>>)
    ensures r.Ok? <==> forall k :: 0 <= k < |idx| ==> Lookup(objs, prefix, idx[k]).Some?
    ensures r.Err? ==> r == Err(IndexOutOfRange)
    ensures r.Ok? ==> |r.value| == |idx| && forall k :: 0 <= k < |idx| ==>
              r.value[k] < |objs| && objs[r.value[k]].labelText == prefix + Format03(idx[k]) &&
              forall i :: 0 <= i < r.value[k] ==> objs[i].labelText != prefix + Format03(idx[k])
  {
    if forall k :: 0 <= k < |idx| ==> Lookup(objs, prefix, idx[k]).Some? then
      Ok(seq(|idx|, k requires 0 <= k < |idx| => Lookup(objs, prefix, idx[k]).value))
    else
      Err(IndexOutOfRange)
  }

  /** The `while not_done` loop of `apply_every_x_input_click` for one selected object,
      looking up each chosen Label as soon as it is computed. */
  method SelectEveryXFrom(objs: seq<DocObject>, prefix: string, start: int, x: int, numSegments: int)
    returns (r: Result<seq<nat>>)
    requires x >= 1
    ensures r == LookUpAll(objs, prefix, EveryXIndices(start, x, numSegments))
  {
    ghost var wrap := WrapStep(start, x, numSegments);
    ghost var stop := StopStep(start, x, numSegments);
    ghost var all := EveryXIndices(start, x, numSegments);
    ghost var idx: seq<int> := [];
    var found: seq<nat> := [];
    var current := start;
    var notDone := true;
    var reachedEnd := false;
    while notDone
      invariant |found| == |idx| <= stop + 1
      invariant reachedEnd <==> |idx| > wrap
      invariant current == start + |idx| * x - (if reachedEnd then numSegments else 0)
      invariant notDone <==> |idx| <= stop
      invariant idx == all[..|idx|]
      invariant forall k :: 0 <= k < |idx| ==>
                  Lookup(objs, prefix, idx[k]).Some? && found[k] == Lookup(objs, prefix, idx[k]).value
      decreases stop + 1 - |idx|
    {
      ghost var j := |idx|;
      current := current + x;
      assert current == start + (j + 1) * x - (if reachedEnd then numSegments else 0);
      ThresholdSpec(numSegments - start, x, j);
      if current > numSegments && !reachedEnd {
        current := current - numSegments;
        reachedEnd := true;
      }
      ThresholdSpec(numSegments - 1, x, j);
      if current >= start && reachedEnd {
        notDone := false;
      }
      assert current == EveryXIndex(start, x, numSegments, j);
      idx := idx + [current];
      var hit := FindByLabel(objs, prefix + Format03(current));
      if hit.None? {
        assert !Lookup(objs, prefix, all[j]).Some?;
        return Err(IndexOutOfRange);
      }
      found := found + [hit.value];
    }
    assert idx == all;
    assert found == seq(|all|, k requires 0 <= k < |all| => Lookup(objs, prefix, all[k]).value);
    r := Ok(found);
  }

  /** Each chosen index is the previous one plus x, less n on the single wrap step, which
      comes no later than the last step; before the wrap no index exceeds n. */
  lemma EveryXSteps(s: int, x: int, n: int)
    requires x >= 1
    ensures var idx := EveryXIndices(s, x, n);
            var w := WrapStep(s, x, n);
            w < |idx| &&
            idx[0] == s + x - (if w == 0 then n else 0) &&
            (forall j :: 0 <= j < |idx| - 1 ==> idx[j + 1] == idx[j] + x - (if j + 1 == w then n else 0)) &&
            (forall j :: 0 <= j < w ==> idx[j] <= n) &&
            idx[w] > 0
  {
    var idx := EveryXIndices(s, x, n);
    var w := WrapStep(s, x, n);
    forall j | 0 <= j < |idx| - 1
      ensures idx[j + 1] == idx[j] + x - (if j + 1 == w then n else 0)
    {
      assert (j + 2) * x == (j + 1) * x + x;
    }
    forall j | 0 <= j < w
      ensures idx[j] <= n
    {
      ThresholdSpec(n - s, x, j);
    }
    ThresholdSpec(n - s, x, w);
  }

  /** The stepping stops exactly at the first index after the wrap that is at least s. */
  lemma EveryXStops(s: int, x: int, n: int)
    requires x >= 1
    ensures var idx := EveryXIndices(s, x, n);
            idx[|idx| - 1] >= s &&
            forall j :: WrapStep(s, x, n) <= j < |idx| - 1 ==> idx[j] < s
  {
    var idx := EveryXIndices(s, x, n);
    ThresholdSpec(n - 1, x, |idx| - 1);
    forall j | WrapStep(s, x, n) <= j < |idx| - 1
      ensures idx[j] < s
    {
      ThresholdSpec(n - 1, x, j);
    }
  }

  /** When x divides n and s is a segment number, the stepping goes once round the ring
      and ends back on s after n / x steps, every index a segment number. */
  lemma EveryXFullCycle(s: int, x: int, n: int)
    requires x >= 1 && 1 <= s <= n && n % x == 0
    ensures var idx := EveryXIndices(s, x, n);
            |idx| == n / x && idx[|idx| - 1] == s &&
            forall j :: 0 <= j < |idx| ==> 1 <= idx[j] <= n
  {
    var q := n / x;
    assert n == q * x;
    FullCycleStop(s, x, n, q);
    var idx := EveryXIndices(s, x, n);
    forall j | 0 <= j < |idx|
      ensures 1 <= idx[j] <= n
    {
      FullCycleIndex(s, x, n, q, j);
    }
  }

  /** With n = q · x the wrap comes no later than step q - 1 and the stepping stops there,
      on s. */
  lemma FullCycleStop(s: int, x: int, n: int, q: int)
    requires x >= 1 && 1 <= s <= n && n == q * x
    ensures q >= 1 && StopStep(s, x, n) == q - 1 && WrapStep(s, x, n) <= q - 1
    ensures EveryXIndex(s, x, n, q - 1) == s
  {
    assert q >= 1 by {
      if q <= 0 {
        MulLe(q, 0, x);
      }
    }
    ThresholdSpec(n - 1, x, q - 1);
    if q >= 2 {
      ThresholdSpec(n - 1, x, q - 2);
    }
    ThresholdSpec(n - s, x, q - 1);
  }

  /** With n = q · x every step before q chooses a segment number. */
  lemma FullCycleIndex(s: int, x: int, n: int, q: int, j: nat)
    requires x >= 1 && 1 <= s <= n && n == q * x && j < q
    ensures 1 <= EveryXIndex(s, x, n, j) <= n
  {
    ThresholdSpec(n - s, x, j);
    MulLe(j + 1, q, x);
    MulLe(1, j + 1, x);
  }


  /** After the wrap no index is brought back again: from the last of twelve segments in
      steps of five the stepping ends on 15, a Label no segment has. */
  lemma EveryXOvershoots()
    ensures EveryXIndices(12, 5, 12) == [5, 10, 15]
  {
    assert WrapStep(12, 5, 12) == 0;
    assert StopStep(12, 5, 12) == 2;
  }

  /** The varset lookup of this dialog's own `getVarsetInt`: the raw "NumSegments" of
      "BowlVariables", `None` when either is missing. */
  function NumSegmentsOf(objs: seq<DocObject>): (r: Option<int>)
    ensures r.Some? ==> exists i :: 0 <= i < |objs| && objs[i].name == VarSet.VarSetName &&
                          "NumSegments" in objs[i].properties && objs[i].properties["NumSegments"] == IntValue(r.value)
  {
    match FindByName(objs, VarSet.VarSetName)
    case None => None
    case Some(i) =>
      if "NumSegments" in objs[i].properties && objs[i].properties["NumSegments"].IntValue?
      then Some(objs[i].properties["NumSegments"].i)
      else None
  }

  /** The objects chosen from one selected object: its segment number is the integer in
      the last three characters of its Label, its ring key the first nine. */
  function EveryXForObject(objs: seq<DocObject>, lbl: string, x: int): Result<seq<nat>>
    requires x >= 1
  {
    match ParseInt(ColumnKey(lbl))
    case None => Err(NotAnInteger)
    case Some(s) =>
      match NumSegmentsOf(objs)
      case None => Err(NoNumSegments)
      case Some(n) => LookUpAll(objs, RingKey(lbl), EveryXIndices(s, x, n))
  }

  /** `Ok(prefix + b)` for `Ok(b)`, the error otherwise */
  function Prepend(prefix: seq<nat>, r: Result<seq<nat>>): Result<seq<nat>> {
    match r
    case Ok(b) => Ok(prefix + b)
    case Err(e) => Err(e)
  }

  /** The new selections of all selected objects, one after another; the first error
      aborts the whole click. */
  function EveryXForAll(objs: seq<DocObject>, selection: seq<DocObject>, x: int): Result<seq<nat>>
    requires x >= 1
    decreases |selection|
  {
    if selection == [] then Ok([])
    else match EveryXForObject(objs, selection[0].labelText, x)
      case Err(e) => Err(e)
      case Ok(a) => Prepend(a, EveryXForAll(objs, selection[1..], x))
  }

  lemma EveryXForAllStep(objs: seq<DocObject>, selection: seq<DocObject>, i: nat, x: int)
    requires i < |selection| && x >= 1
    ensures EveryXForAll(objs, selection[i..], x) ==
            match EveryXForObject(objs, selection[i].labelText, x)
            case Err(e) => Err(e)
            case Ok(a) => Prepend(a, EveryXForAll(objs, selection[i + 1..], x))
  {
    assert selection[i..][1..] == selection[i + 1..];
  }

  /** The body of the outer loop of `apply_every_x_input_click`, for one selected object */
  method EveryXForObjectMethod(objs: seq<DocObject>, lbl: string, x: int) returns (r: Result<seq<nat>>)
    requires x >= 1
    ensures r == EveryXForObject(objs, lbl, x)
  {
    var prefix := RingKey(lbl);
    var current := ParseInt(ColumnKey(lbl));
    if current.None? {
      return Err(NotAnInteger);
    }
    var numSegments := NumSegmentsOf(objs);
    if numSegments.None? {
      return Err(NoNumSegments);
    }
    r := SelectEveryXFrom(objs, prefix, current.value, x, numSegments.value);
  }

  lemma PrependNothing(r: Result<seq<nat>>)
    ensures Prepend([], r) == r
  {
    if r.Ok? {
      assert [] + r.value == r.value;
    }
  }

  lemma PrependTwice(a: seq<nat>, b: seq<nat>, r: Result<seq<nat>>)
    ensures Prepend(a, Prepend(b, r)) == Prepend(a + b, r)
  {
    if r.Ok? {
      assert a + (b + r.value) == (a + b) + r.value;
    }
  }

  // ---------------------------------------------------------------------------
  // Colours, as the toolkit parses and names them

  type Byte = b: int | 0 <= b < 256

  datatype Color = Color(alpha: Byte, red: Byte, green: Byte, blue: Byte)

  predicate IsHexDigit(c: char) {
    '0' <= c <= '9' || 'a' <= c <= 'f' || 'A' <= c <= 'F'
  }

  function HexValue(c: char): (d: nat)
    requires IsHexDigit(c)
    ensures d < 16
  {
    if '0' <= c <= '9' then c as int - '0' as int
    else if 'a' <= c <= 'f' then c as int - 'a' as int + 10
    else c as int - 'A' as int + 10
  }

  function HexChar(d: nat): (c: char)
    requires d < 16
    ensures IsHexDigit(c) && HexValue(c) == d
  {
    if d < 10 then ('0' as int + d) as char else ('a' as int + d - 10) as char
  }

  predicate AllHex(s: string) {
    forall i :: 0 <= i < |s| ==> IsHexDigit(s[i])
  }

  function Pow16(k: nat): nat {
    if k == 0 then 1 else 16 * Pow16(k - 1)
  }

  /** The value of a run of hexadecimal digits */
  function HexDigitsValue(s: string): (v: nat)
    requires AllHex(s)
    ensures v < Pow16(|s|)
  {
    if s == [] then 0 else 16 * HexDigitsValue(s[..|s| - 1]) + HexValue(s[|s| - 1])
  }

  lemma AllHexSlice(h: string, i: nat, k: nat)
    requires 1 <= i && i + k <= |h| && AllHex(h[1..])
    ensures AllHex(h[i..i + k])
  {
    var t := h[i..i + k];
    forall m | 0 <= m < |t|
      ensures IsHexDigit(t[m])
    {
      assert t[m] == h[1..][i - 1 + m];
    }
  }

  /** The channel written by the k hexadecimal digits of h starting at i, scaled down to
      eight bits (a 12-bit channel loses 4 bits, a 16-bit channel 8). */
  function Channel(h: string, i: nat, k: nat): Byte
    requires 1 <= i && i + k <= |h| && AllHex(h[1..]) && 1 <= k <= 4
  {
    AllHexSlice(h, i, k);
    var v := HexDigitsValue(h[i..i + k]);
    if k == 1 then 17 * v
    else if k == 2 then v
    else if k == 3 then v / 16
    else v / 256
  }

  /** `QColor(name).isValid()` and the colour it then holds, for the "#" forms: #RGB,
      #RRGGBB, #AARRGGBB, #RRRGGGBBB and #RRRRGGGGBBBB, digits in either case. */
  function ParseColor(h: string): (r: Option<Color>)
    ensures r.Some? ==> |h| in {4, 7, 9, 10, 13} && h[0] == '#' && AllHex(h[1..])
  {
    if |h| < 1 || h[0] != '#' || !AllHex(h[1..]) then None
    else if |h| == 4 then Some(Color(255, Channel(h, 1, 1), Channel(h, 2, 1), Channel(h, 3, 1)))
    else if |h| == 7 then Some(Color(255, Channel(h, 1, 2), Channel(h, 3, 2), Channel(h, 5, 2)))
    else if |h| == 9 then Some(Color(Channel(h, 1, 2), Channel(h, 3, 2), Channel(h, 5, 2), Channel(h, 7, 2)))
    else if |h| == 10 then Some(Color(255, Channel(h, 1, 3), Channel(h, 4, 3), Channel(h, 7, 3)))
    else if |h| == 13 then Some(Color(255, Channel(h, 1, 4), Channel(h, 5, 4), Channel(h, 9, 4)))
    else None
  }

  function Hex2(b: Byte): string {
    [HexChar(b / 16), HexChar(b % 16)]
  }

  /** `QColor.name()`: "#rrggbb" in lower case, the alpha channel dropped */
  function ColorName(c: Color): (r: string)
    ensures |r| == 7 && r[0] == '#'
  {
    "#" + Hex2(c.red) + Hex2(c.green) + Hex2(c.blue)
  }

  /** A saved colour reads back as the same opaque colour. */
  lemma ColorNameParses(c: Color)
    ensures ParseColor(ColorName(c)) == Some(c.(alpha := 255))
  {
    var h := ColorName(c);
    assert AllHex(h[1..]);
    Hex2Value(c.red, h, 1);
    Hex2Value(c.green, h, 3);
    Hex2Value(c.blue, h, 5);
  }

  lemma Hex2Value(b: Byte, h: string, i: nat)
    requires i + 2 <= |h| && h[i..i + 2] == Hex2(b)
    ensures AllHex(h[i..i + 2]) && HexDigitsValue(h[i..i + 2]) == b
  {
    var s := h[i..i + 2];
    assert s[..1] == [HexChar(b / 16)];
    assert s[..1][..0] == [];
  }

  // ---------------------------------------------------------------------------
  // JSON files of colours

  datatype Json =
    | JNull
    | JBool(b: bool)
    | JNumber(n: real)
    | JString(s: string)
    | JArray(elems: seq<Json>)
    | JObject(fields: map<string, Json>)

  /** A palette entry: `{"name": str, "color": QColor}` */
  datatype ColorEntry = ColorEntry(name: string, color: Color)

  /** An entry read from a file before it is shown: its name may be any JSON value. */
  datatype RawEntry = RawEntry(name: Json, color: Color)

  const InvalidFormat := "Invalid JSON format. Expected a list of color entries."
  const NotIterable := "object is not iterable"
  const BadColorArgument := "QColor() argument has the wrong type"
  const BadNameArgument := "setText() argument has the wrong type"

  const DefaultName := JString("Unnamed Color")
  const DefaultHex := JString("#000000")

  /** The list of entries in a loaded document: a plain list, or the "colors" member of an
      object (missing means empty). Iterating an object or a string yields strings, which
      are all skipped, so those count as empty; other values cannot be iterated. */
  function ColorsData(data: Json): (r: Result<seq<Json>>)
    ensures data.JArray? ==> r == Ok(data.elems)
    ensures r.Err? <==> (!data.JArray? && !data.JObject?) ||
                        (data.JObject? && "colors" in data.fields &&
                         (data.fields["colors"].JNull? || data.fields["colors"].JBool? || data.fields["colors"].JNumber?))
  {
    match data
    case JArray(xs) => Ok(xs)
    case JObject(m) =>
      if "colors" !in m then Ok([])
      else (match m["colors"]
        case JArray(xs) => Ok(xs)
        case JObject(_) => Ok([])
        case JString(_) => Ok([])
        case _ => Err(NotIterable))
    case _ => Err(InvalidFormat)
  }

  /** The members of an entry, with their defaults: `(name, hex)` */
  function EntryFields(m: map<string, Json>): (Json, Json) {
    (if "name" in m then m["name"] else DefaultName, if "hex" in m then m["hex"] else DefaultHex)
  }

  /** The colour an entry's "hex" member makes: a string is parsed, `null` makes an
      invalid colour, anything else cannot be converted. */
  function HexColor(hex: Json): Result<Option<Color>> {
    match hex
    case JString(h) => Ok(ParseColor(h))
    case JNull => Ok(None)
    case _ => Err(BadColorArgument)
  }

  /** The entries kept from the first n list elements: objects with a valid colour */
  function EntriesUpTo(xs: seq<Json>, n: nat): Result<seq<RawEntry>>
    requires n <= |xs|
  {
    if n == 0 then Ok([])
    else match EntriesUpTo(xs, n - 1)
      case Err(e) => Err(e)
      case Ok(es) =>
        if !xs[n - 1].JObject? then Ok(es)
        else
          var (name, hex) := EntryFields(xs[n - 1].fields);
          match HexColor(hex)
          case Err(e) => Err(e)
          case Ok(None) => Ok(es)
          case Ok(Some(c)) => Ok(es + [RawEntry(name, c)])
  }

  lemma {:induction false} EntriesErrorStays(xs: seq<Json>, i: nat, n: nat)
    requires i <= n <= |xs| && EntriesUpTo(xs, i).Err?
    ensures EntriesUpTo(xs, n) == EntriesUpTo(xs, i)
    decreases n
  {
    if n > i {
      EntriesErrorStays(xs, i, n - 1);
    }
  }

  /** The `for color_data in colors_data` loop of `load_colors_from_json` */
  method ParseEntries(xs: seq<Json>) returns (r: Result<seq<RawEntry>>)
    ensures r == EntriesUpTo(xs, |xs|)
  {
    var newColors: seq<RawEntry> := [];
    var i := 0;
    while i < |xs|
      invariant 0 <= i <= |xs|
      invariant EntriesUpTo(xs, i) == Ok(newColors)
    {
      var colorData := xs[i];
      i := i + 1;
      if !colorData.JObject? {
        continue;
      }
      var (name, hex) := EntryFields(colorData.fields);
      var color := HexColor(hex);
      if color.Err? {
        EntriesErrorStays(xs, i, |xs|);
        return Err(color.message);
      }
      if color.value.None? {
        continue;
      }
      newColors := newColors + [RawEntry(name, color.value.value)];
    }
    r := Ok(newColors);
  }

  /** The JSON written for a palette: a plain list of `{"name", "hex"}` objects */
  function SavedJson(colors: seq<ColorEntry>): (j: Json)
    ensures j.JArray? && |j.elems| == |colors|
    ensures forall i :: 0 <= i < |colors| ==>
              j.elems[i] == JObject(map["name" := JString(colors[i].name), "hex" := JString(ColorName(colors[i].color))])
  {
    JArray(seq(|colors|, i requires 0 <= i < |colors| =>
      JObject(map["name" := JString(colors[i].name), "hex" := JString(ColorName(colors[i].color))])))
  }

  function Opaque(colors: seq<ColorEntry>): (r: seq<ColorEntry>)
    ensures |r| == |colors|
    ensures forall i :: 0 <= i < |colors| ==> r[i] == ColorEntry(colors[i].name, colors[i].color.(alpha := 255))
  {
    seq(|colors|, i requires 0 <= i < |colors| => ColorEntry(colors[i].name, colors[i].color.(alpha := 255)))
  }

  function Raw(colors: seq<ColorEntry>): (r: seq<RawEntry>)
    ensures |r| == |colors|
    ensures forall i :: 0 <= i < |colors| ==> r[i] == RawEntry(JString(colors[i].name), colors[i].color)
  {
    seq(|colors|, i requires 0 <= i < |colors| => RawEntry(JString(colors[i].name), colors[i].color))
  }

  /** A saved entry reads back with its name and its colour made opaque. */
  lemma SavedEntryLoads(e: ColorEntry)
    ensures var m := map["name" := JString(e.name), "hex" := JString(ColorName(e.color))];
            EntryFields(m) == (JString(e.name), JString(ColorName(e.color))) &&
            HexColor(JString(ColorName(e.color))) == Ok(Some(e.color.(alpha := 255)))
  {
    ColorNameParses(e.color);
  }

  /** Loading what was saved gives every entry back, in order, with its colour opaque. */
  lemma {:induction false} SaveThenLoad(colors: seq<ColorEntry>, n: nat)
    requires n <= |colors|
    ensures ColorsData(SavedJson(colors)) == Ok(SavedJson(colors).elems)
    ensures EntriesUpTo(SavedJson(colors).elems, n) == Ok(Raw(Opaque(colors[..n])))
  {
    var xs := SavedJson(colors).elems;
    if n > 0 {
      SaveThenLoad(colors, n - 1);
      var e := colors[n - 1];
      SavedEntryLoads(e);
      var before := Raw(Opaque(colors[..n - 1]));
      assert EntriesUpTo(xs, n) == Ok(before + [RawEntry(JString(e.name), e.color.(alpha := 255))]);
      RawOpaqueSnoc(colors, n);
    }
  }

  lemma RawOpaqueSnoc(colors: seq<ColorEntry>, n: nat)
    requires 0 < n <= |colors|
    ensures Raw(Opaque(colors[..n])) ==
            Raw(Opaque(colors[..n - 1])) + [RawEntry(JString(colors[n - 1].name), colors[n - 1].color.(alpha := 255))]
  {
  }

  /** The file name saved to: ".json" is appended unless the chosen name already ends
      with it in any case; an empty choice is a cancelled dialog. */
  function SaveFileName(chosen: string): (r: Option<string>)
    ensures chosen == "" <==> r.None?
    ensures r.Some? ==> EndsWith(Lower(r.value), ".json") && StartsWith(r.value, chosen)
    ensures r.Some? && EndsWith(Lower(chosen), ".json") ==> r.value == chosen
  {
    if chosen == "" then None
    else if EndsWith(Lower(chosen), ".json") then Some(chosen)
    else
      var f := chosen + ".json";
      assert Lower(f)[|f| - 5..] == ".json";
      assert f[..|chosen|] == chosen;
      Some(f)
  }

  /** Choosing the name the dialog settled on gives the same name again. */
  lemma SaveFileNameIdempotent(chosen: string)
    requires chosen != ""
    ensures SaveFileName(SaveFileName(chosen).value) == SaveFileName(chosen)
  {
  }

  // ---------------------------------------------------------------------------
  // The palette list and its buttons

  datatype Buttons = Buttons(remove: bool, apply: bool, up: bool, down: bool)

  /** `on_selection_changed`: which buttons are enabled for the current row */
  function ButtonStates(row: int, count: int): Buttons {
    var has := row >= 0;
    Buttons(has, has, has && row > 0, has && row < count - 1)
  }

  /** For a current row of the list (or none), each enabled button names rows that
      exist: remove and apply the current row, up the row above it, down the row below
      it; an empty list enables nothing. */
  lemma EnabledButtonsInRange(row: int, count: int)
    requires -1 <= row < count
    ensures ButtonStates(row, count).remove == ButtonStates(row, count).apply
    ensures ButtonStates(row, count).remove <==> 0 <= row < count
    ensures ButtonStates(row, count).up <==> 0 <= row - 1 && row < count
    ensures ButtonStates(row, count).down <==> 0 <= row && row + 1 < count
    ensures count == 0 ==> ButtonStates(row, count) == Buttons(false, false, false, false)
  {
  }

  /** The sequence with the entries at i and j exchanged */
  function Swapped<T>(s: seq<T>, i: nat, j: nat): (r: seq<T>)
    requires i < |s| && j < |s|
    ensures |r| == |s| && r[i] == s[j] && r[j] == s[i]
    ensures forall k :: 0 <= k < |s| && k != i && k != j ==> r[k] == s[k]
    ensures multiset(r) == multiset(s)
  {
    s[i := s[j]][j := s[i]]
  }

  lemma SwappedTwice<T>(s: seq<T>, i: nat, j: nat)
    requires i < |s| && j < |s|
    ensures Swapped(Swapped(s, i, j), i, j) == s
  {
  }

  /** The sequence without its entry at i, as `takeItem` leaves a list */
  function RemovedAt<T>(s: seq<T>, i: nat): (r: seq<T>)
    requires i < |s|
    ensures |r| == |s| - 1
    ensures forall k :: 0 <= k < |r| ==> r[k] == if k < i then s[k] else s[k + 1]
  {
    s[..i] + s[i + 1..]
  }

  /** The sequence with x inserted before its entry at i, as `insertItem` leaves a list */
  function InsertedAt<T>(s: seq<T>, i: nat, x: T): (r: seq<T>)
    requires i <= |s|
    ensures |r| == |s| + 1
    ensures forall k :: 0 <= k < |r| ==> r[k] == if k < i then s[k] else if k == i then x else s[k - 1]
  {
    s[..i] + [x] + s[i..]
  }

  /** The way `_swap_rows` moves the list rows (take a, take b, put them back the other
      way round, the lower row first) exchanges them. */
  lemma TakeTwiceInsertTwice<T>(s: seq<T>, a: nat, b: nat)
    requires a < |s| && b < |s| && a != b
    ensures var ib := if b > a then b - 1 else b;
            var s2 := RemovedAt(RemovedAt(s, a), ib);
            RemovedAt(s, a)[ib] == s[b] &&
            (b > a ==> InsertedAt(InsertedAt(s2, a, s[b]), b, s[a]) == Swapped(s, a, b)) &&
            (b < a ==> InsertedAt(InsertedAt(s2, b, s[a]), a, s[b]) == Swapped(s, a, b))
  {
    if b > a {
      MovesSwapForward(s, a, b);
    } else {
      MovesSwapBackward(s, a, b);
    }
  }

  lemma MovesSwapForward<T>(s: seq<T>, a: nat, b: nat)
    requires a < b < |s|
    ensures InsertedAt(InsertedAt(RemovedAt(RemovedAt(s, a), b - 1), a, s[b]), b, s[a]) == Swapped(s, a, b)
  {
    var s1 := RemovedAt(s, a);
    var s2 := RemovedAt(s1, b - 1);
    var s3 := InsertedAt(s2, a, s[b]);
    var s4 := InsertedAt(s3, b, s[a]);
    forall k | 0 <= k < |s| ensures s4[k] == Swapped(s, a, b)[k] {
      if k < a {
        assert s4[k] == s3[k] == s2[k] == s1[k];
      } else if k == a {
        assert s4[k] == s3[k];
      } else if k < b {
        assert s4[k] == s3[k] == s2[k - 1] == s1[k - 1];
      } else if k > b {
        assert s4[k] == s3[k - 1] == s2[k - 2] == s1[k - 1];
      }
    }
  }

  lemma MovesSwapBackward<T>(s: seq<T>, a: nat, b: nat)
    requires b < a < |s|
    ensures InsertedAt(InsertedAt(RemovedAt(RemovedAt(s, a), b), b, s[a]), a, s[b]) == Swapped(s, a, b)
  {
    var s1 := RemovedAt(s, a);
    var s2 := RemovedAt(s1, b);
    var s3 := InsertedAt(s2, b, s[a]);
    var s4 := InsertedAt(s3, a, s[b]);
    forall k | 0 <= k < |s| ensures s4[k] == Swapped(s, a, b)[k] {
      if k < b {
        assert s4[k] == s3[k] == s2[k] == s1[k];
      } else if k == b {
        assert s4[k] == s3[k];
      } else if k < a {
        assert s4[k] == s3[k] == s2[k - 1] == s1[k];
      } else if k > a {
        assert s4[k] == s3[k - 1] == s2[k - 2] == s1[k - 1];
      }
    }
  }

  /** The palette after loading `raws` AS WRITTEN: the list is cleared, then each entry is
      appended to `colors` before its name is shown, and a name that is not a string
      aborts the loop there, one entry after `colors` has taken it. */
  function ReplaceAsWritten(raws: seq<RawEntry>): (r: (seq<RawEntry>, seq<string>))
    ensures |r.0| <= |raws| && |r.1| <= |r.0|
    ensures |r.0| == |r.1| <==> forall k :: 0 <= k < |raws| ==> raws[k].name.JString?
  {
    if raws == [] then ([], [])
    else if !raws[0].name.JString? then ([raws[0]], [])
    else
      var rest := ReplaceAsWritten(raws[1..]);
      assert forall k :: 1 <= k < |raws| ==> raws[k] == raws[1..][k - 1];
      ([raws[0]] + rest.0, [raws[0].name.s] + rest.1)
  }

  /** A file with a number as a name leaves one colour behind with no list row for it. */
  lemma NonStringNameDesynchronises()
    ensures var raws := [RawEntry(JNumber(5.0), Color(255, 0, 0, 0))];
            ReplaceAsWritten(raws) == (raws, [])
  {
  }

  /** The palette a successful load shows: the entries of the file, with string names */
  function Loaded(raws: seq<RawEntry>): (r: seq<ColorEntry>)
    requires forall k :: 0 <= k < |raws| ==> raws[k].name.JString?
    ensures |r| == |raws|
    ensures forall k :: 0 <= k < |raws| ==> r[k] == ColorEntry(raws[k].name.s, raws[k].color)
  {
    seq(|raws|, k requires 0 <= k < |raws| => ColorEntry(raws[k].name.s, raws[k].color))
  }

  /** A load succeeds on a file whose entries parse and all carry string names. */
  predicate Loadable(contents: Result<Json>) {
    contents.Ok? && ColorsData(contents.value).Ok? &&
    var es := EntriesUpTo(ColorsData(contents.value).value, |ColorsData(contents.value).value|);
    es.Ok? && forall k :: 0 <= k < |es.value| ==> es.value[k].name.JString?
  }

  function LoadedEntries(contents: Result<Json>): seq<RawEntry>
    requires Loadable(contents)
  {
    EntriesUpTo(ColorsData(contents.value).value, |ColorsData(contents.value).value|).value
  }

  datatype LoadOutcome = Cancelled | LoadedCount(count: nat) | Failed(message: string)

  function RowTexts(colors: seq<ColorEntry>): (r: seq<string>)
    ensures |r| == |colors| && forall i :: 0 <= i < |colors| ==> r[i] == colors[i].name
  {
    seq(|colors|, i requires 0 <= i < |colors| => colors[i].name)
  }

  lemma RowTextsSwapped(colors: seq<ColorEntry>, i: nat, j: nat)
    requires i < |colors| && j < |colors|
    ensures RowTexts(Swapped(colors, i, j)) == Swapped(RowTexts(colors), i, j)
  {
    var l := RowTexts(Swapped(colors, i, j));
    var r := Swapped(RowTexts(colors), i, j);
    forall k | 0 <= k < |colors| ensures l[k] == r[k] {
    }
  }

  /** The colour dialog: the palette `colors`, the texts of the list rows mirroring it,
      the list's current row (-1 for none) and the "every x" spin box. */
  class ColorListDialog {
    var colors: seq<ColorEntry>
    var items: seq<string>
    var currentRow: int
    var everyX: int

    ghost predicate Valid()
      reads this
    {
      items == RowTexts(colors) && -1 <= currentRow < |colors| && 1 <= everyX <= 100
    }

    /** The dialog opens with the bundled palette, no current row and x = 2. */
    constructor (predefined: seq<ColorEntry>)
      ensures Valid()
      ensures colors == predefined && currentRow == -1 && everyX == 2
    {
      colors := predefined;
      items := RowTexts(predefined);
      currentRow := -1;
      everyX := 2;
    }

    /** `QListWidget.takeItem(row)` */
    method TakeItem(row: nat) returns (t: string)
      requires row < |items|
      modifies this`items
      ensures t == old(items)[row] && items == RemovedAt(old(items), row)
    {
      t := items[row];
      items := RemovedAt(items, row);
    }

    /** `QListWidget.insertItem(row, item)` */
    method InsertItem(row: nat, t: string)
      requires row <= |items|
      modifies this`items
      ensures items == InsertedAt(old(items), row, t)
    {
      items := InsertedAt(items, row, t);
    }

    /** `_swap_rows`: the two entries exchange places, in the palette and in the list,
        and the current row becomes `rowB`; out-of-range or equal rows change nothing. */
    method SwapRows(rowA: int, rowB: int)
      requires Valid()
      modifies this`colors, this`items, this`currentRow
      ensures Valid()
      ensures rowA == rowB || rowA < 0 || rowB < 0 || rowA >= |old(colors)| || rowB >= |old(colors)| ==>
                colors == old(colors) && currentRow == old(currentRow)
      ensures rowA != rowB && 0 <= rowA < |old(colors)| && 0 <= rowB < |old(colors)| ==>
                colors == Swapped(old(colors), rowA, rowB) && currentRow == rowB
    {
      if rowA == rowB {
        return;
      }
      if rowA < 0 || rowB < 0 {
        return;
      }
      if rowA >= |items| || rowB >= |items| {
        return;
      }
      RowTextsSwapped(colors, rowA, rowB);
      colors := Swapped(colors, rowA, rowB);
      MoveItems(rowA, rowB);
      currentRow := rowB;
    }

    /** The list rows of `_swap_rows`: take a, take b, put them back the other way round,
        the lower row first */
    method MoveItems(rowA: nat, rowB: nat)
      requires rowA < |items| && rowB < |items| && rowA != rowB
      modifies this`items
      ensures items == Swapped(old(items), rowA, rowB)
    {
      TakeTwiceInsertTwice(items, rowA, rowB);
      var itemA := TakeItem(rowA);
      var itemB := TakeItem(if rowB > rowA then rowB - 1 else rowB);
      if rowB > rowA {
        InsertItem(rowA, itemB);
        InsertItem(rowB, itemA);
      } else {
        InsertItem(rowB, itemA);
        InsertItem(rowA, itemB);
      }
    }

    /** `move_color_up`: with the up button enabled the current entry moves one place up
        and stays current; otherwise nothing changes. */
    method MoveColorUp()
      requires Valid()
      modifies this`colors, this`items, this`currentRow
      ensures Valid()
      ensures !ButtonStates(old(currentRow), |old(colors)|).up ==> colors == old(colors) && currentRow == old(currentRow)
      ensures ButtonStates(old(currentRow), |old(colors)|).up ==>
                colors == Swapped(old(colors), old(currentRow), old(currentRow) - 1) &&
                currentRow == old(currentRow) - 1 && colors[currentRow] == old(colors)[old(currentRow)]
    {
      var row := currentRow;
      if row <= 0 {
        return;
      }
      SwapRows(row, row - 1);
    }

    /** `move_color_down`: with the down button enabled the current entry moves one place
        down and stays current; otherwise nothing changes. */
    method MoveColorDown()
      requires Valid()
      modifies this`colors, this`items, this`currentRow
      ensures Valid()
      ensures !ButtonStates(old(currentRow), |old(colors)|).down ==> colors == old(colors) && currentRow == old(currentRow)
      ensures ButtonStates(old(currentRow), |old(colors)|).down ==>
                colors == Swapped(old(colors), old(currentRow), old(currentRow) + 1) &&
                currentRow == old(currentRow) + 1 && colors[currentRow] == old(colors)[old(currentRow)]
    {
      var row := currentRow;
      if row < 0 || row >= |items| - 1 {
        return;
      }
      SwapRows(row, row + 1);
    }

    /** `remove_color`: with the remove button enabled the current entry is dropped and
        the others keep their order; the list's current row moves to the entry after it,
        or to the new last one. */
    method RemoveColor()
      requires Valid()
      modifies this`colors, this`items, this`currentRow
      ensures Valid()
      ensures !ButtonStates(old(currentRow), |old(colors)|).remove ==> colors == old(colors) && currentRow == old(currentRow)
      ensures ButtonStates(old(currentRow), |old(colors)|).remove ==>
                colors == old(colors)[..old(currentRow)] + old(colors)[old(currentRow) + 1..] &&
                currentRow == (if old(currentRow) < |colors| then old(currentRow) else |colors| - 1)
    {
      var row := currentRow;
      if row >= 0 {
        var _ := TakeItem(row);
        colors := colors[..row] + colors[row + 1..];
        if row >= |items| {
          currentRow := |items| - 1;
        }
      }
    }

    /** `clear_all`: after confirmation the palette is emptied. */
    method ClearAll(confirmed: bool)
      requires Valid()
      modifies this`colors, this`items, this`currentRow
      ensures Valid()
      ensures confirmed ==> colors == [] && currentRow == -1
      ensures !confirmed ==> colors == old(colors) && currentRow == old(currentRow)
    {
      if confirmed {
        items := [];
        colors := [];
        currentRow := -1;
      }
    }

    /** `save_colors_to_json`: the file to write and what goes into it; `None` when the
        dialog was cancelled. */
    method SaveColorsToJson(chosen: string) returns (r: Option<(string, Json)>)
      requires Valid()
      ensures chosen == "" <==> r.None?
      ensures r.Some? ==> r.value == (SaveFileName(chosen).value, SavedJson(colors))
    {
      if chosen == "" {
        return None;
      }
      var fileName := chosen;
      if !EndsWith(Lower(fileName), ".json") {
        fileName := fileName + ".json";
      }
      var data: seq<Json> := [];
      var i := 0;
      while i < |colors|
        invariant 0 <= i <= |colors|
        invariant data == SavedJson(colors[..i]).elems
      {
        data := data + [JObject(map["name" := JString(colors[i].name), "hex" := JString(ColorName(colors[i].color))])];
        i := i + 1;
      }
      assert colors[..i] == colors;
      r := Some((fileName, JArray(data)));
    }

    /** `load_colors_from_json`: a cancelled dialog, an unreadable file or a failed parse
        leaves the palette as it was; otherwise it is replaced by the file's entries.
        A non-string name fails the load before anything is replaced (see
        `ReplaceAsWritten` for what the source does instead). */
    method LoadColorsFromJson(fileName: string, contents: Result<Json>) returns (out: LoadOutcome)
      requires Valid()
      modifies this`colors, this`items, this`currentRow
      ensures Valid()
      ensures fileName == "" ==> out == Cancelled
      ensures fileName != "" ==> (out.LoadedCount? <==> Loadable(contents))
      ensures !out.LoadedCount? ==> colors == old(colors) && currentRow == old(currentRow)
      ensures out.LoadedCount? ==>
                colors == Loaded(LoadedEntries(contents)) && out.count == |colors| && currentRow == -1
    {
      if fileName == "" {
        return Cancelled;
      }
      if contents.Err? {
        return Failed(contents.message);
      }
      var colorsData := ColorsData(contents.value);
      if colorsData.Err? {
        return Failed(colorsData.message);
      }
      var parsed := ParseEntries(colorsData.value);
      if parsed.Err? {
        return Failed(parsed.message);
      }
      var raws := parsed.value;
      var k := 0;
      while k < |raws|
        invariant 0 <= k <= |raws|
        invariant forall m :: 0 <= m < k ==> raws[m].name.JString?
      {
        if !raws[k].name.JString? {
          return Failed(BadNameArgument);
        }
        k := k + 1;
      }
      ReplacePalette(raws);
      out := LoadedCount(|colors|);
    }

    /** The palette cleared and refilled with the entries in file order; no row stays
        selected. */
    method ReplacePalette(raws: seq<RawEntry>)
      requires Valid() && forall k :: 0 <= k < |raws| ==> raws[k].name.JString?
      modifies this`colors, this`items, this`currentRow
      ensures Valid()
      ensures colors == Loaded(raws) && currentRow == -1
    {
      items := [];
      colors := [];
      currentRow := -1;
      var i := 0;
      while i < |raws|
        invariant 0 <= i <= |raws|
        invariant colors == Loaded(raws[..i]) && items == RowTexts(colors) && currentRow == -1
      {
        var entry := ColorEntry(raws[i].name.s, raws[i].color);
        colors := colors + [entry];
        items := items + [entry.name];
        i := i + 1;
      }
      assert raws[..i] == raws;
    }

    /** `apply_every_x_input_click`: for each selected object in turn, the objects chosen
        by stepping every x segments round its ring; the first error aborts the click. */
    method ApplyEveryXInputClick(objs: seq<DocObject>, hasDoc: bool, selection: seq<DocObject>)
      returns (r: Result<seq<nat>>)
      requires Valid()
      ensures !hasDoc ==> r == Err(NoDocument)
      ensures hasDoc && selection == [] ==> r == Err(NoSelection)
      ensures hasDoc && selection != [] ==> r == EveryXForAll(objs, selection, everyX)
    {
      if !hasDoc {
        return Err(NoDocument);
      }
      if selection == [] {
        return Err(NoSelection);
      }
      var newSelection: seq<nat> := [];
      var i := 0;
      assert selection[0..] == selection;
      PrependNothing(EveryXForAll(objs, selection, everyX));
      while i < |selection|
        invariant 0 <= i <= |selection|
        invariant EveryXForAll(objs, selection, everyX) == Prepend(newSelection, EveryXForAll(objs, selection[i..], everyX))
      {
        var chosen := EveryXForObjectMethod(objs, selection[i].labelText, everyX);
        EveryXForAllStep(objs, selection, i, everyX);
        if chosen.Err? {
          return Err(chosen.message);
        }
        PrependTwice(newSelection, chosen.value, EveryXForAll(objs, selection[i + 1..], everyX));
        newSelection := newSelection + chosen.value;
        i := i + 1;
      }
      assert selection[i..] == [];
      assert newSelection + [] == newSelection;
      r := Ok(newSelection);
    }
  }
}
