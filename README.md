# Woodturning workbench: a verified model of its geometry and bookkeeping

The woodturning workbench is a set of FreeCAD panels for designing turned bowls and vessels. A segmented bowl starts from a profile sketch. It is cut into layers, and each layer into a ring of trapezoidal segments. The rings are then staggered, coloured, listed in a spreadsheet and laid out flat for a plan drawing. Other panels draw bowls from a board, tori, catenary curves, wedges, off-centre turning sketches and imported vessel profiles.

This project models the rules those panels apply, with the CAD host replaced by plain data:

- **The document** (module `Doc`) is an ordered list of `DocObject` records held by a `Document` class. A record has a Name, a Label, a type, a placement, visibility, sketch geometry and constraints, dynamic properties and an image size. `addObject` appends an object under a fresh Name, and `copyObject`, `removeObject` and `MoveToEnd` (moving an object to the end of the order) are list operations.
- **Placements** (module `Geometry`) carry a base point and a rotation. A rotation is a tilt about x followed by an angle about z, in degrees. Every rotation the panels compose is about z, so composing is adding angles.
- **The var-set** (module `VarSet`) is the "BowlVariables" object whose properties every panel reads and writes.
- **The transcendental functions** `tan`, `sin`, `cos`, `cosh` and the constant pi are fields of a `MathLib` value passed in as a parameter. Only the facts a lemma needs are assumed of them, as `requires`.
- **Python behaviour the panels depend on** is written out: string slicing and comparison, and the common subset of `int()`/`float()` parsing (white space around an optional sign, ASCII digits and, for `float()`, one decimal point) in `Text`; `int`, `math.ceil` and `round` in `Numbers`; `sorted`/`list.sort` in `Sorting`.
- **Exceptions** become `Err` values of a `Result` type (module `Wrappers`). A method that raises in the source returns `Err` with the state the source leaves behind.

There is one module per source file, and the modules keep its shape:

- a panel whose methods update its fields is a class with those fields;
- a loop is a method with its invariants, proved equal to a function of its inputs;
- the rules the source promises are lemmas about those functions.

Two modules are shared: `Rings` holds the ring bookkeeping used by the segment and ring panels, and `VesselImage` the image scaling used by the two vessel panels.

Lengths are millimetres. A number parsed from a text box is a Dafny `real`, so float rounding is not modelled.

## Model

| member | source | states |
|---|---|---|
| AddSegments.UpdateWrites | AddSegments.py:193-201 | the var-set writes of `update_values` touch only property maps: every object keeps its Name, Label, placement and shape |
| AddSegments.PointsOfSpec | AddSegments.py:597-602 | a point is collected exactly when some geometry of the sketch is a `Part::GeomPoint` at it |
| AddSegments.ProfilePointsSpec | AddSegments.py:597-603 | the profile points are the sketch's point geometries, each as often as it occurs, sorted ascending by y |
| AddSegments.CollectProfilePoints | AddSegments.py:597-603 | the collection loop followed by the sort yields exactly the profile points |
| AddSegments.LayerOfSpec | AddSegments.py:609-620 | layer b has radius max(l,m,n,o)+fudge (the outer profile radius plus fudge), trapezoid height (max-min)+2·fudge or the radius itself for a solid first layer, z level y_b, and reaches y_{b+1} |
| AddSegments.Layers | AddSegments.py:608 | one layer per consecutive pair of points, none for fewer than two points |
| AddSegments.LayersStack | AddSegments.py:603-620 | over points sorted by y the layers start at the lowest point, have non-negative extrusion, each starts where the previous ends, and the last ends at the highest point |
| AddSegments.SegmentOutlineShape | AddSegments.py:538-559 | the wedge has 5 vertices with the last equal to the first, all at z_level, left corners mirroring right ones, the top at y = radius with half-width radius·tan(180/N), the bottom at y = radius - trapezoid_height, or both bottom corners at the origin when solid |
| AddSegments.SolidBottomKeepsTop | AddSegments.py:548-551 | the solid-bottom option leaves the two top corners unchanged |
| AddSegments.SolidLayerReachesAxis | AddSegments.py:617-618 | a trapezoid as tall as its radius without `solid_bottom` gives the same wedge as with it: the solid first layer reaches the axis |
| AddSegments.RingLabelRingNumber | AddSegments.py:634-640 | `Ring_kkk_001` and `Ring_kkk_002` share the 9-character ring prefix, are 12 characters long, and characters 5..8 read back as k |
| AddSegments.RelabelledAll | AddSegments.py:632-634 | object i is relabelled `Ring_kkk_001` with k one more than the number of Intersect-labelled objects before it; other objects are unchanged |
| AddSegments.RingCopies | AddSegments.py:636-640 | a ring yields N-1 copies, none when N <= 1 |
| AddSegments.RingCopyAt | AddSegments.py:636-640 | copy c is the relabelled ring object labelled `Ring_kkk_002`, at the origin, turned by c·360/N |
| AddSegments.AllRingCopiesCount | AddSegments.py:632-641 | the array adds (number of Intersect objects)·(N-1) copies |
| AddSegments.RingCopiesShape | AddSegments.py:636-640 | every copy of one ring is given the Label `_002` as the macro sets it (before the host makes Labels unique), sits at the origin and is turned by a whole number i (1 <= i < N) of segment angles |
| AddSegments.AllRingCopiesShape | AddSegments.py:632-641 | every copy of every ring is shaped so |
| AddSegments.HighestFaceSpec | AddSegments.py:383-390 | the face loop finds the maximum centre height (at least -1) and the first face that attains it |
| AddSegments.OpenedFace | AddSegments.py:383-395 | the corrected open face is one no other face is higher than |
| AddSegments.OpenedFaceIgnoresHighest | AddSegments.py:383-394 | with face heights [0,0,0,10] the highest face is index 3 while the code as written opens 'Face3' (index 2) |
| AddSegments.PickHighestFace | AddSegments.py:381-390 | an empty face list raises at `faces_list[0]`; otherwise the loop picks the first highest face |
| AddSegments.FindByLabelOnlyProperties | AddSegments.py:587-590 | writing var-set values does not change which object the sketch Label finds |
| AddSegments.StaggerRings | AddSegments.py:224-242 | the ring loop turns the objects of each 9-character ring group, in sorted group order, by its stagger for step r·r |
| AddSegments.RingTurnIsStagger | AddSegments.py:235-242 | ring k is turned by rotation_per_ring·starting_angle with starting_angle = k·rotation_per_ring, which is k·r·r |
| AddSegments.AddSegmentsTaskPanel.constructor | AddSegments.py:42-61 | the panel opens only with a var-set and starts with 12 segments, fudge 4, solid bottom and an empty segment list |
| AddSegments.FieldsUpdated | AddSegments.py:193-206 | when every box parses the fields are exactly the parsed values and the radio button; when the segment count does not parse nothing changes; a failure never touches solid_bottom |
| AddSegments.AddSegmentsTaskPanel.UpdateValues | AddSegments.py:193-206 | fields are parsed in order, each writing its var-set property; the first unparsable field stops the rest, leaving earlier fields updated and later ones as they were; the radio sets solid_bottom only on success |
| AddSegments.AddSegmentsTaskPanel.MakeSegment | AddSegments.py:534-567 | adds one `Segment_000` feature under a fresh Name holding the wedge extruded by extrude_height, with the angle taken from the panel's bowl_num_segments; zero segments raise and add nothing |
| AddSegments.AddSegmentsTaskPanel.PlacedSegment | AddSegments.py:617-624 | one layer: the segment is made and turned -90 degrees about z, and its Name starts with `Segment_000` |
| AddSegments.AddSegmentsTaskPanel.AddLayerSegments | AddSegments.py:595-625 | the segment list is reset and gets one Name per layer, in order, each naming a new segment of that layer; no layers add nothing; zero segments raise before any is added |
| AddSegments.AddSegmentsTaskPanel.AddSegmentsFromSketch | AddSegments.py:589-625 | without the `BowlProfileSketch` Label the click reports "Missing Sketch" and changes nothing; fewer than two points build nothing; zero segments fail before the first segment is added; otherwise the sorted sketch points give the layers |
| AddSegments.AddSegmentsTaskPanel.BtAddSegmentsClick | AddSegments.py:584-625 | the panel fields end as FieldsUpdated says; an unparsable field stops the click with only the var-set writes made before it and the segment list untouched; a missing sketch leaves the same state; zero segments add nothing and fail when there are two points or more; otherwise the layers are built from the sketch as it was before |
| AddSegments.AddSegmentsTaskPanel.ArrayRings | AddSegments.py:630-641 | the k-th Intersect object is relabelled `Ring_kkk_001` in place and all copies are appended after the existing objects, ring by ring |
| AddSegments.AddSegmentsTaskPanel.ArrayOne | AddSegments.py:632-641 | one pass over an object extends the relabelled prefix and the appended copies by that object's share |
| AddSegments.AddSegmentsTaskPanel.RelabelAndCopy | AddSegments.py:633-641 | one Intersect object: relabelled `_001`, then its N-1 copies appended in order |
| AddSegments.AddSegmentsTaskPanel.BtArraySegmentsClick | AddSegments.py:627-642 | the panel is read first; on success every ring is relabelled and arrayed with the parsed segment count |
| AddSegments.AddSegmentsTaskPanel.BtRotateRingsClick | AddSegments.py:219-242 | the panel is read first; on success ring k (in sorted order) is turned by rotation_per_ring·(k·rotation_per_ring) |
| AddSegments.AddSegmentsTaskPanel.BowlSolidPoles | AddSegments.py:244-279 | the panel is read (fields as FieldsUpdated says) and, once the sketch is found, the segment list reset; an unparsable field or a missing sketch leaves the list as it was; no sketch, no point, or a single point is each reported and stops; otherwise the sorted points are the poles |
| AddSegments.AddSegmentsTaskPanel.ProfilePoles | AddSegments.py:252-279 | the sketch checks of the bowl-solid click on the document as it is |
| Rings.FirstSeenGroupsSpec | RotateRings.py:177-181 | the groups collected in first-seen order are distinct, all start with `Ring_`, and a string is collected exactly when it is the 9-character prefix of some `Ring_` Label |
| Rings.RingGroupsSpec | RotateRings.py:176-183 | `list_of_rings` after the sort: ascending, no repeats, each starting with `Ring_`, exactly the 9-character prefixes of the `Ring_` Labels |
| Rings.CollectRingGroups | AddSegments.py:224-233 | the collecting loop and the sort give exactly the sorted ring groups |
| Rings.TurnGroup | RotateRings.py:210-215 | every object whose Label starts with the prefix has the same turn composed onto its rotation, base kept; others are unchanged; Names are kept |
| Rings.TurnObjectsWithPrefix | RotateRings.py:211-215 | the loop over all objects leaves the document as TurnGroup describes |
| Rings.Staggered | RotateRings.py:186-196 | every object is turned about z by its stagger amount, its base kept |
| Rings.StaggerOneMore | RotateRings.py:186-196 | one more pass of the ring loop (ring k turned by k·step) extends the stagger by that ring |
| Rings.StaggeredByNothing | RotateRings.py:184-186 | with no ring groups nothing turns |
| Rings.StaggerLinear | RotateRings.py:194-195 | the stagger amount is linear in the step |
| Rings.StaggeredTwice | RotateRings.py:194-195 | a second rotate-rings run adds every ring's amount again: staggering by a and then b is staggering by a+b |
| Rings.StaggerOfNonRing | RotateRings.py:178-179 | an object whose Label does not start with `Ring_` is not turned |
| Rings.StaggerOfRingObject | RotateRings.py:186-196 | a ring object is turned by exactly its own group's position in the sorted list times the step |
| Rings.StaggerAtIndex | RotateRings.py:188-196 | when only group k matches the Label, the stagger is k·step |
| Rings.StaggerUpTo | RotateRings.py:186-197 | within the first m groups only the object's own group contributes |
| RotateRings.RotationAngle | RotateRings.py:153-170 | `get_rotation_angle` fails (division by zero) exactly in percent mode with zero segments |
| RotateRings.LeftIsOppositeOfRight | RotateRings.py:154-157 | Left gives exactly the negation of Right |
| RotateRings.PercentOfASegment | RotateRings.py:158-164 | in percent mode the angle times N is 360·p·d for p in {0.25, 0.33, 0.50} and d = ±1; to the right with N > 0 it is positive |
| RotateRings.ManualAngle | RotateRings.py:165-170 | in manual mode an unparsable angle gives 0 and a parsed one, to the right, is used as it is |
| RotateRings.ResetObject | RotateRings.py:219-229 | a `Ring` object with a numeric 3-character suffix k gets the pure z rotation (k-1)·360/N, base kept; any other object is unchanged |
| RotateRings.ResetAll | RotateRings.py:218-229 | every object is reset by ResetObject; Names are kept |
| RotateRings.ResetIdempotent | RotateRings.py:226-229 | resetting twice gives the same document as resetting once |
| RotateRings.ResetForgetsRotation | RotateRings.py:228-229 | the reset replaces the rotation: any earlier rotation gives the same result |
| RotateRings.ResetUndoesStagger | RotateRings.py:186-229 | a reset after any stagger gives, on each resettable object, what a reset alone gives |
| RotateRings.ResetOfSecondCopy | RotateRings.py:221-229 | a `Ring` Label ending in `002`, as the arraying step sets it, resets to one segment angle 360/N, base kept |
| RotateRings.ResetOfRenumberedCopy | RotateRings.py:221-229 | a `Ring` Label ending in the three digits of i + 1, as the host renumbers copy i, resets to i segment angles, the angle that copy was arrayed at, base kept |
| RotateRings.RotateRingsPanel.constructor | RotateRings.py:60-61 | the rotation per ring starts at 15 and the segment count at the var-set's NumSegments |
| RotateRings.RotateRingsPanel.UpdateValues | RotateRings.py:240-243 | the segment count is parsed first (an unparsable text raises), then rotation_per_ring from `get_rotation_angle` |
| RotateRings.RotateRingsPanel.BtRotateRingsClick | RotateRings.py:171-198 | succeeds exactly when the panel reads; the segment count and rotation_per_ring end as `update_values` sets them from the inputs; then ring k in sorted order is turned by k·rotation_per_ring; a failed read changes nothing |
| RotateRings.RotateRingsPanel.BtRotateSelectedRingClick | RotateRings.py:199-215 | the segment count and rotation_per_ring end as `update_values` sets them from the inputs; a failed read, an empty selection or a first Label shorter than 8 characters is an error that changes nothing; otherwise every object starting with that 8-character prefix is turned by rotation_per_ring |
| RotateRings.RotateRingsPanel.ResetRotation | RotateRings.py:216-229 | the segment count and rotation_per_ring end as `update_values` sets them from the inputs; after a successful read every resettable object gets its copy rotation for the parsed count; zero segments raise before anything changes |
| RotateRings.ResetEach | RotateRings.py:218-229 | the loop succeeds exactly when no resettable object needs a division by zero, and then leaves ResetAll of the objects |
| RotateRings.ResetOne | RotateRings.py:219-229 | one pass resets object i, or raises with nothing changed when that needs zero segments |
| RotateRings.StaggerByRing | RotateRings.py:184-197 | the ring loop leaves the document staggered by the sorted ring groups with step rotation_per_ring |
| ApplyColors.SelectRingClick | ApplyColors.py:212-236 | no document or no selection is an error; otherwise exactly the objects whose Label starts with the first selected Label's 9-character prefix, in document order |
| ApplyColors.SelectColumnClick | ApplyColors.py:238-261 | no document or no selection is an error; otherwise exactly the objects whose Label ends with the first selected Label's last 3 characters, in document order |
| ApplyColors.SegmentInItsRingAndColumn | ApplyColors.py:225 | a Label `Ring_kkk_sss` has ring key `Ring_kkk_` and column key `sss`, which reads back as s |
| ApplyColors.ThresholdSpec | ApplyColors.py:350-356 | the closed form of the first step that passes a distance d with steps of x |
| ApplyColors.LookUpAll | ApplyColors.py:358-359 | each chosen Label is looked up in turn: the result lists, for every index, the first object with that Label; any missing Label is an IndexError |
| ApplyColors.SelectEveryXFrom | ApplyColors.py:346-358 | the `while not_done` loop for one selected object looks up exactly the Labels of the stepping indices |
| ApplyColors.EveryXSteps | ApplyColors.py:350-354 | each index is the previous one plus x, less N on the single wrap step; before the wrap no index exceeds N |
| ApplyColors.EveryXStops | ApplyColors.py:355-356 | the loop stops at the first index after the wrap that is at least the start segment |
| ApplyColors.EveryXFullCycle | ApplyColors.py:343-358 | when x divides N and s is a segment number the stepping goes once round in N/x steps, ends on s, and every index is a segment number |
| ApplyColors.FullCycleStop | ApplyColors.py:350-356 | for N = q·x the wrap comes by step q-1 and the loop stops there, on s |
| ApplyColors.FullCycleIndex | ApplyColors.py:350-354 | for N = q·x every step before q is a segment number |
| ApplyColors.EveryXOvershoots | ApplyColors.py:350-358 | indices are not reduced again after the wrap: from segment 12 of 12 in steps of 5 the Labels looked up end in 005, 010, 015 |
| ApplyColors.NumSegmentsOf | ApplyColors.py:263-280 | the dialog's own `getVarsetInt` returns the raw NumSegments of `BowlVariables`, None when either is missing |
| ApplyColors.EveryXForAllStep | ApplyColors.py:339-358 | the outer loop: the first selected object's choices come first, and its error stops the click |
| ApplyColors.EveryXForObjectMethod | ApplyColors.py:340-358 | one selected object: prefix, start segment, spin-box x and NumSegments, then its stepping |
| ApplyColors.HexDigitsValue | ApplyColors.py:604-606 | a run of k hexadecimal digits has a value below 16^k |
| ApplyColors.ParseColor | ApplyColors.py:604-606 | `QColor(hex).isValid()` holds only for `#` followed by 3, 6, 8, 9 or 12 hexadecimal digits |
| ApplyColors.ColorName | ApplyColors.py:558 | `QColor.name()` is `#` and six more characters |
| ApplyColors.ColorNameParses | ApplyColors.py:558 | a colour's name parses back to the same colour, made opaque |
| ApplyColors.ColorsData | ApplyColors.py:591-596 | a list is the entry list; an object gives its "colors" member (missing is empty); any other value, or a "colors" member that cannot be iterated, is a load error |
| ApplyColors.ParseEntries | ApplyColors.py:598-607 | the entry loop skips non-dict entries and invalid colours, and defaults name and hex to "Unnamed Color" and "#000000" |
| ApplyColors.SavedJson | ApplyColors.py:552-559 | the saved document is a plain list with one `{"name", "hex"}` object per palette entry, in order |
| ApplyColors.SavedEntryLoads | ApplyColors.py:552-559 | a saved entry's fields read back as its name and its opaque colour |
| ApplyColors.SaveThenLoad | ApplyColors.py:552-607 | loading what was saved gives every entry back in order, colours made opaque |
| ApplyColors.SaveFileName | ApplyColors.py:548-552 | an empty choice is a cancel; otherwise `.json` is appended unless the name already ends with it in any case |
| ApplyColors.SaveFileNameIdempotent | ApplyColors.py:551-552 | choosing the settled name again gives the same name |
| ApplyColors.Swapped | ApplyColors.py:474 | exactly the two entries exchange places; the rest and the multiset are kept |
| ApplyColors.SwappedTwice | ApplyColors.py:474 | swapping the same two rows twice restores the list |
| ApplyColors.RemovedAt | ApplyColors.py:440 | `takeItem`/`pop`: the entry at i is dropped, the others keep their order |
| ApplyColors.InsertedAt | ApplyColors.py:480-485 | `insertItem`: the item lands at i and the later ones shift by one |
| ApplyColors.TakeTwiceInsertTwice | ApplyColors.py:477-485 | taking rows a and b and inserting them back the other way round exchanges them in the list, in either order of a and b |
| ApplyColors.ReplaceAsWritten | ApplyColors.py:609-615 | as written, the palette and the list rows stay the same length exactly when every name is a string |
| ApplyColors.NonStringNameDesynchronises | ApplyColors.py:609-615 | a file whose only entry has a number as its name leaves one colour in the palette and no row in the list |
| ApplyColors.Loaded | ApplyColors.py:609-615 | a successful load shows the file's entries in order, with their names |
| ApplyColors.RowTextsSwapped | ApplyColors.py:476-486 | swapping palette entries swaps the names their rows show |
| ApplyColors.EnabledButtonsInRange | ApplyColors.py:455-464 | `on_selection_changed`: remove and apply are enabled iff there is a current row, up iff there is a row above it, down iff there is a row below it; an empty list enables nothing |
| ApplyColors.ColorListDialog.constructor | ApplyColors.py:62-105 | the dialog starts with the predefined palette, no current row and x = 2 |
| ApplyColors.ColorListDialog.TakeItem | ApplyColors.py:477 | `takeItem(row)` returns that row's text and removes it from the list |
| ApplyColors.ColorListDialog.InsertItem | ApplyColors.py:480-485 | `insertItem(row, t)` inserts t at row |
| ApplyColors.ColorListDialog.SwapRows | ApplyColors.py:466-486 | equal, negative or out-of-range rows change nothing; otherwise exactly those two entries exchange places and the current row becomes row_b |
| ApplyColors.ColorListDialog.MoveItems | ApplyColors.py:477-485 | the take-and-insert sequence exchanges the two list rows |
| ApplyColors.ColorListDialog.MoveColorUp | ApplyColors.py:488-493 | at row <= 0 nothing changes; otherwise the current entry moves up one place and stays current |
| ApplyColors.ColorListDialog.MoveColorDown | ApplyColors.py:495-500 | at row < 0 or row >= count-1 nothing changes; otherwise the current entry moves down one place and stays current |
| ApplyColors.ColorListDialog.RemoveColor | ApplyColors.py:436-441 | with a current row its entry is dropped and the others keep their order; without one nothing changes |
| ApplyColors.ColorListDialog.ClearAll | ApplyColors.py:443-453 | after confirmation the palette and the list are emptied, otherwise nothing changes |
| ApplyColors.ColorListDialog.SaveColorsToJson | ApplyColors.py:537-571 | a cancelled dialog writes nothing; otherwise the settled file name and the saved list of the current palette |
| ApplyColors.ColorListDialog.LoadColorsFromJson | ApplyColors.py:573-628 | a cancel, a read error or a parse failure leaves the palette as it was; otherwise it is replaced by the file's entries and the count reported is its length |
| ApplyColors.ColorListDialog.ApplyEveryXInputClick | ApplyColors.py:328-363 | no document or no selection is an error; otherwise the objects chosen for each selected object in turn with the spin-box x |
| TopView.SegmentObjectsSpec | TopView.py:238-248 | without a document no segments; otherwise exactly the objects whose Label starts with "Segment", each once, sorted by Label |
| TopView.GetSegmentObjects | TopView.py:238-248 | the filtering loop and the sort give exactly the segment objects |
| TopView.UpdatedSnapshot | TopView.py:127-135 | the snapshot is retaken only when it was empty or names other objects than the current segments; either way it then names exactly the current segments, in order |
| TopView.RotationStep | TopView.py:148 | `360 / num_segments` is defined exactly for a non-zero number read from the var-set, and times that number gives 360 |
| TopView.ShowOnlySegments | TopView.py:137-145 | Segment objects are shown, every other object hidden, nothing else changes |
| TopView.SortedSegmentLabelsSpec | TopView.py:136-146 | the sorted list holds exactly the Segment Labels, ascending |
| TopView.TurnAngleIsProduct | TopView.py:153-155 | the k-th label is turned by rotation_angle·count with count = k |
| TopView.RotateByLabels | TopView.py:150-155 | the turning loop for the first n sorted labels: it keeps the number of objects (its effect is stated by the lemmas below) |
| TopView.RotateByLabelsKeepsNames | TopView.py:150-155 | the turning loop keeps every Label and every Name |
| TopView.RotateByLabelsFrame | TopView.py:150-155 | the turning loop changes only placements, and only of objects whose Label has been turned so far |
| TopView.RotateByLabelsStepAt | TopView.py:152-154 | one more label turns the first object carrying it by its count times the step, composed onto its rotation |
| TopView.RotateByLabelsStep | TopView.py:150-155 | one more label: only the object `getObjectsByLabel(label)[0]` finds is turned |
| TopView.RotateAtDistinct | TopView.py:150-155 | with distinct labels each object ends turned by its own label's rank, once |
| TopView.TurnedByRankStep | TopView.py:150-155 | seen from the closed form, one more label turns the object it finds for the first time |
| TopView.RotateByDistinctLabels | TopView.py:150-155 | with distinct labels the object a label finds is turned by that label's position times the step; every other object keeps its placement |
| TopView.RotateSegmentsSpec | TopView.py:136-155 | when Segment Labels are distinct each Segment object, shown, is turned by its Label's rank among the sorted Segment Labels times 360/N; others are hidden and not turned |
| TopView.SortedSegmentLabelsFound | TopView.py:152 | every sorted Segment Label is found by `getObjectsByLabel` after the visibility pass |
| TopView.SegmentLabelsDistinct | TopView.py:146 | the sorted labels have no repeats when no two Segment objects share a Label |
| TopView.MaxFrom0 | TopView.py:183-189 | the fold of `max` from 0 is non-negative, bounds every value, and is 0 or one of them |
| TopView.Extents | TopView.py:185-189 | one extent per segment that has a shape and bounding box |
| TopView.PlanCellsDistinct | TopView.py:194-199 | with positive spacings, two different indices get different cells `(sx·(i mod 4), sy·(i div 4), 0)` |
| TopView.ArrangedUpTo | TopView.py:194-205 | the placement loop keeps every Name (its placements are stated by ArrangedSpec) |
| TopView.ArrangedSpec | TopView.py:194-205 | segment k sits in grid cell k with its own rotation, shown; every object that is not a segment is as it was |
| TopView.RestoredUpTo | TopView.py:225-231 | the restore loop for the first n saved entries: it keeps the number of objects (its effect is stated by the lemmas below) |
| TopView.RestoreEntry | TopView.py:226-230 | one saved entry puts back the placement of the object holding the Name, if any |
| TopView.RestoredKeepsNames | TopView.py:225-231 | restoring keeps every Name |
| TopView.RestoredStep | TopView.py:225-231 | one more entry: only the object found by its saved Name takes the saved placement |
| TopView.RestoredFrame | TopView.py:225-231 | restoring changes nothing but placements |
| TopView.PresentCount | TopView.py:223-231 | the count of saved Names still present is at most the number saved |
| TopView.FindOwnName | TopView.py:226 | with unique Names, `getObject` on an object's own Name finds that object |
| TopView.RestoredStepAt | TopView.py:226-230 | one more entry seen at one index |
| TopView.RestoreAt | TopView.py:225-231 | after Name-preserving changes, restoring the first n snapshot entries gives exactly those segments their snapshot placements |
| TopView.RestoreSnapshot | TopView.py:212-231 | after changes that keep every Name, a restore gives each snapshot object its placement from snapshot time and changes nothing else |
| TopView.RestoreUndoesPlan | TopView.py:157-231 | a restore right after the plan array, from the snapshot taken just before, puts every object back at its placement |
| TopView.RestoreUndoesRotate | TopView.py:117-231 | a restore right after the rotate click, from the snapshot taken just before, puts every object back at its placement |
| TopView.RestoreFindsOriginal | TopView.py:226-229 | a saved Name is found during the restore exactly when it was in the document to begin with |
| TopView.TopViewPanel.constructor | TopView.py:63-64 | the panel starts with the var-set's NumSegments and an empty snapshot |
| TopView.TopViewPanel.SaveLocationsIfChanged | TopView.py:127-135 | the snapshot becomes UpdatedSnapshot of the current segments |
| TopView.TopViewPanel.BtRotateSegments | TopView.py:117-155 | with no segments an error and no change; otherwise the snapshot is updated, Segment objects shown and others hidden, and then, when 360/N is defined, the k-th sorted Segment Label's object turns by k·360/N |
| TopView.TopViewPanel.BtArraySegmentsForPlan | TopView.py:157-210 | no document or no segments is an error with no change; otherwise the snapshot is updated and segment k moves to cell k of four columns spaced by the largest extents, rotation kept, shown |
| TopView.TopViewPanel.BtRestoreSegmentLocations | TopView.py:212-236 | no document or no snapshot is an error with no change; otherwise every saved Name still present gets its placement back, and restored + missing = number saved |
| TopView.RestoreAll | TopView.py:223-231 | the restore loop leaves RestoredUpTo of the document, restored counts the Names present, and restored + missing = number saved |
| TopView.RestoreOne | TopView.py:226-231 | one pass: found exactly when the Name is present, and then that object takes the placement |
| TopView.ShowSegmentsOnly | TopView.py:136-146 | the visibility loop shows exactly the Segment objects and leaves the list the sorted Segment Labels |
| TopView.SortedLabelsAreSortedSegmentLabels | TopView.py:146 | any sorted arrangement of the Segment Labels is the sorted Segment Labels |
| TopView.VisitObject | TopView.py:138-146 | one pass: object i shown or hidden, its Label appended when it is a Segment, and the list sorted |
| TopView.TurnByLabels | TopView.py:150-155 | the turning loop leaves RotateByLabels of the document |
| TopView.Spacings | TopView.py:183-192 | the bounding-box loop leaves the largest X and Y extents, folded from 0 |
| TopView.ArrangeInGrid | TopView.py:194-205 | the placement loop leaves ArrangedUpTo of the document |
| BowlConstructionLines.AsNumber | BowlConstructionLines.py:164-170 | a stored property takes part in arithmetic exactly when it is present and numeric, and a float reads as itself |
| BowlConstructionLines.StoredSettings | BowlConstructionLines.py:80-86 | an existing var-set gives the panel's start values exactly when BowlHeight, LayerHeight and BowlWidth are numbers and the layer height is not zero; the heights as stored, the radius `round(BowlWidth / 2)` with ties to even |
| BowlConstructionLines.DefaultsReadBack | BowlConstructionLines.py:64-83 | a var-set created by this panel gives back height 254, radius 50 (half of the stored width 100) and layer height 25.4, and NumSegments 12, when the panel is reopened |
| BowlConstructionLines.UpdateTextBoxesAsWritten | BowlConstructionLines.py:197-215 | as written: a layer-height edit shows `int(height / layer)` whenever the text parses to a non-zero number and never raises; a layer-count edit shows the height over the count rounded to two decimals, and a count of 0 raises past the `except ValueError` |
| BowlConstructionLines.RoundedLayerHeightLosesALayer | BowlConstructionLines.py:207-212 | for 7 layers of a 254 mm bowl the box shows 36.29, and 254 / 36.29 truncates to 6 layers |
| BowlConstructionLines.UpdateTextBoxes | BowlConstructionLines.py:197-215 | the corrected handler: the same cases, with the layer height shown exactly, so that it times the count is the bowl height |
| BowlConstructionLines.LayerCountRoundTrip | BowlConstructionLines.py:207-212 | with the exact layer height, n layers asked for are n layers generated, for any non-zero height and count |
| BowlConstructionLines.Generated | BowlConstructionLines.py:245-261 | a run of n layers adds 2n + 1 geometries |
| BowlConstructionLines.GeneratedConstraints | BowlConstructionLines.py:246-260 | a run of n layers adds 4n + 1 constraints |
| BowlConstructionLines.WithRunStep | BowlConstructionLines.py:249-260 | layer i appends its line and its point after the 2i - 1 geometries already there, and four constraints on those indices |
| BowlConstructionLines.GeneratedShape | BowlConstructionLines.py:245-261 | the first point sits at (radius/2, 0); layer i's line runs from (0, i·layer) to (radius + 25, i·layer), construction when asked, and its point sits at (radius/2 + 5i, i·layer) |
| BowlConstructionLines.HeightsIncrease | BowlConstructionLines.py:250 | with a positive layer height, higher layers sit strictly higher |
| BowlConstructionLines.PointsClimb | BowlConstructionLines.py:245-261 | with a positive layer height the points of a run climb strictly, layer by layer |
| BowlConstructionLines.HoldsExtends | BowlConstructionLines.py:245-261 | geometry appended later leaves every constraint that held still holding |
| BowlConstructionLines.RunSatisfiesConstraints | BowlConstructionLines.py:245-261 | the positions written satisfy every constraint the run adds: on-axis, horizontal, DistanceY i·layer, and point on its line |
| BowlConstructionLines.PointIndices | BowlConstructionLines.py:245-259 | the recorded point indices of a run starting at g0 are g0, g0 + 2, ..., g0 + 2n |
| BowlConstructionLines.PointIndicesArePoints | BowlConstructionLines.py:245-259 | every recorded index names a point of the sketch, the k-th at height k·layer |
| BowlConstructionLines.GeneratedPointAt | BowlConstructionLines.py:259-260 | entry 2k of a run is the point of layer k |
| BowlConstructionLines.WithLinesAppends | BowlConstructionLines.py:237-261 | an existing BowlProfileSketch is extended in place, its old geometry and constraints kept as a prefix and no other object touched; without one, a new sketch holding just the run is appended |
| BowlConstructionLines.LinesWrites | BowlConstructionLines.py:193-195 | the var-set writes change properties only, keeping every Name |
| BowlConstructionLines.WritesReadBack | BowlConstructionLines.py:193-195 | after the writes the var-set reads back NumSegments 12 and the two heights, for each property it lists |
| BowlConstructionLines.OpenPanel | BowlConstructionLines.py:56-83 | without a document the panel fails; a missing var-set is created with the six defaults and the panel starts from 254 / 127 / 25.4; otherwise the document is unchanged and the panel starts from the stored values, failing when they cannot be read |
| BowlConstructionLines.SketchIndex | BowlConstructionLines.py:237-243 | the index of the profile sketch lies inside the prepared document |
| BowlConstructionLines.WithLinesOnPrepared | BowlConstructionLines.py:237-261 | a run is the prepared sketch extended in place |
| BowlConstructionLines.FindOrAddSketch | BowlConstructionLines.py:237-243 | the sketch is found by Name or appended upright and empty |
| BowlConstructionLines.RunLines | BowlConstructionLines.py:237-261 | the run succeeds exactly when the layer height is not zero, leaves WithLines of the document, and records the indices of every point added |
| BowlConstructionLines.AddFirstPoint | BowlConstructionLines.py:245-247 | the first point is added at the end of the sketch's geometry, with its constraint |
| BowlConstructionLines.AddLayer | BowlConstructionLines.py:250-260 | one pass adds layer i's line and point and four constraints; the point takes index start + 2i |
| BowlConstructionLines.AddLayers | BowlConstructionLines.py:249-260 | the layer loop leaves the sketch holding the run of n layers and returns the indices of their points |
| BowlConstructionLines.ConstructionLinesPanel.constructor | BowlConstructionLines.py:60-63 | the panel holds the given settings, construction lines on, no points |
| BowlConstructionLines.ConstructionLinesPanel.UpdateValues | BowlConstructionLines.py:180-195 | the three numbers are parsed in order and a failure stops there with the earlier ones taken; then the radio button, and NumSegments 12 and both heights written; without a document the writes fail |
| BowlConstructionLines.ConstructionLinesPanel.GenerateLines | BowlConstructionLines.py:232-263 | without a document nothing changes; otherwise the run is appended, the attempt fails exactly for a zero layer height, and the point list is reset for a new sketch and extended by the run's point indices |
| BowlConstructionLines.ConstructionLinesPanel.BtGenerateLinesClick | BowlConstructionLines.py:229-263 | a parse failure or no document ends the click unchanged; otherwise the parsed settings are written to the var-set and the run follows from them |
| BowlConstructionLines.ConstructionLinesPanel.BtDeleteLinesClick | BowlConstructionLines.py:265-282 | every geometry of the profile sketch is deleted and nothing else changes; without a document, or without the sketch, nothing changes |
| WedgeGenerator.OuterVertices | WedgeGenerator.py:161-175 | the outer trapezoid has four vertices |
| WedgeGenerator.InnerVerticesAsWritten | WedgeGenerator.py:162-180 | as written, the inner outline has four vertices |
| WedgeGenerator.InnerVertices | WedgeGenerator.py:162-180 | the corrected inner outline has four vertices |
| WedgeGenerator.OuterShape | WedgeGenerator.py:161-175 | the short end is at x = 0 and `width` wide about the axis, the long end at x = len, and both long sides open at slope tan(half angle) |
| WedgeGenerator.OutlinesSymmetric | WedgeGenerator.py:168-180 | each vertex of either outline has its mirror image in the x axis among that outline's vertices |
| WedgeGenerator.InnerSideTiltsAsWritten | WedgeGenerator.py:162-180 | as written, the inner top side crosses the outer one with cross product len · t · d, so the two are not parallel whenever the wedge has a length, opens and is offset |
| WedgeGenerator.InnerOutlineOffset | WedgeGenerator.py:162-180 | corrected: the inner ends lie d inside the outer ends, each inner side vertex lies d inside the outer side at its own x, and the inner sides are parallel to the outer ones |
| WedgeGenerator.WedgeGeometry | WedgeGenerator.py:186-201 | corrected (see Findings): the sketch gets eight lines: outer loop, then inner loop |
| WedgeGenerator.WedgeLoopsClosed | WedgeGenerator.py:186-213 | the four coincidences hold on the outer loop, and each loop's lines join end to start all the way around |
| WedgeGenerator.WedgeGeneratorPanel.constructor | WedgeGenerator.py:59-63 | the defaults: length 100, small end 50, 16 segments, thickness 10, offset 12.7 |
| WedgeGenerator.WedgeGeneratorPanel.UpdateValues | WedgeGenerator.py:230-236 | the five boxes are converted in order; a failure stops there, the values before it taken and the rest kept |
| WedgeGenerator.WedgeGeneratorPanel.BtMakeWedge | WedgeGenerator.py:143-224 | corrected (see Findings): the five settings end as `update_values` converts them from the boxes, up to the first failure; succeeds exactly with a document, five boxes that parse and a non-zero count; then one new sketch, drawn from the parsed values, holds the eight lines and four coincidences. A zero count fails after the sketch was added and leaves it empty; a parse failure adds nothing |
| WedgeGenerator.WedgeGeneratorPanel.AddWedgeSketch | WedgeGenerator.py:150-221 | corrected (see Findings): with a document and a non-zero count, a new sketch with the eight lines and four coincidences is appended; a zero count leaves the new sketch empty |
| BowlFromABoard.RingVertices | BowlFromABoard.py:290-304 | a ring's cross-section has four corners |
| BowlFromABoard.RingEdges | BowlFromABoard.py:290-304 | the bottom edge is horizontal and one base length long, the top edge one ring height above it; the bottom ring starts at the origin |
| BowlFromABoard.RingSides | BowlFromABoard.py:290-304 | slanted sides lean at the slice angle (`ring_height / tan` outward per ring height); the bottom ring's inner side stands on the axis, the top ring's outer side is vertical |
| BowlFromABoard.InnerRingIsParallelogram | BowlFromABoard.py:290-294 | an inner ring's cross-section is a parallelogram |
| BowlFromABoard.RingPlan | BowlFromABoard.py:184-193 | a click plans `number_of_rings` rings when there are at least 3; with fewer the loop variable is never bound, so only the bottom ring gets made |
| BowlFromABoard.PlanEntry | BowlFromABoard.py:188-193 | ring 0 is the bottom call, rings 1 to n - 2 the loop's passes, ring n - 1 the top call made with the loop's last i |
| BowlFromABoard.InnerRingAt | BowlFromABoard.py:189-191 | the rings between the first and last are inner rings at their own height and radius |
| BowlFromABoard.InnerSpecIsUpper | BowlFromABoard.py:189-191 | pass i makes ring i + 1: named "Ring<i+1>", starting at (i+1) ring thicknesses, `ring_width · i` outside the base radius |
| BowlFromABoard.TopRingAt | BowlFromABoard.py:192-193 | the last ring is the top ring at its own height and radius |
| BowlFromABoard.TopSpecIsUpper | BowlFromABoard.py:192-193 | the top ring after pass i is ring i + 2 |
| BowlFromABoard.RingAt | BowlFromABoard.py:184-193 | ring 0 is "Ring0" on the origin with the base radius; ring k >= 1 is "Ring<k>", starts k ring thicknesses up and lies `ring_width · (k - 1)` outside the base radius; it is the top ring when last and an inner ring otherwise |
| BowlFromABoard.RingsStack | BowlFromABoard.py:188-193 | each ring starts where the one below it ends |
| BowlFromABoard.TopOnInner | BowlFromABoard.py:191-193 | the top ring starts where the last inner ring ends |
| BowlFromABoard.InnerOnInner | BowlFromABoard.py:191 | each inner ring starts where the previous one ends |
| BowlFromABoard.BowlWidthClearsTopRing | BowlFromABoard.py:207-210 | half of `bowl_width` lies one ring width beyond the top ring's outer wall |
| BowlFromABoard.RingBlockKept | BowlFromABoard.py:278-339 | objects added later leave a ring's sketch, revolution and clones as they were |
| BowlFromABoard.RingSketchClosed | BowlFromABoard.py:307-317 | the four coincidences hold on the cross-section: it is a closed loop |
| BowlFromABoard.ViewedObjectAsWritten | BowlFromABoard.py:331-333 | as written, the object hidden and cloned is whatever `getObject(ring_name)` finds, which carries that Name |
| BowlFromABoard.RepeatedRingNameClonesOldObject | BowlFromABoard.py:327-339 | when an object already holds the ring's name, the new revolution gets a fresh Name and the lookup finds the old object, so the old one is hidden and cloned instead of the new one |
| BowlFromABoard.AddRingHead | BowlFromABoard.py:278-329 | the sketch just added takes the four lines and constraints and a revolution of it follows; the corrected version goes on with that revolution's own Name |
| BowlFromABoard.AddClone | BowlFromABoard.py:336-338 | one clone of the revolution is appended, labelled `<ring>_1` |
| BowlFromABoard.AddClones | BowlFromABoard.py:334-338 | the clone loop appends `number_of_slices` clones, none for a count below 1, and returns their Names in order |
| BowlFromABoard.ConvertedCount | BowlFromABoard.py:260-270 | at most nine conversions succeed |
| BowlFromABoard.FieldsParsed | BowlFromABoard.py:260-270 | at most nine boxes convert |
| BowlFromABoard.UpdatedFields | BowlFromABoard.py:260-270 | each setting takes its box's value when that box and every earlier one converted, and keeps its old value otherwise |
| BowlFromABoard.BowlFromABoardPanel.constructor | BowlFromABoard.py:58-67 | the defaults: board 304.8, slice 50.8, angle 45, height 150, base radius 50.8, ring thickness 20, ring width 25.4, 6 rings, 32 slices, no clones |
| BowlFromABoard.BowlFromABoardPanel.UpdateValues | BowlFromABoard.py:260-270 | succeeds exactly when all nine boxes convert; the settings are updated field by field up to the first failure |
| BowlFromABoard.BowlFromABoardPanel.AssignConverted | BowlFromABoard.py:260-270 | the assignments in order, stopping at the first failed conversion |
| BowlFromABoard.BowlFromABoardPanel.MakeRing | BowlFromABoard.py:273-339 | without a document nothing changes; with a slice angle whose tangent is 0 the sketch is added, stays empty and the call fails; otherwise sketch, revolution and `number_of_slices` clones are appended and the clones' Names extend `clone_list` |
| BowlFromABoard.BowlFromABoardPanel.BtMakeRingsClicked | BowlFromABoard.py:184-193 | when a box does not convert nothing is made; otherwise the rings of the plan are made one block after another, the clone list grows by their clones, and fewer than 3 rings fail after the bottom ring |
| BowlFromABoard.BowlFromABoardPanel.BtGenerateBowlClicked | BowlFromABoard.py:195-212 | the same rings, then the bowl's width `(base + ring_width · n) · 2` and height `slice · n + 2 · slice` |
| BowlFromABoard.OffsetIsProduct | BowlFromABoard.py:188-193 | ring k's block starts k block sizes after the first |
| BowlFromABoard.CloneNames | BowlFromABoard.py:337 | the recorded clone Names are at most as many as the objects (their contents are stated by CloneNamesAppend, CloneNamesOfClones and BlockCloneNames) |
| BowlFromABoard.CloneNamesAppend | BowlFromABoard.py:337 | the clone Names of two runs of objects are those of the first followed by those of the second |
| BowlFromABoard.CloneNamesOfClones | BowlFromABoard.py:337 | when every object is a clone, all their Names are recorded |
| BowlFromABoard.BlockCloneNames | BowlFromABoard.py:334-338 | of a ring's block only the objects after the sketch and revolution are recorded |
| BowlFromABoard.AfterNextRing | BowlFromABoard.py:188-193 | one more ring extends the made rings by one block and the recorded Names by its clones |
| BowlFromABoard.MakeBottomRing | BowlFromABoard.py:188 | the bottom ring is made or the click fails here, for want of a document or of a usable slice angle |
| BowlFromABoard.MakeUpperRings | BowlFromABoard.py:189-193 | the loop's inner rings and the top ring complete the plan when there are at least 3 rings; with fewer the top call fails on an unbound loop variable |
| BowlFromABoard.MakeNextRing | BowlFromABoard.py:189-191 | one `make_ring` call in the loop appends the next ring's block after the rings before, keeps every object before the stack, and adds the new clones to the clone list |
| BowlFromABoard.MakeAllRings | BowlFromABoard.py:186-193 | all the rings of one click, as the plan says, with the clone list grown by every clone made |
| AddTorus.LeadingValues | AddTorus.py:296-303 | at most four conversions succeed |
| AddTorus.TorusFieldsParsed | AddTorus.py:296-303 | at most four boxes convert |
| AddTorus.AssignedFields | AddTorus.py:296-303 | each field takes its box's value when that box and every earlier one converted and keeps its value otherwise; once both diameters converted the ring diameter is their difference and the box shows it |
| AddTorus.TorusUpdatedFields | AddTorus.py:296-303 | the same, for the panel's texts |
| AddTorus.ProfileSpansRing | AddTorus.py:185-189 | the profile circle spans the x axis from the inside value to the outside value; the hollow's circle has the same centre and a radius 20 smaller |
| AddTorus.CreateTorus | AddTorus.py:163-218 | the step never removes objects (its outcomes are stated by CreateTorusErrors and CreateTorusBuilds) |
| AddTorus.DrawnProfiles | AddTorus.py:179-192 | drawing keeps the number of objects (its contents are stated by DrawnProfilesFacts) |
| AddTorus.CreateTorusErrors | AddTorus.py:164-230 | a "Torus_Profile" that is not a sketch stops with nothing added; a "Torus_Profile2" that is not a sketch stops with at most the first sketch added; a ring diameter under 40, for which `Part.Circle` refuses the hollow's negative radius, stops with both sketches placed, the first one cleared and no revolution added; otherwise the step succeeds |
| AddTorus.RefusedCircleLeavesFirstSketchEmpty | AddTorus.py:178-230 | when the circles are refused, "Torus_Profile" is at the origin and empty, "Torus_Profile2" is at the origin with its old geometry, every other object is unchanged and nothing is added |
| AddTorus.DrawnProfilesFacts | AddTorus.py:179-192 | drawing keeps every Name, gives each of the two sketches its circle, and leaves every other object alone |
| AddTorus.WithRevolutionsShape | AddTorus.py:199-217 | the two revolutions and the cut are the last three objects, after everything there was |
| AddTorus.CreateTorusBuilds | AddTorus.py:163-218 | a successful step leaves both sketches drawn with their circles, the other objects unchanged, and two revolutions of them plus their cut appended |
| AddTorus.OthersKept | AddTorus.py:179-192 | the objects there were, other than the two sketches, are unchanged |
| AddTorus.SketchesFound | AddTorus.py:164-176 | both profile sketches are found, or added after the objects that were there, at different indices |
| AddTorus.DrawnKept | AddTorus.py:179-217 | objects appended after drawing leave the two sketches found and drawn, and the others unchanged |
| AddTorus.FindPrefix | AddTorus.py:164-165 | a Name found among the first objects is found at the same index when more objects follow |
| AddTorus.CreateTorusRepeatable | AddTorus.py:155-218 | creating again succeeds, adds no sketch, only two revolutions and a cut, and leaves each profile sketch holding its single circle |
| AddTorus.ConfiguredRevolveAsWritten | AddTorus.py:199-205 | as written, the revolution configured is the object `doc.Revolve` finds, named "Revolve" |
| AddTorus.SecondCreateConfiguresOldRevolve | AddTorus.py:199-205 | with a "Revolve" already present the new revolution gets another Name, and it is the old object that gets source, axis and angle; the new one gets none |
| AddTorus.HollowGeometryAsWritten | AddTorus.py:182-191 | as written, the hollow sketch keeps what it held and one circle is appended |
| AddTorus.SecondCreateDoublesHollowCircle | AddTorus.py:182-191 | creating twice leaves two copies of the hollow circle in "Torus_Profile2" |
| AddTorus.RingSegmentPlaced | AddTorus.py:232-275 | placed at (0, -outside/2, 0), the segment's top edge lies on y = -inside/2 and its bottom edge 20 lower, at z = 0, the top edge half-width `ring radius · tan(180/N)`, extruded 10 |
| AddTorus.MakeSegment | AddTorus.py:242-275 | zero segments raise before anything is added; without a document the addition raises; otherwise one "Segment_000" object carrying the extruded wedge is appended under a fresh Name |
| AddTorus.DrawProfile | AddTorus.py:179-193 | one sketch is put at the origin, cleared, given its circle and hidden |
| AddTorus.PlaceAndClearFirst | AddTorus.py:178-183 | both sketches are put at the origin and only the first is emptied of geometry |
| AddTorus.DrawnAfterClearing | AddTorus.py:178-193 | the drawn sketches do not depend on the placing and clearing done before the circles |
| AddTorus.PlacedAndCleared | AddTorus.py:178-183 | placing and clearing the two sketches keeps the number of objects (its contents are stated by RefusedCircleLeavesFirstSketchEmpty) |
| AddTorus.DrawProfiles | AddTorus.py:179-193 | the first sketch gets the profile circle and the second the hollow circle |
| AddTorus.AddRevolutionsAndCut | AddTorus.py:199-218 | corrected (see Findings): two revolutions, each set up on the object just added, then a cut of those two by their own Names, where the source cuts the literal Names "Revolve" and "Revolve2" |
| AddTorus.AddRevolution | AddTorus.py:199-205 | one revolution is appended under a fresh Name, set up to revolve the sketch a full turn about y |
| AddTorus.CreateTorusSketches | AddTorus.py:163-218 | the handler after the checks does what CreateTorus describes, including the stop when a circle is refused; corrected: the revolutions are set up on the objects just added and both sketches are cleared (the AddTorus rows under Findings) |
| AddTorus.AddTorusPanel.constructor | AddTorus.py:58-63 | the defaults: 12 segments, outside 200, inside 100, 6 rings, ring diameter 100 |
| AddTorus.AddTorusPanel.UpdateRingDiameter | AddTorus.py:287-294 | both diameters convert: the ring diameter is their difference and is shown; otherwise the box is cleared and the value kept |
| AddTorus.AddTorusPanel.UpdateValues | AddTorus.py:296-303 | succeeds exactly when all four boxes convert; the fields are assigned up to the first failure |
| AddTorus.AddTorusPanel.UpdateDiameters | AddTorus.py:299-303 | the assignments from the outside diameter on, stopping at the first failure |
| AddTorus.AddTorusPanel.OnCreateSketch | AddTorus.py:155-230 | corrected (see the two AddTorus rows under Findings): a box that does not convert gives the invalid-input error and changes nothing; no document changes nothing; otherwise CreateTorus of the document, which stops with the first sketch cleared when the ring diameter is under 40 |
| AddTorus.AddTorusPanel.BtMakeRing | AddTorus.py:232-237 | one ring segment for the panel's count and ring radius, placed at (0, -outside/2, 0); a zero count or no document raises with nothing added |
| OffcenterTurning.OpenedAsWritten | OffcenterTurning.py:58-104 | as written: when the var-set is created the panel's var-set index lies in the document; when an object is Named "OffcenterTurningVariables" there is none and opening fails |
| OffcenterTurning.OpeningTwiceAddsTwoVarSets | OffcenterTurning.py:65-82 | on a document with no var-set, opening twice adds two var-sets, "BowlVariables" and a second one under a fresh Name |
| OffcenterTurning.Opened | OffcenterTurning.py:58-82 | corrected (see Findings): the panel's var-set is the document's "BowlVariables", the object the sketches' expressions name (OffcenterTurning.py:248); it is created with the seven defaults when absent, and one that exists is given those of the seven it lacks; the index lies in the document |
| OffcenterTurning.WithDefaults | OffcenterTurning.py:65-82 | a var-set given the defaults holds every property it had, with its own values, and each of the seven defaults it lacked, with the default value |
| OffcenterTurning.OpenedIdempotent | OffcenterTurning.py:58-82 | opening again adds nothing, finds the same var-set and changes no object |
| OffcenterTurning.OpenedHoldsEveryVariable | OffcenterTurning.py:58-82 | after opening any document, each of the seven variables reads back: the value a var-set already held (unwrapped as the readers unwrap it), else the default; no object before the var-set changes except it, and none is removed |
| OffcenterTurning.OffcenterTurningPanel.constructor | OffcenterTurning.py:58-66 | the panel holds the var-set it was given |
| OffcenterTurning.OffcenterTurningPanel.BtAddSketches | OffcenterTurning.py:174-369 | without a document an error and no change; otherwise exactly the objects and result AddSketches describes, which stops with both sketches emptied when a radius is refused and at the first point whose line `Part.LineSegment` refuses |
| OffcenterTurning.OpenPanel | OffcenterTurning.py:58-104 | without a document opening fails with no change; otherwise the document is Opened (the var-set found or added and given the missing defaults) and the panel holds its var-set |
| OffcenterTurning.AsFloat | OffcenterTurning.py:188-206 | `float(v) if v is not None else 0.0` with TypeError and ValueError caught as 0.0: None and vectors give 0, floats themselves, integers their value, unparsable text 0 |
| OffcenterTurning.AsInt | OffcenterTurning.py:208-210 | `int(v) if v is not None else 0` with errors caught as 0: integers themselves, floats truncated toward zero, None, vectors and unparsable text 0 |
| OffcenterTurning.CircleRadius | OffcenterTurning.py:237-238 | `Part.Circle` takes the cylinder radius as a number exactly when it is an integer, float, bool or quantity (a negative one is refused afterwards, in AddSketches); a float stays as it is |
| OffcenterTurning.DefaultsReadBack | OffcenterTurning.py:65-82 | after opening a document whose var-set is absent or holds none of the seven, it reads back bottom radius 15, top radius 10, angles 30 and 15, cylinder height 50, 3 points and cylinder radius 20 |
| OffcenterTurning.ReadDefaults | OffcenterTurning.py:181-210 | a var-set holding the defaults reads back those values |
| OffcenterTurning.LinesUpTo | OffcenterTurning.py:265-272 | after k points there are k recorded line indices (their values are stated by SpokesLayout) |
| OffcenterTurning.SpokesLength | OffcenterTurning.py:258-311 | the point loop only appends geometry: after k passes the sketch holds its old geometry followed by 2 entries per point and the x-axis line |
| OffcenterTurning.SpokesLayout | OffcenterTurning.py:258-272 | point i sits at `radius·(cos, sin)(radians(angle) + i·step)`, its construction line runs from the centre to it, and the recorded index of line i is that line's |
| OffcenterTurning.SpokesConstrained | OffcenterTurning.py:268-274 | each point is held on the construction circle and its line held at the centre and at the point |
| OffcenterTurning.Chain | OffcenterTurning.py:313-322 | the k-th chain constraint is the angle between line k and line k + 1 |
| OffcenterTurning.ChainAngleIsStep | OffcenterTurning.py:317-322 | the chain's `radians(360/n)` equals the step `2π/n` between neighbouring points, and n steps make a full turn |
| OffcenterTurning.FinishedChain | OffcenterTurning.py:258-322 | no points: the sketch has just its circles; n points: the points' geometry, and for n > 1 the n - 1 chain constraints after the points' constraints, line i to line i + 1 at the step angle |
| OffcenterTurning.FinishedShape | OffcenterTurning.py:230-311 | a finished sketch keeps its Name and type, sits where it was put, and holds the two circles and its points' geometry |
| OffcenterTurning.SpokesKeep | OffcenterTurning.py:258-311 | the point loop keeps a sketch's Name, type and placement |
| OffcenterTurning.WithDatumLines | OffcenterTurning.py:336-369 | the datum lines are appended after every object there was |
| OffcenterTurning.FindSketches | OffcenterTurning.py:212-224 | the objects there were stay a prefix; on success both sketches are found by Name, are sketches and are different objects |
| OffcenterTurning.FindInPrefix | OffcenterTurning.py:212-224 | a Name found among the first objects is found at the same index when more follow |
| OffcenterTurning.AddSketchesPlacesSketches | OffcenterTurning.py:212-369 | after success "Bottom_Sketch" sits at z = 0 and "Top_Sketch" at the cylinder height, both sketches with the same number of geometry entries, and with points three datum lines follow |
| OffcenterTurning.DrawnSketchesFound | OffcenterTurning.py:230-311 | drawing keeps every Name, so both sketches are still found, now finished and placed |
| OffcenterTurning.RefusedRadiusLeavesEmptySketches | OffcenterTurning.py:226-295 | once both sketches are found the handler fails exactly when `Part.Circle` refuses a radius (a negative bottom or top radius, a cylinder radius that is not a number or is negative) or `Part.LineSegment` refuses a point's line; each cause gives its own error, and a refused radius leaves both sketches placed and emptied |
| OffcenterTurning.ZeroRadiusStopsAtFirstLine | OffcenterTurning.py:254-295 | a zero bottom or top radius with at least one point fails at the first point's line and adds no datum line: the zero-radius sketch ends with its two circles and the point at the centre; a zero top radius is reached after the bottom sketch's first point, line and x-axis line when that point is off the centre |
| OffcenterTurning.FirstPassInterrupted | OffcenterTurning.py:258-295 | a refused first pass leaves the refused sketch with only its new point, and the other one untouched (bottom refused) or with its whole first spoke (top refused) |
| OffcenterTurning.SpokeRefusedWhen | OffcenterTurning.py:262-294 | a point's line is refused exactly when the point is the centre: a zero radius, or an angle whose cosine and sine are both 0 |
| OffcenterTurning.FirstRefused | OffcenterTurning.py:258-295 | the first pass of n whose bottom or top line is refused, or n when none is: no pass before it is refused |
| OffcenterTurning.FirstRefusedAt | OffcenterTurning.py:258-295 | a pass that is refused after passes that are not is the first refused one |
| OffcenterTurning.AddSketches | OffcenterTurning.py:181-369 | the handler never removes objects; it adds at most the two sketches, and the three datum lines only when it succeeds (its contents are stated by AddSketchesPlacesSketches, DrawnSketchesFound, RefusedRadiusLeavesEmptySketches and ZeroRadiusStopsAtFirstLine) |
| OffcenterTurning.OnSlots | OffcenterTurning.py:226-241 | with both sketches found, a refused circle radius fails with the objects' count unchanged; otherwise the handler succeeds exactly when no point's line is refused |
| OffcenterTurning.Drawing | OffcenterTurning.py:243-369 | drawing succeeds exactly when no point's line is refused; a refusal fails with `Part.LineSegment`'s error and adds no object, and success adds the three datum lines when there are points |
| OffcenterTurning.AddSpoke | OffcenterTurning.py:260-294 | one pass on one sketch appends its point and the point's constraint, then is refused exactly when the point is the centre; otherwise it appends the line (and on the first pass the x-axis line) and their constraints, the line's index right after the point's |
| OffcenterTurning.BothSpokedStep | OffcenterTurning.py:258-311 | one more pass adds point k to each sketch as it stands and records its line index |
| OffcenterTurning.AddSpokes | OffcenterTurning.py:258-311 | the point loop stops exactly when some point's line is refused, leaving the passes before the first refused one and that pass's partial state; otherwise both sketches hold their n points and each sketch's line indices are returned |
| OffcenterTurning.SpokesPass | OffcenterTurning.py:257-311 | one pass adds point i to the bottom sketch and then to the top one, is refused exactly when either line is, and stops at the refused line; otherwise it extends each list of line indices by the new line |
| OffcenterTurning.PointPass | OffcenterTurning.py:257-311 | a pass after i passes that were not refused either ends the loop at the first refused line or leaves i + 1 such passes |
| OffcenterTurning.AddChainPair | OffcenterTurning.py:317-322 | one pass adds the angle between lines i and i + 1 on both sketches |
| OffcenterTurning.ChainStep | OffcenterTurning.py:317-322 | one more angle extends the chain by one |
| OffcenterTurning.BothChainedStep | OffcenterTurning.py:317-322 | one more pass appends the chain's next angle to each sketch |
| OffcenterTurning.AddChains | OffcenterTurning.py:313-322 | the chain loop adds the n - 1 angles to both sketches |
| OffcenterTurning.AddDatumLines | OffcenterTurning.py:336-369 | three datum lines are appended, each under a fresh Name |
| OffcenterTurning.DrawingStages | OffcenterTurning.py:243-322 | circles, then points, then (for n > 1) the chain give the finished sketches |
| OffcenterTurning.DrawCircles | OffcenterTurning.py:234-256 | once the radii are accepted (AddSketchesTo refuses negative ones first), both sketches get their construction circle, the cylinder circle and the radius and centre constraints |
| OffcenterTurning.DrawBoth | OffcenterTurning.py:237-322 | after the clearing, both sketches are drawn to the finished form unless a point's line is refused, which stops the drawing at the first refused line with `Part.LineSegment`'s error |
| OffcenterTurning.DrawAll | OffcenterTurning.py:243-369 | drawing both sketches and then the datum lines gives exactly what Drawing describes |
| OffcenterTurning.DrawOnSlots | OffcenterTurning.py:226-369 | placing, the radius checks and drawing give exactly what OnSlots describes |
| OffcenterTurning.GetSketches | OffcenterTurning.py:212-224 | finds or adds both sketches as FindSketches describes |
| OffcenterTurning.PlaceAndClear | OffcenterTurning.py:226-232 | the sketch is placed and its geometry deleted |
| OffcenterTurning.PlaceBoth | OffcenterTurning.py:226-232 | both sketches placed, bottom at z = 0 and top at the cylinder height, and emptied |
| OffcenterTurning.PlacedThenDrawn | OffcenterTurning.py:226-241 | drawing does not depend on what placing and clearing changed, and placing leaves every var-set reading as it was |
| OffcenterTurning.AddSketchesTo | OffcenterTurning.py:181-369 | the handler with a document open does what AddSketches describes, including the stops on a refused radius or line |
| CatenaryCurve.PolesUpTo | CatenaryCurve.py:202-207 | k passes of the pole loop give k poles (their values are stated by PolesUpToAt) |
| CatenaryCurve.Poles | CatenaryCurve.py:202-228 | the poles fail exactly when NumPoints or the sag is zero (the division error of the first pass) or `math.cosh` overflows on some pass (the OverflowError caught at the end); otherwise there are 51 |
| CatenaryCurve.PolesUpToAt | CatenaryCurve.py:202-207 | pole i of the first k passes is pole i |
| CatenaryCurve.PolesShape | CatenaryCurve.py:202-207 | there are always 51 poles in the sketch plane; pole i is `(x_i, YStart + sag·(cosh(x_i/sag) - 1))`, and mirrored it has x and y swapped |
| CatenaryCurve.PoleXSpacing | CatenaryCurve.py:203 | the x values start at XStart and step by (XEnd - XStart)/NumPoints, so x reaches XEnd at pass NumPoints, which is the last pass when NumPoints is 50 |
| CatenaryCurve.PoleYAtZero | CatenaryCurve.py:204 | where x = 0 the curve is at YStart |
| CatenaryCurve.CurveGeometryCloses | CatenaryCurve.py:209-223 | the sketch holds the B-spline, a horizontal line from (0, end.y) to the last pole and a line from (0, end.y) to the origin, none construction |
| CatenaryCurve.ClosingRefusedOnAxes | CatenaryCurve.py:214-222 | in the sketch plane, `Part.LineSegment` refuses a closing line exactly when the last pole has x = 0 (the horizontal line has equal ends) or y = 0 (the line to the origin has) |
| CatenaryCurve.DrawnGeometry | CatenaryCurve.py:209-223 | the sketch holds the whole closed curve unless a closing line is refused; then it holds the part added before the refusal (the B-spline, and the horizontal line when only the second line is refused) |
| CatenaryCurve.ComputePoles | CatenaryCurve.py:200-207 | the loop stops with the OverflowError on the first pass whose `math.cosh` overflows, and otherwise gives the 51 poles; either way its result is that of Poles |
| CatenaryCurve.LastWithPrefix | CatenaryCurve.py:240-245 | `[obj ... if obj.Name.startswith(prefix)][-1]`: the last object whose Name starts with the prefix, or none exactly when no Name does |
| CatenaryCurve.HighestFace | CatenaryCurve.py:284 | `max(faces, key=z)`: the first face with the highest centre |
| CatenaryCurve.RevolveLatest | CatenaryCurve.py:232-256 | revolving succeeds exactly when some Name starts with "CatenaryCurveSketch"; it appends a full-turn revolution of the latest such sketch, and an error changes nothing |
| CatenaryCurve.ShellChecks | CatenaryCurve.py:258-292 | the shell needs a positive wall thickness, a revolution and a face, and an error changes nothing; success appends one shell, thickens by minus the wall thickness, and leaves open the highest face of the latest revolution |
| CatenaryCurve.DrawThenRevolve | CatenaryCurve.py:183-256 | after drawing, the new upright sketch holds the B-spline through the 51 poles and its closing lines, and revolving takes that sketch |
| CatenaryCurve.DrawCurveErrors | CatenaryCurve.py:196-229 | drawing fails exactly when NumPoints or sag is zero, `math.cosh` overflows, or a closing line is refused; the zero cases give the division error; failing poles leave only the new empty upright sketch; a refused line leaves the sketch with the B-spline and whatever came before the refused line, and `Part.LineSegment`'s error |
| CatenaryCurve.CurveEndingOnAxisIsRefused | CatenaryCurve.py:202-229 | with 50 points and XEnd = 0 (unmirrored) the last pole lies on the y axis, so the first closing line is refused and the sketch keeps only the B-spline |
| CatenaryCurve.DrawCurve | CatenaryCurve.py:196-229 | drawing always appends exactly one upright sketch Named after "CatenaryCurveSketch" and keeps every object there was; on success the sketch holds three geometries |
| CatenaryCurve.Revolve | CatenaryCurve.py:232-256 | a failure changes nothing; success appends exactly one object, Named after "CatenaryRevolve", and keeps every object there was |
| CatenaryCurve.Shell | CatenaryCurve.py:258-292 | a failure changes nothing; success appends exactly one object, keeps every object there was, and names a revolution and a face that exist |
| CatenaryCurve.LeadingValues | CatenaryCurve.py:298-308 | at most six conversions succeed |
| CatenaryCurve.CatenaryFieldsParsed | CatenaryCurve.py:298-308 | at most six boxes convert |
| CatenaryCurve.AssignedFields | CatenaryCurve.py:298-308 | a field takes its box's value exactly when that box and every earlier one converted; the others keep their values |
| CatenaryCurve.CatenaryUpdatedFields | CatenaryCurve.py:298-308 | the same, for the panel's texts |
| CatenaryCurve.AddCurveGeometry | CatenaryCurve.py:209-223 | the B-spline is appended, then the closing lines up to the first one `Part.LineSegment` refuses, and the refusal is reported exactly then |
| CatenaryCurve.CatenaryCurvePanel.constructor | CatenaryCurve.py:61-66 | the defaults: sag 250, XStart 0, XEnd 300, YStart 0, 50 points, wall thickness 0 |
| CatenaryCurve.CatenaryCurvePanel.UpdateValues | CatenaryCurve.py:298-308 | the boxes are assigned in order; a ValueError stops there and is swallowed |
| CatenaryCurve.CatenaryCurvePanel.BtA | CatenaryCurve.py:183-230 | the values are updated; without a document nothing changes; otherwise DrawCurve of the document, including its error when a closing line is refused |
| CatenaryCurve.CatenaryCurvePanel.BtRevolve | CatenaryCurve.py:232-256 | without a document nothing changes; otherwise Revolve of the document |
| CatenaryCurve.CatenaryCurvePanel.BtShell | CatenaryCurve.py:258-292 | the values are updated; without a document nothing changes; otherwise Shell of the document |
| AddCatenaryCurve.StoredDefaults | AddCatenaryCurve.py:56-60 | the five dimensions are stored and read back as sag 250, XStart 0, XEnd 300, YStart 0, 50 points |
| AddCatenaryCurve.AddCurve | AddCatenaryCurve.py:52-79 | the command appends exactly one upright sketch holding the five dimensions; it gets one B-spline unless `math.cosh` overflows on a pass, when the caught error leaves it without geometry |
| AddCatenaryCurve.CurvePoles | AddCatenaryCurve.py:62-70 | when the command succeeds, the new sketch's B-spline has exactly 51 poles in the sketch plane, each on the catenary with sag 250; the last sits over XEnd = 300 and, with cosh(0) = 1, the first is the origin |
| AddCatenaryCurve.Activated | AddCatenaryCurve.py:42-79 | without a document nothing changes; otherwise one upright sketch is appended carrying the five dimensions and, unless `math.cosh` overflows, the B-spline through the poles read back from them |
| AddCatenaryCurve.DefaultCurveDrawn | AddCatenaryCurve.py:62-67 | with a `math.cosh` that overflows only beyond 710, the command's own curve (x / sag at most 1.2) is always drawn |
| AddCatenaryCurve.StoreDimensions | AddCatenaryCurve.py:56-60 | the five `addProperty` calls give the sketch exactly the five dimensions |
| AddVessel.TextBoxesUpdated | AddVessel.py:195-225 | a number typed in one unit becomes the size (inches times 25.4) and the other unit's box shows that size in its unit to two places; text that is not a number changes nothing |
| AddVessel.TextBoxesIdempotent | AddVessel.py:195-225 | finishing the same edit twice gives what finishing it once gave |
| AddVessel.TextBoxConversions | AddVessel.py:202-224 | a millimetre edit stores the value and shows `round(v / 25.4, 2)` inches; an inch edit stores 25.4 times the value and shows it rounded to two places |
| AddVessel.ButtonGrid | AddVessel.py:145-158 | the layout has ceil(n / 4) rows, each of one to four buttons numbered in order |
| AddVessel.GridHoldsEachProfileOnce | AddVessel.py:145-158 | every profile 1..n has exactly one button, at row (k-1) div 4, column (k-1) mod 4 |
| AddVessel.ScaledImage | AddVessel.py:245-274 | the image scaled is the last image plane; it fails exactly when there is none or the size it divides by is zero |
| AddVessel.VesselWrittenFacts | AddVessel.py:250-278 | after a profile button the image has its new sizes and stands upright on the origin, nothing but properties changes elsewhere, and BowlHeight and BowlWidth read back as the image's height and width wherever the var-set lists them |
| AddVessel.BrowsedWidthScalingFloats | AddVessel.py:375-391 | as written, by width a browsed 50 × 100 image asked for 254 high and 100 wide becomes 100 × 200 but is centred at 127, so its lower edge is 27 above the origin |
| AddVessel.BrowsedImage | AddVessel.py:368-391 | corrected: the browsed image takes the scaled sizes, or nothing when the scaling divides by zero, and is otherwise unchanged |
| AddVessel.BrowsedImageStandsOnOrigin | AddVessel.py:368-391 | every browsed image stands on the origin, keeps its aspect ratio and has the size asked for; scaled by height it is exactly as written |
| AddVessel.BrowsingKeepsBowlVariables | AddVessel.py:341-399 | a browsed image leaves every var-set reading as it was |
| AddVessel.AddedAndScaled | AddVessel.py:341-399 | corrected (see Findings): success needs numbers in both boxes and an import, and scales the last image plane after the import |
| AddVessel.BrowsingPlacesImageOnly | AddVessel.py:341-399 | corrected (see Findings): after an import the scaled object is the last image plane, standing on the origin (the imported object itself if it is an image plane), and the var-set is not written |
| AddVessel.WithoutVases | AddVessel.py:302-304 | deleting never adds objects (which objects remain is stated by WithoutVasesKeeps) |
| AddVessel.WithoutVasesKeeps | AddVessel.py:302-304 | exactly the objects whose Name does not start with "vase" in any case remain |
| AddVessel.WithoutVasesIdempotent | AddVessel.py:291-307 | deleting twice deletes nothing more |
| AddVessel.OpenPanel | AddVessel.py:55-116 | without a document opening fails with no change; otherwise the boxes show 254, 100, 10 and 3.94, and the var-set is created with the defaults only when absent |
| AddVessel.DefaultInches | AddVessel.py:105-113 | the inch boxes start at `round(254 / 25.4, 2)` = 10 and `round(100 / 25.4, 2)` = 3.94 |
| AddVessel.AddVesselPanel.constructor | AddVessel.py:62-116 | the panel starts with the default boxes and scaling by height |
| AddVessel.AddVesselPanel.UpdateTextBoxes | AddVessel.py:195-225 | the boxes and sizes become TextBoxesUpdated of what they were |
| AddVessel.AddVesselPanel.UpdateValues | AddVessel.py:187-193 | succeeds exactly when both millimetre boxes hold numbers; a failure keeps the earlier assignment and the radio button's old value |
| AddVessel.AddVesselPanel.BtAddVesselClicked | AddVessel.py:227-289 | unreadable boxes raise with the document, the radio choice and the boxes unchanged, only the height taken when it parsed; once both parse the radio choice is taken; a failed import changes only the panel's sizes; otherwise the last image plane is scaled and placed, BowlHeight and BowlWidth written, and the four boxes show the new size |
| AddVessel.AddVesselPanel.ShowSizes | AddVessel.py:279-282 | the panel takes the new sizes and shows them in millimetres and inches |
| AddVessel.AddVesselPanel.AddAndScaleVase | AddVessel.py:341-399 | corrected (see Findings): the document and result are AddedAndScaled; the sizes are read again from the boxes, which stay as they were; the radio choice is taken exactly when both boxes parse, and unreadable boxes leave the width and the radio choice as they were |
| AddVessel.AddVesselPanel.BtBrowseVase | AddVessel.py:309-339 | corrected (see Findings): a cancelled dialog or a missing file changes nothing; otherwise the chosen file is added and scaled |
| AddVessel.ImportAndScale | AddVessel.py:353-391 | the import appends the object, and the scaling is found for the last image plane |
| AddVessel.VisitForDelete | AddVessel.py:302-304 | one pass removes the visited object exactly when its Name starts with "vase" |
| AddVessel.WriteBack | AddVessel.py:276-278 | the image is resized and placed, and BowlHeight and BowlWidth written |
| AddVessel.DeleteVases | AddVessel.py:291-307 | the document keeps, in order, exactly the objects whose Name does not start with "vase" in any case |
| AddVase.Opened | AddVase.py:48-62 | the objects before are kept in order and a `BowlVariables` object is found afterwards; an object is added exactly when none was there, and it is a var-set holding the defaults |
| AddVase.OpenedKeepsVariables | AddVase.py:48-62 | opening leaves an existing var-set alone, gives a new one the defaults (BowlHeight 254 and no BowlWidth), and opening again changes nothing |
| AddVase.ButtonFiles | AddVase.py:86-126 | exactly buttons 1 to 6 load a bundled file: buttons 1 to 5 `vase<k>.svg`, and button 6, wired to the fourth handler, `vase4.svg` |
| AddVase.OpenPanel | AddVase.py:39-76 | without a document opening fails with no change; otherwise height 254, box "254", and the var-set created only when absent |
| AddVase.VaseAdded | AddVase.py:184-218 | a successful click scales the last image plane after the import |
| AddVase.VaseAddedStandsOnOrigin | AddVase.py:184-218 | the scaled image has the height asked for, keeps its aspect ratio and stands on the origin, the imported object itself if it is an image plane; the click fails exactly when there is no image plane or it has no height |
| AddVase.AddVasePanel.constructor | AddVase.py:48-76 | the panel starts at height 254 with "254" in its box |
| AddVase.AddVasePanel.UpdateValues | AddVase.py:151-154 | a number in the box becomes the height and the var-set's BowlHeight; anything else raises and changes nothing |
| AddVase.AddVasePanel.BtAddVaseClicked | AddVase.py:184-218 | an unreadable box raises with no change; a failed import leaves only BowlHeight written; otherwise VaseAdded of the document with BowlHeight written |
| AddVase.AddVasePanel.BtClickVase | AddVase.py:160-178 | button k names its file; an unreadable height raises with the document and height unchanged; a failed import leaves only BowlHeight written; otherwise VaseAdded at the parsed height |
| VesselImage.VaseFilesDistinct | AddVessel.py:155 | different profile numbers give different file names `vase<k>.svg` |
| VesselImage.ScaleToHeight | AddVessel.py:250-256 | scaling by height fails exactly on a zero YSize; otherwise YSize becomes the height and the ratio of the sizes is kept |
| VesselImage.ScaleToWidth | AddVessel.py:258-265 | scaling by width fails exactly on a zero XSize; otherwise XSize becomes the width and the ratio of the sizes is kept |
| VesselImage.ScaleKeepsAspect | AddVessel.py:250-274 | "Scale By" keeps the aspect ratio and sets the chosen size, falling back to height when no width is given; it fails exactly when the size it divides by is zero |
| VesselImage.ScaleIdempotent | AddVessel.py:250-274 | scaling by height an image that already has that height changes nothing |
| VesselImage.Sized | AddVessel.py:255-276 | the image takes the new sizes and the upright placement at the given centre height, keeping its Name and everything else |
| VesselImage.SizedStandsOnOrigin | AddVessel.py:276 | centred at half its own new height, the image's lower edge is at z = 0 |
| VesselImage.LastOfType | AddVessel.py:245-248 | the scan finds the last object of the type in document order, or reports there is none |
| VesselImage.FindImagePlane | AddVase.py:201-204 | the loop over the document ends with the last image plane, as LastOfType states |
| VesselImage.InsertedImageIsFound | AddVessel.py:242-248 | an import appends one object and keeps the rest; an imported image plane is the one found, and any other import leaves the found one as it was |
| VesselImage.InsertImage | AddVessel.py:242 | the importer appends the object under a fresh Name |
| VesselImage.ResizeImage | AddVase.py:206-212 | only the image's sizes and placement change |
| SegmentSpreadsheet.Sheet.constructor | SegmentSpreadsheet.py:67 | a new spreadsheet has no cells |
| SegmentSpreadsheet.Sheet.Set | SegmentSpreadsheet.py:135-143 | setting a cell changes that cell and no other |
| SegmentSpreadsheet.CellName | SegmentSpreadsheet.py:135 | a cell address starts with its column letter and has a row number after it |
| SegmentSpreadsheet.CellNamesDiffer | SegmentSpreadsheet.py:135-141 | different column or row, different address, so no write overwrites another cell |
| SegmentSpreadsheet.RowOf | SegmentSpreadsheet.py:104-123 | an object that raises gives no entry; one without a Shape gives zeros; otherwise the entry has the Label, the bounding box's X and Y lengths rounded up and its Z length |
| SegmentSpreadsheet.RowsUpTo | SegmentSpreadsheet.py:102-123 | the loop gives at most one entry per segment object |
| SegmentSpreadsheet.CollectRows | SegmentSpreadsheet.py:101-123 | the loop's entries are RowsUpTo of all segment objects |
| SegmentSpreadsheet.RowsFromSegments | SegmentSpreadsheet.py:54-120 | every entry carries the Label of an object whose Label contains "Segment" |
| SegmentSpreadsheet.RowsWhenNoneRaise | SegmentSpreadsheet.py:102-120 | when no read raises there is one entry per segment object, in document order |
| SegmentSpreadsheet.ByLabelIsTotalPreorder | SegmentSpreadsheet.py:126 | ordering by Label is total and transitive, so the sort is well defined |
| SegmentSpreadsheet.SortedRowsSpec | SegmentSpreadsheet.py:126 | the sorted entries are ordered by Label and are a permutation of the collected entries |
| SegmentSpreadsheet.WriteRows | SegmentSpreadsheet.py:129-144 | corrected (see Findings): the write loop fills rows 6 onwards one per entry and ends at row 6 plus the number of entries |
| SegmentSpreadsheet.WithRow | SegmentSpreadsheet.py:135-143 | corrected (see Findings): the sheet gains exactly the cells A to G of that row, nothing else |
| SegmentSpreadsheet.WithRowKeeps | SegmentSpreadsheet.py:135-143 | writing a data row leaves every cell of every other row as it was |
| SegmentSpreadsheet.RowCellsHold | SegmentSpreadsheet.py:131-143 | corrected: one data row holds the Label, the millimetre figures in B to D and the inch figures (the millimetres over 25.4) in E to G, with their display units |
| SegmentSpreadsheet.WrittenRowStays | SegmentSpreadsheet.py:129-144 | later iterations leave earlier rows as they were written |
| SegmentSpreadsheet.DataRowHolds | SegmentSpreadsheet.py:129-144 | after the loop, row 6 + k holds entry k in full, in millimetres and in inches |
| SegmentSpreadsheet.WrittenKeepsHeader | SegmentSpreadsheet.py:68-144 | rows 1 to 5 keep what the header wrote there |
| SegmentSpreadsheet.ReadVariables | SegmentSpreadsheet.py:71-74 | the var-set is absent exactly when there is no BowlVariables object; reading both values gives its BowlHeight and BowlWidth |
| SegmentSpreadsheet.WriteHeader | SegmentSpreadsheet.py:68-92 | the header cells are written and the header succeeds unless a var-set lacks BowlHeight or BowlWidth |
| SegmentSpreadsheet.Activated | SegmentSpreadsheet.py:42-150 | corrected (see Findings): without a document nothing is created; otherwise one spreadsheet is added, a var-set missing a value stops after the header, and otherwise the sheet holds the header and the sorted entries and the count is the number of entries |
| SegmentSpreadsheet.ReportedCount | SegmentSpreadsheet.py:150 | corrected: the count is the number of rows below the headings |
| SegmentSpreadsheet.InchColumnHoldsMillimetres | SegmentSpreadsheet.py:139-143 | as written, a 254 mm wide segment's inch cell stores the text 254.00 with the inch display unit, where the figure over 25.4 (10.00) is meant |
| SegmentSpreadsheet.ReportedCountOverstates | SegmentSpreadsheet.py:129-150 | as written, n entries are reported as n + 4 objects; the corrected count is n |
| SegmentSpreadsheet.EarlierSheetIsListed | SegmentSpreadsheet.py:56-118 | a spreadsheet left by an earlier run has "Segment" in its Label, so a second run lists it with zero dimensions |
| SortRingObjects.RingObjectsUpTo | SortRingObjects.py:20-23 | the collected objects are among the first n objects and each has a Label starting with "Ring" |
| SortRingObjects.RingObjectsComplete | SortRingObjects.py:20-23 | every object whose Label starts with "Ring" is collected |
| SortRingObjects.SplitPermutation | SortRingObjects.py:20-23 | the ring objects and the other objects together are exactly the document's objects |
| SortRingObjects.CollectRingObjects | SortRingObjects.py:20-23 | the loop collects RingObjects, in document order |
| SortRingObjects.NoRingsNoOthersChange | SortRingObjects.py:25-27 | without ring objects the other objects are the whole document |
| SortRingObjects.ByNameIsTotalPreorder | SortRingObjects.py:30 | ordering by Name is total and transitive |
| SortRingObjects.SortedRingsSpec | SortRingObjects.py:30 | the sorted ring objects are in Name order, a permutation of the ring objects, and each comes from the document |
| SortRingObjects.RingsUnique | SortRingObjects.py:20-23 | in a document with unique Names no ring object is collected twice |
| SortRingObjects.NextStillThere | SortRingObjects.py:34-35 | before each move the next sorted object is still in the document and is found by its Name |
| SortRingObjects.MoveStep | SortRingObjects.py:34-35 | one move extends the loop invariant: the unmoved objects in their order, then the moved ones in sorted order |
| SortRingObjects.WithoutRingsIsOthers | SortRingObjects.py:34-35 | taking out every sorted ring object leaves the other objects in their order |
| SortRingObjects.MoveAll | SortRingObjects.py:34-35 | after the loop the document is the unmoved objects followed by the sorted ones |
| SortRingObjects.SortRingObjects | SortRingObjects.py:9-44 | corrected (see Findings): without a document nothing changes; otherwise the document becomes the other objects followed by the ring objects in Name order, and nothing changes when there are no ring objects |
| SortRingObjects.SortRingObjectsAsWritten | SortRingObjects.py:9-44 | as written, with the host's `moveObject` leaving the order alone: the sorted ring objects are reported and the object order is unchanged; the reading in which the call raises is not modelled |
| SortRingObjects.OrderAsWrittenUnsorted | SortRingObjects.py:30-35 | two ring objects Named "b" then "a" stay out of Name order when the order is left alone, while the sorted ring objects are in Name order and are the same objects |
| SortRingObjects.ReorderIsPermutation | SortRingObjects.py:30-35 | the macro neither adds nor drops an object |
| SortRingObjects.RingsLastInNameOrder | SortRingObjects.py:30-35 | afterwards every ring object comes after every other object, and the ring objects stand in Name order |
| Sorting.Sort | SortRingObjects.py:30 | the sort is a rearrangement: it holds exactly the input's elements, each as often |
| Sorting.SortCorrect | SortRingObjects.py:30 | `list.sort` with a key: the result is ordered and holds exactly the input's elements |
| Sorting.SortMembers | SegmentSpreadsheet.py:126 | sorting keeps every element and adds none |
| Sorting.SortedUnique | SortRingObjects.py:30 | with no ties between different elements there is one sorted arrangement, so any correct sort gives this result |
| Sorting.SortNoDuplicates | SortRingObjects.py:30 | sorting a list without repeats gives a list without repeats |
| Sorting.SortPermutation | SegmentSpreadsheet.py:126 | sorting rearranges the elements whatever the comparison |
| VarSet.ResolveVarset | varsetOps.py:21-28 | a var-set object is its own var-set, a panel uses its `varset`, and anything else the document's BowlVariables, or none without a document |
| VarSet.Unwrap | varsetOps.py:31-32 | a quantity becomes its bare number and any other value is kept |
| VarSet.GetVarsetValue | varsetOps.py:35-40 | the value is missing exactly when there is no var-set or it lacks the property; otherwise it is the stored value, unwrapped |
| VarSet.GetVarsetInt | varsetOps.py:43-48 | `getVarsetInt` gives what `getVarsetValue` gives on every input |
| VarSet.SetVarsetEffect | varsetOps.py:51-56 | setting changes at most properties, and no object's other fields |
| VarSet.SetVarsetValue | varsetOps.py:51-63 | `setVarsetValue` and `setVarsetInt` change the document as SetVarsetEffect states |
| VarSet.GetAfterSet | varsetOps.py:35-56 | reading a listed property after setting it gives the value set, unwrapped |
| VarSet.SetChangesOnlyThatProperty | varsetOps.py:51-56 | setting one property leaves every other reading as it was, and setting an unlisted property changes nothing |
| Doc.NewObject | SegmentSpreadsheet.py:67 | a new object has the type and Name asked for, its Label equal to its Name, and no placement, geometry or constraints |
| Doc.MatchingUpTo | SegmentSpreadsheet.py:54-57 | the selection holds, in increasing document order, exactly the indices the test accepts |
| Doc.CollectMatching | SegmentSpreadsheet.py:54-57 | the loop's selection is MatchingUpTo of all objects |
| Doc.FindByName | varsetOps.py:28 | `getObject` returns an object with that Name when it returns one |
| Doc.FindByNameSpec | varsetOps.py:28 | the lookup finds the first holder of the Name, and fails exactly when no object holds it |
| Doc.FindByLabel | AddSegments.py:253 | `getObjectsByLabel(l)[0]` is the first object with that Label, and is missing exactly when none has it |
| Doc.FreshName | SegmentSpreadsheet.py:67 | the Name of an added object differs from every existing Name, starts with the Name asked for, and is that Name when it is free |
| Doc.TurnedAboutZ | RotateRings.py:195-196 | composing a z rotation keeps the object's base and tilt and adds the angle to its z angle, changing nothing else |
| Doc.Document.AddObject | SegmentSpreadsheet.py:67 | `addObject` appends one new object under a fresh Name and returns its index |
| Doc.Document.SetObject | AddTorus.py:178 | assigning an attribute of an object replaces that one object only, keeps its Name, and keeps the Names unique |
| Doc.Document.CopyObject | AddSegments.py:638 | `copyObject` appends a duplicate under a fresh Name |
| Doc.Document.MoveToEnd | SortRingObjects.py:35 | moving an object to the end keeps the others in their order |
| Doc.Document.RemoveObject | AddVessel.py:304 | removing an object keeps the others in their order |
| Doc.MovedToEndUnique | SortRingObjects.py:35 | moving an object to the end keeps the Names unique |
| Doc.LookupAfterAddFindsOld | BowlFromABoard.py:327-331 | looking up a Name right after adding an object under that Name finds the old holder, not the new object |
| Doc.SketchSlot | OffcenterTurning.py:212-224 | the get-or-add finds the sketch or appends one, and fails when another kind of object holds the Name |
| Doc.SketchSlotHoldsSketch | OffcenterTurning.py:212-224 | the slot holds a sketch of that Name, found by the lookup, and the objects before it are kept |
| Doc.GetOrAddSketch | OffcenterTurning.py:212-224 | the document and result are those SketchSlot and WithSketch state |
| Doc.ClearGeometry | OffcenterTurning.py:229-232 | deleting the last geometry until none is left empties the sketch and changes nothing else |
| Numbers.Trunc | TopView.py:181 | `int(x)` truncates toward zero |
| Numbers.Ceil | SegmentSpreadsheet.py:111-112 | `math.ceil(x)` is the least integer not below x |
| Numbers.RoundHalfEven | AddVessel.py:105 | `round` gives the nearest integer, the even one on a tie |
| Numbers.RoundHalfEvenNearest | AddVessel.py:105 | off a tie, `round` is the nearer integer |
| Numbers.WholeNumbers | TopView.py:181 | `int`, `math.ceil` and `round` leave a whole number as it is |
| Numbers.Round2 | AddVessel.py:279-282 | `round(x, 2)` is within half a hundredth of x |
| Text.FormatParseRoundTrip | RotateRings.py:221-225 | reading back the number a `:03d` label part wrote gives the number again |
| Text.Format03Width | AddSegments.py:635 | a ring number below 1000 prints as exactly three digits |
| Text.ParseInt | AddSegments.py:195 | `int()` accepts only white space around ASCII digits with at most a leading sign; a negative value had a minus sign; a bare run of digits reads as its decimal value |
| Text.ParseReal | AddSegments.py:197 | `float()` accepts only white space around ASCII digits and '.' with at most a leading sign; a negative value had a minus sign; a bare run of digits reads as its decimal value |
| Text.ParseUnsignedDecimal | AddSegments.py:197 | an unsigned numeral holds only digits and '.' and is not negative; a run of digits reads as its value |
| Text.ParseIntThenReal | AddSegments.py:195-200 | text that `int()` accepts, `float()` accepts with the same value |
| Text.NatToString | AddVessel.py:155 | `str(n)` is a non-empty run of digits |
| Text.NatToStringValue | AddVessel.py:155 | the digits of `str(n)` read back as n |
| Text.Lower | AddVessel.py:303 | `lower()` keeps the length and lowers each character |
| Text.StrLeTotal | SortRingObjects.py:30 | any two strings compare, one way or the other |
| Text.StrLeTrans | SortRingObjects.py:30 | string comparison is transitive |
| Text.StrLeAntisym | SortRingObjects.py:30 | two strings each not above the other are equal |
| Geometry.ComposeZ | AddSegments.py:241 | a z rotation composed onto another keeps its tilt and adds its angle |
| Geometry.ComposeZAdds | RotateRings.py:195-196 | composing z rotations adds their angles in either order, and a zero turn changes nothing |
| Geometry.Loop | BowlFromABoard.py:307-310 | a closed loop of lines, the last back to the first |
| Geometry.QuadLoopClosed | BowlFromABoard.py:307-317 | the four coincidences of a four-line loop hold on the loop |
| AddSegments.AddCopy | AddSegments.py:636-640 | one copy is appended, given the Label `_002` as the macro sets it, turned by c segment angles, and nothing before it changes |
| AddSegments.CopyRing | AddSegments.py:636-640 | the inner loop appends copies 1 to N-1 of the ring object, in order, after the unchanged document |

## Left out

- The geometry kernel: B-spline construction, revolutions, extrusions, faces, shells, solids, boolean operations, clones, thickness features and recomputation. Their inputs are recorded as properties of the objects created, and their outputs (bounding boxes, face centre heights, shape presence) are parameters.
- Sketch solving. Constraints are recorded as data, and the coincidences and offsets the panels add are proved to hold of the geometry drawn.
- The host's scheme for fresh object Names. `FreshName` is proved fresh, prefixed by the Name asked for, and equal to it when it is free.
- The host's `Document.moveObject`. Its documented behaviour is to transfer an object from another document, with a boolean second argument; the sort macro calls it with `None` on objects of the same document. `SortRingObjectsAsWritten` models that call as leaving the order alone; the corrected `SortRingObjects` models the move to the end the macro's comment describes (see Findings).
- Qt layout, fonts, icons, tooltips, message boxes and view calls (`viewFront`, `ViewFit`, axis cross, transparency). Text boxes are strings; radio buttons and check boxes are booleans.
- Printing and console messages. A path that only prints returns `Err` with the state unchanged.
- File dialogs, file existence and the SVG importer are parameters: the chosen path, an existence flag and the imported object (or `Err`).
- IEEE floating point. Reals are exact, so `round(x, 2)` is stated only up to its bound, and `str()` of a float is a `Shown` value rather than a decimal string.
- Expression bindings (`setExpression`) and the attachment of datum lines in the off-centre turning panel.
- The angle-constraint value in the off-centre turning panel is recorded in degrees, as the source passes the number; the host's unit conversion is not modelled.
- Deleting constraints together with the geometry they refer to. `Doc.ClearGeometry` empties a sketch's geometry list and keeps its constraints; its callers are `OffcenterTurning.PlaceAndClear`, `AddTorus.PlaceAndClearFirst` and `AddTorus.DrawProfile`. The construction-lines delete handler `BowlConstructionLines.ConstructionLinesPanel.BtDeleteLinesClick` likewise empties the geometry list only.
- BowlConstructionLines: the delete handler raises when the sketch is missing; this is modelled as `Err`.
- AddTorus: `make_segment` begins with `self.update_values`, an attribute access that calls nothing; the model does likewise.
- BowlFromABoard: the slicing block behind `if (False)` and its box loop never run, and are not modelled.
- ApplyColors: `add_color`, `edit_color`, `apply_color`, `apply_color_to_all_segments`, `populate_predefined_colors` and `get_color_from_selected` need the colour dialog, the view provider or the file system. `bt_random_colors` needs randomness. None of them is modelled.
- ApplyColors: SVG colour names accepted by `QColor` are not modelled; only `#` hex forms are parsed.
- AddSegments: the delete handlers, and the bowl-outline and intersection steps, are kernel work. The bowl-solid step is modelled up to its pole list and the face it opens; the Thickness object itself (its Value of minus the wall thickness, its placement turned 90° about z and the `BowlSolid` lookup) is kernel work and is not modelled.
- AddSegments.AddCopy: the host makes object Labels unique, so the copies the arraying step labels `Ring_kkk_002` end up as `Ring_kkk_002`, `Ring_kkk_003` and so on. The model keeps the Label the macro assigns; `RingCopiesShape` and `RotateRings.ResetOfSecondCopy` are stated for those Labels; the host's renumbering itself is not modelled, and `RotateRings.ResetOfRenumberedCopy` states the reset under the Label it would give.
- AddVase: the unused handler `bt_click_vase6` and the layout that places buttons 5 and 6 in the second row.
- SegmentSpreadsheet: merged cells, alignment and bold headings. Display units are kept per cell.
- SegmentSpreadsheet: the host's display-unit scaling is not modelled. The model states what each cell stores (text and display unit), not what the spreadsheet shows; if the host divides a stored figure by the unit's scale, the corrected inch columns would be converted twice.
- Text.ParseInt: accepts only an optional sign followed by ASCII digits. White space around it is stripped. Underscores between digits and non-ASCII digits, which `int()` also accepts, are refused.
- Text.ParseReal: accepts only an optional sign, ASCII digits and at most one decimal point. White space around it is stripped. Exponents, `inf`, `nan`, underscores between digits and non-ASCII digits, which `float()` also accepts, are refused.
- BowlConstructionLines.ConstructionLinesPanel.GenerateLines: `Part.LineSegment` refuses a line whose ends are equal (BowlConstructionLines.py:253), which happens only when the bowl radius is -25; that refusal is not modelled, and the line is drawn.
- BowlFromABoard.BowlFromABoardPanel.MakeRing: `Part.LineSegment` refuses a ring side whose ends are equal (BowlFromABoard.py:307-310), for example a zero ring height or base length; that refusal is not modelled, and the four sides are drawn.
- WedgeGenerator.WedgeGeneratorPanel.AddWedgeSketch: `Part.LineSegment` refuses an outline side whose ends are equal (WedgeGenerator.py:186-201), for example a zero length or the inner outline when the offset is half the width; that refusal is not modelled, and the eight sides are drawn.
- CatenaryCurve.Poles: whether `math.cosh` overflows is a parameter of the maths library (`coshOverflows`), not computed from double-precision limits.
- Sorting.SortCorrect: stability of Python's sort is not stated. Where the model depends on it (Segment Labels in TopView, ring Names in SortRingObjects), the keys are distinct and `SortedUnique` makes the order unique.
- Numbers.Round2: states only that `round(x, 2)` is within half a hundredth of x; its tie rule on binary floats is not modelled.
- VesselImage.ScaleIdempotent: states idempotence for scaling by height only. By width, a second scaling gives the same sizes only up to float rounding in the source.
- SegmentSpreadsheet.RowsUpTo: its own contract bounds only the length; `RowsFromSegments` and `RowsWhenNoneRaise` state its contents.

## Findings

| source | as written | input that shows it | evidently intended | confidence | as-written member | corrected member |
|---|---|---|---|---|---|---|
| AddSegments.py:383-395 | the loop finds the face with the highest centre, but the thickness feature always opens `Face3` | face centres 0, 0, 0, 10: the fourth face is the highest, yet `Face3` is opened | open the highest face found | not executed; high | AddSegments.OpenedFaceAsWritten, AddSegments.OpenedFaceIgnoresHighest | AddSegments.OpenedFace, AddSegments.HighestFaceSpec |
| ApplyColors.py:609-615 | each loaded entry is appended to `colors` before its name is set on the list item, so a non-string name raises after the append | a JSON file whose only colour has `"name": 5` leaves one colour and no list row | validate every entry before replacing the palette, so `colors` and the list stay in step | not executed; medium | ApplyColors.ReplaceAsWritten, ApplyColors.NonStringNameDesynchronises | ApplyColors.ColorListDialog.LoadColorsFromJson |
| BowlConstructionLines.py:207-248 | a layer-count edit shows the layer height rounded to 2 places, and generating reads the rounded value back | height 254 and 7 layers: 36.29 is shown and `int(254 / 36.29)` is 6 | the count typed is the count generated | not executed; high | BowlConstructionLines.UpdateTextBoxesAsWritten, BowlConstructionLines.RoundedLayerHeightLosesALayer | BowlConstructionLines.UpdateTextBoxes, BowlConstructionLines.LayerCountRoundTrip |
| WedgeGenerator.py:162-179 | the inner short-end corner is (d, w/2 − d), without the d·t the long end includes | any length, t and d all non-zero: the inner side is not parallel to the outer one | an inner outline set in evenly by d | not executed; medium | WedgeGenerator.InnerVerticesAsWritten, WedgeGenerator.InnerSideTiltsAsWritten | WedgeGenerator.InnerVertices, WedgeGenerator.InnerOutlineOffset, WedgeGenerator.WedgeGeometry, WedgeGenerator.WedgeGeneratorPanel.AddWedgeSketch, WedgeGenerator.WedgeGeneratorPanel.BtMakeWedge |
| BowlFromABoard.py:327-333 | after adding the revolution, the ring is fetched again with `getObject(ring_name)`; the new object got a fresh Name when that Name was taken | a second "Make Rings" click: the first ring's old object is hidden and cloned | hide and clone the revolution just added | not executed; high | BowlFromABoard.ViewedObjectAsWritten, BowlFromABoard.RepeatedRingNameClonesOldObject | BowlFromABoard.AddRingHead, BowlFromABoard.BowlFromABoardPanel.MakeRing |
| AddTorus.py:199-213 | the revolutions are configured through `doc.Revolve` and `doc.Revolve2`, looked up by Name, and the cut is made of the literal Names "Revolve" and "Revolve2" (AddTorus.py:218) | a second "Create" click: the first torus's revolutions are reconfigured, the new ones are left bare, and the cut is of the old revolutions | configure and cut the objects `addObject` returned | not executed; high | AddTorus.ConfiguredRevolveAsWritten, AddTorus.SecondCreateConfiguresOldRevolve | AddTorus.AddRevolutionsAndCut, AddTorus.CreateTorus |
| AddTorus.py:182-191 | only the first profile sketch is cleared before redrawing; the hollow sketch keeps its old circle | a second "Create" click: `Torus_Profile2` holds two circles | clear both sketches | not executed; high | AddTorus.HollowGeometryAsWritten, AddTorus.SecondCreateDoublesHollowCircle | AddTorus.DrawProfiles, AddTorus.CreateTorusRepeatable |
| SegmentSpreadsheet.py:131-141 | the inch columns E to G are given the millimetre figures; the figures over 25.4 are computed and unused | a segment 254 mm wide: its E cell stores the text 254.00 with the inch display unit | E to G store the figures over 25.4 | not executed; medium: the model settles what the cells store, not what the spreadsheet displays (display-unit scaling is not modelled) | SegmentSpreadsheet.WithRowAsWritten, SegmentSpreadsheet.InchColumnHoldsMillimetres | SegmentSpreadsheet.WithRow, SegmentSpreadsheet.RowCellsHold, SegmentSpreadsheet.DataRowHolds, SegmentSpreadsheet.WriteRows, SegmentSpreadsheet.Activated |
| SegmentSpreadsheet.py:129-150 | the closing message reports `row - 2` objects, where rows start at 6 | 3 segments are reported as 7 objects | report `row - 6`, the number of rows written | not executed; high | SegmentSpreadsheet.ReportedCountAsWritten, SegmentSpreadsheet.ReportedCountOverstates | SegmentSpreadsheet.ReportedCount, SegmentSpreadsheet.Activated |
| OffcenterTurning.py:65-66 | the panel looks for "OffcenterTurningVariables" but creates "BowlVariables", so the check never finds what it created | opening the panel twice creates a second var-set | take the document's "BowlVariables", the object the sketches' expressions name (OffcenterTurning.py:248), creating it with the seven defaults when absent and adding any of the seven it lacks | not executed; high | OffcenterTurning.OpenedAsWritten, OffcenterTurning.OpeningTwiceAddsTwoVarSets | OffcenterTurning.Opened, OffcenterTurning.OpenedIdempotent, OffcenterTurning.OpenedHoldsEveryVariable |
| AddVessel.py:375-391 | when a browsed image is scaled by width, the placement still uses the height from the box, not the new height | a 50 × 100 image with height 254 and width 100: the image becomes 100 × 200, is centred at 127, and its lower edge is 27 above the origin | centre at half the image's new height, as the built-in profiles are | not executed; medium | AddVessel.BrowsedImageAsWritten, AddVessel.BrowsedWidthScalingFloats | AddVessel.BrowsedImage, AddVessel.BrowsedImageStandsOnOrigin, AddVessel.AddedAndScaled, AddVessel.BrowsingPlacesImageOnly, AddVessel.AddVesselPanel.AddAndScaleVase, AddVessel.AddVesselPanel.BtBrowseVase |
| SortRingObjects.py:34-35 | each ring object is passed to `doc.moveObject(obj, None)`, which transfers objects from another document and takes a boolean, so objects already in the document are not moved to the end (or the call raises; the as-written member models only the reading where it does not, and the order stays unsorted either way) | two ring objects Named b then a: they stay in that order | move each ring object, in Name order, to the end of the object order | not executed; medium | SortRingObjects.SortRingObjectsAsWritten, SortRingObjects.OrderAsWrittenUnsorted | SortRingObjects.SortRingObjects, SortRingObjects.MoveAll, SortRingObjects.RingsLastInNameOrder |
