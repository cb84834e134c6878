# Wood-cutting machine: DXF to G-code, modelled in Dafny

The web tool takes a DXF drawing of a cabinet part and writes a G-code program
for a CNC router. The same core appears twice: in `app.py` and, line for line,
in `all_in_one.py`. This project models that core and proves what it promises.

- **`safe_filename`** cleans an uploaded file name. It removes the characters
  `<>:"/\|?*` and strips dots and spaces from both ends. If nothing is left, it
  falls back to `upload_file.dxf`. Modelled in `FileName`.
- **`DXFAnalyzer`** filters the drawing. `is_valid_coordinate` checks that a
  point lies in the 2500 by 3000 machine envelope, and `filter_geometry` keeps
  only such points. `analyze_file` makes one pass over the model-space
  entities and keeps:
  - at most the first two part outlines: `LWPOLYLINE`s whose in-envelope points
    number at least three and span a box larger than 50 by 50 that is not
    sheet-sized;
  - at most the first four drillable circles: centre in the envelope, radius
    5 to 50;
  - every `TEXT` placed in the envelope.

  `filter_geometry` is modelled in `Geometry`. The analyzer is a class with its
  four lists in `Analyzer`. `analyze_file` does not call `filter_geometry`: it
  filters the vertices inline (app.py:84-87) with the same loop and test, and
  nothing else calls it. The model's loop body calls `FilterGeometry` there.
- **`GCodeGenerator`** turns the accepted geometry into program lines: a header,
  a drilling block (tool 2), a cutting block (tool 1) in the order
  `process_order` sets, and a fixed footer. `update_params` overlays new
  parameter values. Every line is a value of the datatype `Line`, and `Render`
  gives its exact text. Modelled in `GCode`. Whole-program properties are in
  `GCodeProperties`.
- **`Format`** models Python's `str(n)` and `format(v, '.1f')` on exact values.
  `Scenarios` works through concrete drawings.

The entity loop of `analyze_file` (`Analyzer.DXFAnalyzer.AnalyzeFile`) and the
list builders `generate_gcode` and `generate_cut_polyline` are imperative
methods with loops. Each is proved equal to a specification function:
`Analyze`, `Program` and `CutPolyline`. The lemmas then state the source's
promises about those functions.

Some behaviour follows from the code as written and is proved as such:
- Selection is a greedy prefix in document order. The `area` of an accepted
  polyline is computed and never read, so a larger third outline is not chosen.
- The sheet test needs both sides too large (width > 1000 and height > 2000).
  A 2400 by 1200 sheet border is therefore kept as a part outline.
- The retract line is `G00 Z{safe_height}.0`: `str` of an integer followed by
  a literal `.0`.

## Model

| member | source | states |
|---|---|---|
| FileName.RemoveReserved | app.py:34 | the result holds none of the nine reserved characters and is the input with characters deleted, the rest in their order |
| FileName.RemoveReservedKeepsTheRest | app.py:34 | every other character keeps its number of occurrences; the reserved ones occur zero times |
| FileName.StripLeading | app.py:36 | the result is the suffix left after the leading dots and spaces, and starts with neither |
| FileName.StripTrailing | app.py:36 | the result is the prefix left before the trailing dots and spaces, and ends with neither |
| FileName.StripIsCleanInfix | app.py:36 | `strip('. ')` leaves a contiguous part of the input with clean ends |
| FileName.SafeFilenameIsSafe | app.py:31-40 | the stored name is non-empty, has no reserved character and no dot or space at either end, and is either `upload_file.dxf` or a contiguous part of the cleaned upload name |
| FileName.DefaultExactlyWhenNothingRemains | app.py:37-39 | the default name is used exactly when stripping leaves nothing (or the default name itself) |
| FileName.RemoveReservedKeepsClean | app.py:34 | removing reserved characters changes nothing in a name without any |
| FileName.SafeFilenameIdempotent | app.py:31-40 | sanitising a sanitised name gives the same name |
| Geometry.FilteredIsExactlyTheEnvelopePoints | app.py:51-61 | the filter keeps every point with 0 ≤ x ≤ 2500 and 0 ≤ y ≤ 3000 and no other point, as a subsequence of the input |
| Geometry.FilteredCounts | app.py:55-61 | each in-envelope point is kept as many times as it occurs, every other point zero times |
| Geometry.FilteredKeepsEnvelopeRuns | app.py:55-61 | points that are all in the envelope pass the filter unchanged |
| Geometry.FilteredIsIdempotent | app.py:55-61 | filtering twice is filtering once |
| Geometry.FilterGeometry | app.py:55-61 | the loop returns the in-envelope points in input order |
| Geometry.MaxOf | app.py:94-95 | `max` returns an element that no element exceeds |
| Geometry.MinOf | app.py:96-97 | `min` returns an element that exceeds no element |
| Geometry.BoundingBoxIsTight | app.py:94-99 | width and height bound every pair of points and are reached by some pair |
| Analyzer.AnalyzeIsGreedyPrefix | app.py:74-124 | the kept polylines are the first two part outlines, the circles the first four drillable circles, the texts every placed text, in document order |
| Analyzer.OneRecordPerEntity | app.py:74-124 | `entities` holds one record per entity, of its type, in order |
| Analyzer.PartOutlinesQualify | app.py:81-105 | every part outline passes the vertex, size and sheet tests and comes from a polyline of the drawing with its closed flag |
| Analyzer.DrillableHolesQualify | app.py:107-114 | every drillable hole has an in-envelope centre, a radius of 5 to 50 and comes from a circle of the drawing |
| Analyzer.PlacedTextsQualify | app.py:116-122 | every placed text comes from a TEXT entity with an in-envelope insertion point |
| Analyzer.AcceptedGeometryIsMachinable | app.py:81-122 | at most two polylines and four circles, each meeting its tests, all polyline points in the envelope, closed flag kept |
| Analyzer.SummaryCounts | app.py:126-132 | `total_entities` is the number of entities; the polyline and circle counts are the qualifying counts capped at 2 and 4 |
| Analyzer.DXFAnalyzer.constructor | app.py:45-49 | all four lists start empty |
| Analyzer.DXFAnalyzer.AnalyzeFile | app.py:63-138 | a read failure is reported and leaves the lists alone; otherwise the lists are cleared, rebuilt as `Analyze` of the entities, and their counts reported |
| Analyzer.DXFAnalyzer.Visit | app.py:75-124 | the loop body changes the lists as one `Step` |
| Format.DigitChar | app.py:170-173 | the character is the decimal digit of its value |
| Format.NatToString | app.py:170-173 | `str(n)` is a non-empty run of digits with no leading zero |
| Format.NatToStringRoundTrip | app.py:170-173 | reading the digits of `str(n)` gives back n |
| Format.IntToString | app.py:170-173 | a minus sign exactly for a negative number, then the digits of its magnitude |
| Format.IntToStringRoundTrip | app.py:170-173 | reading `str(i)` gives back i |
| Format.RoundHalfEven | app.py:180-181 | the nearest integer, the even one on an exact tie |
| Format.Tenths | app.py:180-181 | the tenths printed are within one half of ten times the magnitude |
| Format.Fixed1Denotes | app.py:180-181 | `:.1f` prints a sign exactly for a negative value, digits, a point and one digit, and denotes a value within 0.05 of the input |
| Format.WholeNumberFixed1 | app.py:173 | a whole number prints as its digits followed by `.0`, the same text as `{safe_height}.0` |
| GCode.RenderHasNoNewline | app.py:160-219 | no line the builders produce holds a line break |
| GCode.ReadLinesOfFileText | app.py:261-263 | writing each line followed by `\n` and splitting the file at line breaks gives back the lines, when none holds a line break |
| GCode.WrittenFileReadsBack | app.py:261-263 | the written file, read back line by line, is exactly the rendered program lines in order, so it has `lines_count` lines |
| GCode.OverlayComposes | app.py:156-158 | two updates are one update with the merged keys; an empty update changes nothing; repeating an update changes nothing |
| GCode.FeedMovesAt | app.py:199-201 | one feed move with the feed rate to each later point, in order |
| GCode.CutPolylineShape | app.py:186-210 | nothing for fewer than two points; otherwise a rapid to the first point, a plunge at F3000, the feed moves, a closing move without F exactly when closed with more than two points, and a retract as the last line |
| GCode.GenerateCutPolyline | app.py:186-210 | the list the loop builds is the cut cycle |
| GCode.GCodeGenerator.constructor | app.py:143-154 | the parameters start at their defaults |
| GCode.GCodeGenerator.UpdateParams | app.py:156-158 | the keys given replace their values and every other parameter is kept |
| GCode.GCodeGenerator.GenerateGcode | app.py:221-268 | the lines are the program for the analyzer's circles and polylines, and `lines_count` is their number |
| GCode.AppendDrillBlock | app.py:231-235 | the tool change for tool 2 and the hole cycles are appended only when there are circles |
| GCode.AppendDrillCycles | app.py:233-235 | one drill cycle per circle, in list order |
| GCode.AppendCutBlock | app.py:238-241 | the tool change for tool 1 and the cut cycles are appended only when there are polylines |
| GCode.AppendCutCycles | app.py:240-241 | one cut cycle per polyline, in list order |
| GCodeProperties.ProgramFrame | app.py:160-257 | the program starts with `G54` and ends with `M05`, `G53 X100.0Y2850.0`, `M30`; without geometry it is those four lines |
| GCodeProperties.DrillCyclesLength | app.py:177-184 | three lines per hole |
| GCodeProperties.CutCyclesLength | app.py:186-210 | the cut lines of all polylines |
| GCodeProperties.ProgramLength | app.py:221-268 | `lines_count` is 4, plus 4 + 3 per circle with circles, plus 4 + the cut lines with polylines, in either order |
| GCodeProperties.ProgramSplit | app.py:229-257 | the program is the header, then the drilling and cutting blocks (drilling first for `drill_first`, cutting first otherwise), then the footer |
| GCodeProperties.ToolOrder | app.py:229-255 | the tools selected, in order, are tool 2 exactly when there are circles and tool 1 exactly when there are polylines, tool 2 first for `drill_first` and tool 1 first otherwise; no tool is selected twice |
| GCodeProperties.BlocksIgnoreOrder | app.py:229-255 | the drilling and cutting blocks are the same whatever `process_order` is |
| GCodeProperties.OrdersEmitSameLines | app.py:229-255 | with the other parameters the same, `drill_first` writes header, drilling block, cutting block, footer and any other order writes header, cutting block, drilling block, footer: the same blocks swapped, the same lines |
| GCodeProperties.ToolChangeSelects | app.py:167-175 | a tool change selects exactly its tool |
| GCodeProperties.ToolChangeComplete | app.py:167-175 | a tool change is `M6 T`, the spindle speed of that tool, `G43 H` and the retract |
| GCodeProperties.ProgramToolChangesComplete | app.py:167-255 | every `M6 T{t}` of the program is followed by `M03` with the drill speed for tool 2 or the cutter speed for tool 1, `G43 H{t}`, and `G00 Z{safe_height}.0` |
| GCodeProperties.CutPolylineIsCycleRun | app.py:186-210 | a non-empty cut cycle's only rapid move is its first line, and it ends with the retract |
| GCodeProperties.CyclesAreCycleRuns | app.py:177-210 | runs of hole and cut cycles move rapidly only right after a retract and end with one |
| GCodeProperties.ProgramRapidsFollowRetract | app.py:167-210 | every rapid XY move of the program directly follows the retract to the safe height |
| GCodeProperties.RapidTextIffRapid | app.py:160-219 | a line's text starts with `G00 X` exactly when it is a rapid XY move |
| GCodeProperties.WrittenRapidsFollowRetract | app.py:261-263 | in the written file every `G00 X…` line directly follows `G00 Z{safe_height}.0` |
| Scenarios.FifthHoleIsDropped | app.py:111-114 | of five drillable circles only the first four are kept, and all five are counted |
| Scenarios.StrayVertexIsDropped | app.py:84-105 | a vertex outside the envelope is dropped and the rest of the polyline is kept |
| Scenarios.WholeSheetIsNotCut | app.py:102 | a 1200 by 2200 border is taken for the sheet and not cut |
| Scenarios.LandscapeSheetIsCut | app.py:102-105 | a 2400 by 1200 border passes as a part outline |
| Scenarios.HoleAndSquareProgram | app.py:221-257 | one hole and one closed square give the 22 lines spelled out |
| Scenarios.HoleBlockText | app.py:167-184 | the text of the drilling block for one hole with the default parameters |

## Left out

- Reading the DXF file (`ezdxf.readfile`, `modelspace`, `get_points`, `entity.dxf.*`) is foreign code. The drawing is an input `Result`: either the entity sequence or the read error. The live entity handle and the `layer` field of the entity record are dropped. A record keeps only the entity type, because nothing else in it is read again.
- Analyzer.DXFAnalyzer.AnalyzeFile: an exception raised in the middle of the loop (a malformed entity) is not modelled. In the source it leaves the lists partly filled and reports the error.
- Opening the `.nc` file, the file name prefix, and the `try/except` result dictionaries of `generate_gcode` are I/O. The model returns the line list and its count, and `GCode.WrittenFile` gives the text written to the file.
- The web routes, server startup, `build_exe.py` and `start_demo.py` are HTTP, filesystem, socket and packaging glue.
- Floating point: coordinates, radii and depths are exact reals. `:.1f` rounds the exact real half to even, whereas CPython rounds the binary double nearest to it. Comparisons against the envelope and size limits are exact.
- Speeds, feed rate, `safe_height` and tool numbers are integers. A non-integer `safe_height` would print as `48.5.0`, which the model cannot express.
- GCode.Overlay: `update_params` accepts any dictionary. Unknown keys, and values of another type than the default's, are not modelled.
- `is_valid_coordinate`'s `max_x` and `max_y` parameters are fixed at their defaults, the only values any caller uses.
- Polyline bulges (arcs) and the z coordinate of points are ignored by the source and by the model.
- The `'.'` and `'..'` cases of `safe_filename` cannot arise after `strip('. ')`. The model keeps the test as written, and `DefaultExactlyWhenNothingRemains` shows it only matters for an empty result.
