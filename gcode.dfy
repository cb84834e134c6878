/**
 * `GCodeGenerator`: the machining parameters, the line builders and the
 * program sequencer. Each output line is a `Line` value; `Render` gives the
 * exact text the generator writes for it.
 */
module GCode {
  import opened Wrappers
  import opened Format
  import opened Geometry
  import opened Analyzer

  /** One line of the generated program. */
  datatype Line =
    | WorkOffset                              // G54
    | ToolSelect(tool: int)                   // M6 T{tool}
    | SpindleOn(speed: int)                   // M03 S{speed}
    | LengthComp(tool: int)                   // G43 H{tool}
    | RetractSafe(height: int)                // G00 Z{height}.0
    | Rapid(x: real, y: real)                 // G00 X{x:.1f} Y{y:.1f}
    | Plunge(z: real, feed: int)              // G01 Z{z:.1f} F{feed}
    | Feed(x: real, y: real, rate: Option<int>) // G01 X{x:.1f} Y{y:.1f}[ F{rate}]
    | SpindleStop                             // M05
    | Park                                    // G53 X100.0Y2850.0
    | ProgramEnd                              // M30

  /** The text of a line, as the f-strings of the generator produce it. */
  function Render(l: Line): string {
    match l
    case WorkOffset => "G54"
    case ToolSelect(t) => "M6 T" + IntToString(t)
    case SpindleOn(s) => "M03 S" + IntToString(s)
    case LengthComp(t) => "G43 H" + IntToString(t)
    case RetractSafe(h) => "G00 Z" + IntToString(h) + ".0"
    case Rapid(x, y) => "G00 X" + Fixed1(x) + " Y" + Fixed1(y)
    case Plunge(z, f) => "G01 Z" + Fixed1(z) + " F" + IntToString(f)
    case Feed(x, y, rate) =>
      "G01 X" + Fixed1(x) + " Y" + Fixed1(y) + (if rate.Some? then " F" + IntToString(rate.value) else "")
    case SpindleStop => "M05"
    case Park => "G53 X100.0Y2850.0"
    case ProgramEnd => "M30"
  }

  function RenderAll(ls: seq<Line>): (text: seq<string>)
    ensures |text| == |ls| && forall i :: 0 <= i < |ls| ==> text[i] == Render(ls[i])
  {
    seq(|ls|, i requires 0 <= i < |ls| => Render(ls[i]))
  }

  // ---------------------------------------------------------------------------
  // The written file

  predicate NoNewline(s: string) {
    forall i :: 0 <= i < |s| ==> s[i] != '\n'
  }

  /** `for line in lines: f.write(line + '\n')` */
  function FileText(text: seq<string>): string
    decreases |text|
  {
    if text == [] then "" else text[0] + "\n" + FileText(text[1..])
  }

  /** The text of the `.nc` file `generate_gcode` writes for the program lines. */
  function WrittenFile(ls: seq<Line>): string {
    FileText(RenderAll(ls))
  }

  /** The index of the first line break of s, or |s| when there is none. */
  function LineEnd(s: string): (k: nat)
    ensures k <= |s| && (k < |s| ==> s[k] == '\n')
    ensures forall i :: 0 <= i < k ==> s[i] != '\n'
    decreases |s|
  {
    if s == [] || s[0] == '\n' then 0 else 1 + LineEnd(s[1..])
  }

  /** A file read back line by line, each line without its terminating line break. */
  function ReadLines(s: string): seq<string>
    decreases |s|
  {
    if s == [] then []
    else
      var k := LineEnd(s);
      [s[..k]] + (if k == |s| then [] else ReadLines(s[k + 1..]))
  }

  /** Writing lines that hold no line break and reading the file back gives the same lines. */
  lemma {:induction false} ReadLinesOfFileText(text: seq<string>)
    requires forall i :: 0 <= i < |text| ==> NoNewline(text[i])
    ensures ReadLines(FileText(text)) == text
    decreases |text|
  {
    if text != [] {
      var s, first, rest := FileText(text), text[0], FileText(text[1..]);
      assert s == first + "\n" + rest;
      assert s[|first|] == '\n';
      assert forall i :: 0 <= i < |first| ==> s[i] == first[i];
      var k := LineEnd(s);
      assert k == |first|;
      assert s[..k] == first;
      assert s[k + 1..] == rest;
      ReadLinesOfFileText(text[1..]);
      assert [first] + text[1..] == text;
    }
  }

  lemma NoNewlineConcat(a: string, b: string)
    requires NoNewline(a) && NoNewline(b)
    ensures NoNewline(a + b)
  {
    forall i | 0 <= i < |a + b| ensures (a + b)[i] != '\n' {
      if i >= |a| {
        assert (a + b)[i] == b[i - |a|];
      }
    }
  }

  lemma IntHasNoNewline(i: int)
    ensures NoNewline(IntToString(i))
  {
    if i < 0 {
      NoNewlineConcat("-", NatToString(-i));
    }
  }

  lemma Fixed1HasNoNewline(v: real)
    ensures NoNewline(Fixed1(v))
  {
    var t := Tenths(v);
    var sign := if v < 0.0 then "-" else "";
    NoNewlineConcat(sign, NatToString(t / 10));
    NoNewlineConcat(sign + NatToString(t / 10), ".");
    NoNewlineConcat(sign + NatToString(t / 10) + ".", [DigitChar(t % 10)]);
  }

  /** No rendered line holds a line break. */
  lemma RenderHasNoNewline(l: Line)
    ensures NoNewline(Render(l))
  {
    match l
    case ToolSelect(t) =>
      IntHasNoNewline(t);
      NoNewlineConcat("M6 T", IntToString(t));
    case SpindleOn(s) =>
      IntHasNoNewline(s);
      NoNewlineConcat("M03 S", IntToString(s));
    case LengthComp(t) =>
      IntHasNoNewline(t);
      NoNewlineConcat("G43 H", IntToString(t));
    case RetractSafe(h) =>
      IntHasNoNewline(h);
      NoNewlineConcat("G00 Z", IntToString(h));
      NoNewlineConcat("G00 Z" + IntToString(h), ".0");
    case Rapid(_, _) => MoveHasNoNewline(l);
    case Plunge(_, _) => MoveHasNoNewline(l);
    case Feed(_, _, _) => MoveHasNoNewline(l);
    case _ =>
  }

  lemma MoveHasNoNewline(l: Line)
    requires l.Rapid? || l.Plunge? || l.Feed?
    ensures NoNewline(Render(l))
  {
    match l
    case Rapid(x, y) =>
      Fixed1HasNoNewline(x);
      Fixed1HasNoNewline(y);
      NoNewlineConcat("G00 X", Fixed1(x));
      NoNewlineConcat("G00 X" + Fixed1(x), " Y");
      NoNewlineConcat("G00 X" + Fixed1(x) + " Y", Fixed1(y));
    case Plunge(z, f) =>
      Fixed1HasNoNewline(z);
      IntHasNoNewline(f);
      NoNewlineConcat("G01 Z", Fixed1(z));
      NoNewlineConcat("G01 Z" + Fixed1(z), " F");
      NoNewlineConcat("G01 Z" + Fixed1(z) + " F", IntToString(f));
    case Feed(x, y, rate) =>
      Fixed1HasNoNewline(x);
      Fixed1HasNoNewline(y);
      NoNewlineConcat("G01 X", Fixed1(x));
      NoNewlineConcat("G01 X" + Fixed1(x), " Y");
      NoNewlineConcat("G01 X" + Fixed1(x) + " Y", Fixed1(y));
      var tail := if rate.Some? then " F" + IntToString(rate.value) else "";
      if rate.Some? {
        IntHasNoNewline(rate.value);
        NoNewlineConcat(" F", IntToString(rate.value));
      }
      NoNewlineConcat("G01 X" + Fixed1(x) + " Y" + Fixed1(y), tail);
  }

  /**
   * The written file holds one line per program line, in order: read back
   * line by line it gives exactly the rendered lines, so `lines_count` is the
   * number of lines in the file.
   */
  lemma WrittenFileReadsBack(ls: seq<Line>)
    ensures ReadLines(WrittenFile(ls)) == RenderAll(ls)
    ensures |ReadLines(WrittenFile(ls))| == |ls|
  {
    var text := RenderAll(ls);
    forall i | 0 <= i < |text| ensures NoNewline(text[i]) {
      RenderHasNoNewline(ls[i]);
    }
    ReadLinesOfFileText(text);
  }

  // ---------------------------------------------------------------------------
  // Parameters

  /** `self.params`; the keys the generator reads, typed. */
  datatype Params = Params(
    thickness: real,
    cutterSpeed: int,
    drillSpeed: int,
    feedRate: int,
    safeHeight: int,
    cutDepth: real,
    drillDepth: real,
    processOrder: string)

  const DrillFirst: string := "drill_first"

  const Defaults: Params := Params(18.0, 18000, 18000, 12000, 48, 18.0, 7.0, DrillFirst)

  /** The keys a `new_params` dictionary may set; None for a key it does not hold. */
  datatype Overrides = Overrides(
    thickness: Option<real>,
    cutterSpeed: Option<int>,
    drillSpeed: Option<int>,
    feedRate: Option<int>,
    safeHeight: Option<int>,
    cutDepth: Option<real>,
    drillDepth: Option<real>,
    processOrder: Option<string>)

  const NoOverrides: Overrides := Overrides(None, None, None, None, None, None, None, None)

  function Pick<T>(o: Option<T>, current: T): T {
    if o.Some? then o.value else current
  }

  /** `params.update(new_params)` */
  function Overlay(p: Params, o: Overrides): Params {
    Params(
      Pick(o.thickness, p.thickness),
      Pick(o.cutterSpeed, p.cutterSpeed),
      Pick(o.drillSpeed, p.drillSpeed),
      Pick(o.feedRate, p.feedRate),
      Pick(o.safeHeight, p.safeHeight),
      Pick(o.cutDepth, p.cutDepth),
      Pick(o.drillDepth, p.drillDepth),
      Pick(o.processOrder, p.processOrder))
  }

  /** The overrides of a then b, b winning on keys both set (one `update` with the merged dictionary). */
  function Merge(a: Overrides, b: Overrides): Overrides {
    Overrides(
      if b.thickness.Some? then b.thickness else a.thickness,
      if b.cutterSpeed.Some? then b.cutterSpeed else a.cutterSpeed,
      if b.drillSpeed.Some? then b.drillSpeed else a.drillSpeed,
      if b.feedRate.Some? then b.feedRate else a.feedRate,
      if b.safeHeight.Some? then b.safeHeight else a.safeHeight,
      if b.cutDepth.Some? then b.cutDepth else a.cutDepth,
      if b.drillDepth.Some? then b.drillDepth else a.drillDepth,
      if b.processOrder.Some? then b.processOrder else a.processOrder)
  }

  /** Two updates in a row are one update with the merged dictionary; an empty update changes nothing. */
  lemma OverlayComposes(p: Params, a: Overrides, b: Overrides)
    ensures Overlay(Overlay(p, a), b) == Overlay(p, Merge(a, b))
    ensures Overlay(p, NoOverrides) == p
    ensures Overlay(Overlay(p, a), a) == Overlay(p, a)
  {
  }

  // ---------------------------------------------------------------------------
  // Line builders

  const DrillTool: int := 2
  const CutterTool: int := 1
  /** The fixed feed of every plunge, `F3000`. */
  const PlungeFeed: int := 3000

  /** `generate_header()` */
  function Header(): seq<Line> {
    [WorkOffset]
  }

  /** `generate_footer()` */
  function Footer(): seq<Line> {
    [SpindleStop, Park, ProgramEnd]
  }

  /** `generate_tool_change(tool_num, spindle_speed)` */
  function ToolChange(p: Params, tool: int, speed: int): seq<Line> {
    [ToolSelect(tool), SpindleOn(speed), LengthComp(tool), RetractSafe(p.safeHeight)]
  }

  /** `generate_drill_hole(x, y, depth)` */
  function DrillHole(p: Params, x: real, y: real, depth: real): seq<Line> {
    [Rapid(x, y), Plunge(depth, PlungeFeed), RetractSafe(p.safeHeight)]
  }

  /** One feed move at the feed rate to each of the points, in order. */
  function FeedMoves(p: Params, ps: seq<Point>): seq<Line>
    decreases |ps|
  {
    if ps == [] then []
    else FeedMoves(p, ps[..|ps| - 1]) + [Feed(ps[|ps| - 1].x, ps[|ps| - 1].y, Some(p.feedRate))]
  }

  /** The lines `generate_cut_polyline(points, closed)` returns. */
  function CutPolyline(p: Params, points: seq<Point>, closed: bool): seq<Line> {
    if |points| < 2 then []
    else
      [Rapid(points[0].x, points[0].y), Plunge(p.cutDepth, PlungeFeed)]
      + FeedMoves(p, points[1..])
      + (if closed && |points| > 2 then [Feed(points[0].x, points[0].y, None)] else [])
      + [RetractSafe(p.safeHeight)]
  }

  lemma {:induction false} FeedMovesAt(p: Params, ps: seq<Point>)
    ensures |FeedMoves(p, ps)| == |ps|
    ensures forall k :: 0 <= k < |ps| ==> FeedMoves(p, ps)[k] == Feed(ps[k].x, ps[k].y, Some(p.feedRate))
    decreases |ps|
  {
    if ps != [] {
      FeedMovesAt(p, ps[..|ps| - 1]);
    }
  }

  /**
   * A cut cycle: nothing for fewer than two points; otherwise a rapid to the
   * first point, a plunge to the cut depth at F3000, one feed move with the
   * feed rate to each later point in order, a closing move without F word
   * back to the first point exactly when the polyline is closed and has more
   * than two points, and a retract to the safe height as the last line.
   */
  lemma CutPolylineShape(p: Params, points: seq<Point>, closed: bool)
    ensures var lines := CutPolyline(p, points, closed);
      var n := |points|;
      var closes := closed && n > 2;
      (n < 2 ==> lines == []) &&
      (n >= 2 ==>
        |lines| == n + 2 + (if closes then 1 else 0) &&
        lines[0] == Rapid(points[0].x, points[0].y) &&
        lines[1] == Plunge(p.cutDepth, PlungeFeed) &&
        (forall k :: 1 <= k < n ==> lines[k + 1] == Feed(points[k].x, points[k].y, Some(p.feedRate))) &&
        (closes ==> lines[n + 1] == Feed(points[0].x, points[0].y, None)) &&
        lines[|lines| - 1] == RetractSafe(p.safeHeight))
  {
    if |points| >= 2 {
      FeedMovesAt(p, points[1..]);
    }
  }

  /** `generate_cut_polyline(points, closed)` */
  method GenerateCutPolyline(p: Params, points: seq<Point>, closed: bool) returns (lines: seq<Line>)
    ensures lines == CutPolyline(p, points, closed)
  {
    if |points| < 2 {
      return [];
    }
    var start := points[0];
    lines := [Rapid(start.x, start.y), Plunge(p.cutDepth, PlungeFeed)];
    var i := 1;
    while i < |points|
      invariant 1 <= i <= |points|
      invariant lines == [Rapid(start.x, start.y), Plunge(p.cutDepth, PlungeFeed)] + FeedMoves(p, points[1..i])
    {
      assert points[1..i + 1][..i - 1] == points[1..i];
      lines := lines + [Feed(points[i].x, points[i].y, Some(p.feedRate))];
      i := i + 1;
    }
    assert points[1..i] == points[1..];
    if closed && |points| > 2 {
      lines := lines + [Feed(start.x, start.y, None)];
    }
    lines := lines + [RetractSafe(p.safeHeight)];
  }

  // ---------------------------------------------------------------------------
  // The program

  /** One drill cycle per circle, in list order. */
  function DrillCycles(p: Params, circles: seq<CircleInfo>): seq<Line>
    decreases |circles|
  {
    if circles == [] then []
    else
      var c := circles[|circles| - 1];
      DrillCycles(p, circles[..|circles| - 1]) + DrillHole(p, c.center.x, c.center.y, p.drillDepth)
  }

  /** One cut cycle per polyline, in list order. */
  function CutCycles(p: Params, polylines: seq<PolylineInfo>): seq<Line>
    decreases |polylines|
  {
    if polylines == [] then []
    else
      var pl := polylines[|polylines| - 1];
      CutCycles(p, polylines[..|polylines| - 1]) + CutPolyline(p, pl.points, pl.closed)
  }

  lemma AppendAssoc<T>(a: seq<T>, b: seq<T>, c: seq<T>)
    ensures (a + b) + c == a + (b + c)
  {
  }

  lemma CutCyclesExtend(p: Params, polylines: seq<PolylineInfo>, i: nat)
    requires i < |polylines|
    ensures CutCycles(p, polylines[..i + 1]) ==
      CutCycles(p, polylines[..i]) + CutPolyline(p, polylines[i].points, polylines[i].closed)
  {
    assert polylines[..i + 1][..i] == polylines[..i];
  }

  /** The drilling block: tool 2 at the drill speed, then the cycles; nothing without circles. */
  function DrillBlock(p: Params, circles: seq<CircleInfo>): seq<Line> {
    if circles == [] then [] else ToolChange(p, DrillTool, p.drillSpeed) + DrillCycles(p, circles)
  }

  /** The cutting block: tool 1 at the cutter speed, then the cycles; nothing without polylines. */
  function CutBlock(p: Params, polylines: seq<PolylineInfo>): seq<Line> {
    if polylines == [] then [] else ToolChange(p, CutterTool, p.cutterSpeed) + CutCycles(p, polylines)
  }

  /** The lines `generate_gcode` writes. */
  function Program(p: Params, circles: seq<CircleInfo>, polylines: seq<PolylineInfo>): seq<Line> {
    Header()
    + (if p.processOrder == DrillFirst
       then DrillBlock(p, circles) + CutBlock(p, polylines)
       else CutBlock(p, polylines) + DrillBlock(p, circles))
    + Footer()
  }

  /** `GCodeGenerator`: the machining parameters, set by `update_params` and read by `generate_gcode`. */
  class GCodeGenerator {
    var params: Params

    constructor ()
      ensures params == Defaults
    {
      params := Defaults;
    }

    /** `update_params(new_params)` */
    method UpdateParams(newParams: Overrides)
      modifies this
      ensures params == Overlay(old(params), newParams)
    {
      params := Overlay(params, newParams);
    }

    /**
     * `generate_gcode(analyzer_data)`: the program for the analyzer's circles
     * and polylines, and the line count it reports.
     */
    method GenerateGcode(analyzer: DXFAnalyzer) returns (lines: seq<Line>, linesCount: nat)
      ensures lines == Program(params, analyzer.circles, analyzer.polylines)
      ensures linesCount == |lines|
    {
      var p, circles, polylines := params, analyzer.circles, analyzer.polylines;
      ghost var blocks: seq<Line>;
      lines := Header();
      if p.processOrder == DrillFirst {
        lines := AppendDrillBlock(lines, p, circles);
        lines := AppendCutBlock(lines, p, polylines);
        blocks := DrillBlock(p, circles) + CutBlock(p, polylines);
        AppendAssoc(Header(), DrillBlock(p, circles), CutBlock(p, polylines));
      } else {
        lines := AppendCutBlock(lines, p, polylines);
        lines := AppendDrillBlock(lines, p, circles);
        blocks := CutBlock(p, polylines) + DrillBlock(p, circles);
        AppendAssoc(Header(), CutBlock(p, polylines), DrillBlock(p, circles));
      }
      assert lines == Header() + blocks;
      assert Program(p, circles, polylines) == Header() + blocks + Footer();
      lines := lines + Footer();
      linesCount := |lines|;
    }
  }

  /** The drilling half of `generate_gcode`: `lines.extend` for the tool change, then the holes. */
  method AppendDrillBlock(lines0: seq<Line>, p: Params, circles: seq<CircleInfo>) returns (lines: seq<Line>)
    ensures lines == lines0 + DrillBlock(p, circles)
  {
    lines := lines0;
    if circles != [] {
      lines := lines + ToolChange(p, DrillTool, p.drillSpeed);
      lines := AppendDrillCycles(lines, p, circles);
    }
  }

  /** `for circle in circles: lines.extend(generate_drill_hole(...))` */
  method AppendDrillCycles(lines0: seq<Line>, p: Params, circles: seq<CircleInfo>) returns (lines: seq<Line>)
    ensures lines == lines0 + DrillCycles(p, circles)
  {
    lines := lines0;
    var i := 0;
    while i < |circles|
      invariant 0 <= i <= |circles|
      invariant lines == lines0 + DrillCycles(p, circles[..i])
    {
      assert circles[..i + 1][..i] == circles[..i];
      var center := circles[i].center;
      lines := lines + DrillHole(p, center.x, center.y, p.drillDepth);
      i := i + 1;
    }
    assert circles[..|circles|] == circles;
  }

  /** The cutting half of `generate_gcode`: `lines.extend` for the tool change, then the outlines. */
  method AppendCutBlock(lines0: seq<Line>, p: Params, polylines: seq<PolylineInfo>) returns (lines: seq<Line>)
    ensures lines == lines0 + CutBlock(p, polylines)
  {
    lines := lines0;
    if polylines != [] {
      lines := lines + ToolChange(p, CutterTool, p.cutterSpeed);
      lines := AppendCutCycles(lines, p, polylines);
    }
  }

  /** `for polyline in polylines: lines.extend(generate_cut_polyline(...))` */
  method AppendCutCycles(lines0: seq<Line>, p: Params, polylines: seq<PolylineInfo>) returns (lines: seq<Line>)
    ensures lines == lines0 + CutCycles(p, polylines)
  {
    lines := lines0;
    var i := 0;
    while i < |polylines|
      invariant 0 <= i <= |polylines|
      invariant lines == lines0 + CutCycles(p, polylines[..i])
    {
      var cycle := GenerateCutPolyline(p, polylines[i].points, polylines[i].closed);
      CutCyclesExtend(p, polylines, i);
      AppendAssoc(lines0, CutCycles(p, polylines[..i]), cycle);
      lines := lines + cycle;
      i := i + 1;
    }
    assert polylines[..|polylines|] == polylines;
  }
}
