/**
 * What the generated program promises as a whole: its frame, its length, the
 * placement and order of the two tool blocks, the shape of every tool
 * change, and the retract to the safe height before every rapid XY move.
 */
module GCodeProperties {
  import opened Wrappers
  import opened Format
  import opened Geometry
  import opened Analyzer
  import opened GCode

  /** The program starts with `G54` and ends with `M05`, `G53 X100.0Y2850.0`, `M30`; without geometry it is only those four lines. */
  lemma ProgramFrame(p: Params, circles: seq<CircleInfo>, polylines: seq<PolylineInfo>)
    ensures var prog := Program(p, circles, polylines);
      |prog| >= 4 && prog[0] == WorkOffset &&
      prog[|prog| - 3..] == [SpindleStop, Park, ProgramEnd] &&
      (circles == [] && polylines == [] ==> prog == [WorkOffset, SpindleStop, Park, ProgramEnd])
  {
  }

  // ---------------------------------------------------------------------------
  // Length

  /** The number of lines one cut cycle has. */
  function CutLineCount(pl: PolylineInfo): nat {
    var n := |pl.points|;
    if n < 2 then 0 else n + 2 + (if pl.closed && n > 2 then 1 else 0)
  }

  function CutLineTotal(polylines: seq<PolylineInfo>): nat
    decreases |polylines|
  {
    if polylines == [] then 0
    else CutLineTotal(polylines[..|polylines| - 1]) + CutLineCount(polylines[|polylines| - 1])
  }

  lemma {:induction false} DrillCyclesLength(p: Params, circles: seq<CircleInfo>)
    ensures |DrillCycles(p, circles)| == 3 * |circles|
    decreases |circles|
  {
    if circles != [] {
      DrillCyclesLength(p, circles[..|circles| - 1]);
    }
  }

  lemma {:induction false} CutCyclesLength(p: Params, polylines: seq<PolylineInfo>)
    ensures |CutCycles(p, polylines)| == CutLineTotal(polylines)
    decreases |polylines|
  {
    if polylines != [] {
      var pl := polylines[|polylines| - 1];
      CutCyclesLength(p, polylines[..|polylines| - 1]);
      CutPolylineShape(p, pl.points, pl.closed);
    }
  }

  /**
   * `lines_count`: 1 header line, 3 footer lines, 4 + 3 per circle when there
   * are circles, 4 + the cut lines when there are polylines; the same for
   * either process order.
   */
  lemma ProgramLength(p: Params, circles: seq<CircleInfo>, polylines: seq<PolylineInfo>)
    ensures |Program(p, circles, polylines)| ==
      4 + (if circles != [] then 4 + 3 * |circles| else 0)
        + (if polylines != [] then 4 + CutLineTotal(polylines) else 0)
  {
    DrillCyclesLength(p, circles);
    CutCyclesLength(p, polylines);
  }

  // ---------------------------------------------------------------------------
  // Tool blocks

  /** The tools the program selects (`M6 T…`), in order. */
  function ToolsSelected(ls: seq<Line>): seq<int>
    decreases |ls|
  {
    if ls == [] then []
    else ToolsSelected(ls[..|ls| - 1]) + (if ls[|ls| - 1].ToolSelect? then [ls[|ls| - 1].tool] else [])
  }

  lemma {:induction false} ToolsSelectedConcat(a: seq<Line>, b: seq<Line>)
    ensures ToolsSelected(a + b) == ToolsSelected(a) + ToolsSelected(b)
    decreases |b|
  {
    if b != [] {
      var b' := b[..|b| - 1];
      assert (a + b)[..|a + b| - 1] == a + b';
      assert (a + b)[|a + b| - 1] == b[|b| - 1];
      ToolsSelectedConcat(a, b');
      AppendAssoc(ToolsSelected(a), ToolsSelected(b'),
        if b[|b| - 1].ToolSelect? then [b[|b| - 1].tool] else []);
    } else {
      assert a + b == a;
    }
  }

  /** Lines none of which is a tool change select no tool. */
  lemma {:induction false} NoToolInLines(ls: seq<Line>)
    requires forall i :: 0 <= i < |ls| ==> !ls[i].ToolSelect?
    ensures ToolsSelected(ls) == []
    decreases |ls|
  {
    if ls != [] {
      NoToolInLines(ls[..|ls| - 1]);
    }
  }

  lemma CutPolylineSelectsNoTool(p: Params, points: seq<Point>, closed: bool)
    ensures ToolsSelected(CutPolyline(p, points, closed)) == []
  {
    var lines := CutPolyline(p, points, closed);
    CutPolylineShape(p, points, closed);
    forall i | 0 <= i < |lines| ensures !lines[i].ToolSelect? {
      if 1 < i < |points| + 1 {
        assert lines[i] == Feed(points[i - 1].x, points[i - 1].y, Some(p.feedRate));
      }
    }
    NoToolInLines(lines);
  }

  lemma {:induction false} CyclesSelectNoTool(p: Params, circles: seq<CircleInfo>, polylines: seq<PolylineInfo>)
    ensures ToolsSelected(DrillCycles(p, circles)) == []
    ensures ToolsSelected(CutCycles(p, polylines)) == []
    decreases |circles| + |polylines|
  {
    if circles != [] {
      var c := circles[|circles| - 1];
      var hole := DrillHole(p, c.center.x, c.center.y, p.drillDepth);
      CyclesSelectNoTool(p, circles[..|circles| - 1], []);
      ToolsSelectedConcat(DrillCycles(p, circles[..|circles| - 1]), hole);
      NoToolInLines(hole);
    }
    if polylines != [] {
      var pl := polylines[|polylines| - 1];
      CyclesSelectNoTool(p, [], polylines[..|polylines| - 1]);
      CutPolylineSelectsNoTool(p, pl.points, pl.closed);
      ToolsSelectedConcat(CutCycles(p, polylines[..|polylines| - 1]), CutPolyline(p, pl.points, pl.closed));
    }
  }

  lemma ToolChangeSelects(p: Params, tool: int, speed: int)
    ensures ToolsSelected(ToolChange(p, tool, speed)) == [tool]
  {
    var tc := ToolChange(p, tool, speed);
    ToolsSelectedConcat([ToolSelect(tool)], [SpindleOn(speed), LengthComp(tool), RetractSafe(p.safeHeight)]);
    NoToolInLines([SpindleOn(speed), LengthComp(tool), RetractSafe(p.safeHeight)]);
    assert [ToolSelect(tool)] + [SpindleOn(speed), LengthComp(tool), RetractSafe(p.safeHeight)] == tc;
  }

  /** Framing parts that select no tool leave the tools of the middle parts. */
  lemma ToolsSelectedBetween(a: seq<Line>, b: seq<Line>, c: seq<Line>, d: seq<Line>)
    requires ToolsSelected(a) == [] && ToolsSelected(d) == []
    ensures ToolsSelected(a + b + c + d) == ToolsSelected(b) + ToolsSelected(c)
  {
    ToolsSelectedConcat(a, b);
    ToolsSelectedConcat(a + b, c);
    ToolsSelectedConcat(a + b + c, d);
  }

  /** The program is the header, the two blocks in the chosen order, and the footer. */
  lemma ProgramSplit(p: Params, circles: seq<CircleInfo>, polylines: seq<PolylineInfo>)
    returns (first: seq<Line>, second: seq<Line>)
    ensures Program(p, circles, polylines) == Header() + first + second + Footer()
    ensures p.processOrder == DrillFirst ==> first == DrillBlock(p, circles) && second == CutBlock(p, polylines)
    ensures p.processOrder != DrillFirst ==> first == CutBlock(p, polylines) && second == DrillBlock(p, circles)
  {
    if p.processOrder == DrillFirst {
      first, second := DrillBlock(p, circles), CutBlock(p, polylines);
    } else {
      first, second := CutBlock(p, polylines), DrillBlock(p, circles);
    }
    AppendAssoc(Header(), first, second);
  }

  lemma BlockTools(p: Params, circles: seq<CircleInfo>, polylines: seq<PolylineInfo>)
    ensures ToolsSelected(DrillBlock(p, circles)) == if circles != [] then [DrillTool] else []
    ensures ToolsSelected(CutBlock(p, polylines)) == if polylines != [] then [CutterTool] else []
  {
    CyclesSelectNoTool(p, circles, polylines);
    if circles != [] {
      ToolChangeSelects(p, DrillTool, p.drillSpeed);
      ToolsSelectedConcat(ToolChange(p, DrillTool, p.drillSpeed), DrillCycles(p, circles));
    }
    if polylines != [] {
      ToolChangeSelects(p, CutterTool, p.cutterSpeed);
      ToolsSelectedConcat(ToolChange(p, CutterTool, p.cutterSpeed), CutCycles(p, polylines));
    }
  }

  /**
   * The tools are selected once per block: tool 2 exactly when there are
   * circles, tool 1 exactly when there are polylines, drilling first for
   * `drill_first` and cutting first for any other order. So no tool is
   * selected twice.
   */
  lemma ToolOrder(p: Params, circles: seq<CircleInfo>, polylines: seq<PolylineInfo>)
    ensures var drill := if circles != [] then [DrillTool] else [];
      var cut := if polylines != [] then [CutterTool] else [];
      ToolsSelected(Program(p, circles, polylines)) ==
        if p.processOrder == DrillFirst then drill + cut else cut + drill
  {
    var first, second := ProgramSplit(p, circles, polylines);
    BlockTools(p, circles, polylines);
    FrameSelectsNoTool();
    ToolsSelectedBetween(Header(), first, second, Footer());
  }

  lemma FrameSelectsNoTool()
    ensures ToolsSelected(Header()) == [] && ToolsSelected(Footer()) == []
  {
    NoToolInLines(Header());
    NoToolInLines(Footer());
  }

  lemma {:induction false} FeedMovesIgnoreOrder(p: Params, order: string, ps: seq<Point>)
    ensures FeedMoves(p.(processOrder := order), ps) == FeedMoves(p, ps)
    decreases |ps|
  {
    if ps != [] {
      FeedMovesIgnoreOrder(p, order, ps[..|ps| - 1]);
    }
  }

  lemma {:induction false} CyclesIgnoreOrder(p: Params, order: string, circles: seq<CircleInfo>, polylines: seq<PolylineInfo>)
    ensures DrillCycles(p.(processOrder := order), circles) == DrillCycles(p, circles)
    ensures CutCycles(p.(processOrder := order), polylines) == CutCycles(p, polylines)
    decreases |circles| + |polylines|
  {
    if circles != [] {
      CyclesIgnoreOrder(p, order, circles[..|circles| - 1], []);
    }
    if polylines != [] {
      var pl := polylines[|polylines| - 1];
      CyclesIgnoreOrder(p, order, [], polylines[..|polylines| - 1]);
      if |pl.points| >= 2 {
        FeedMovesIgnoreOrder(p, order, pl.points[1..]);
      }
    }
  }

  /** The process order decides only where the blocks go, not what they hold. */
  lemma BlocksIgnoreOrder(p: Params, order: string, circles: seq<CircleInfo>, polylines: seq<PolylineInfo>)
    ensures DrillBlock(p.(processOrder := order), circles) == DrillBlock(p, circles)
    ensures CutBlock(p.(processOrder := order), polylines) == CutBlock(p, polylines)
  {
    CyclesIgnoreOrder(p, order, circles, polylines);
  }

  /**
   * For the same parameters otherwise, `drill_first` writes the drilling
   * block before the cutting block and any other order writes the very same
   * two blocks the other way round; so both write the same lines.
   */
  lemma OrdersEmitSameLines(p: Params, order: string, circles: seq<CircleInfo>, polylines: seq<PolylineInfo>)
    requires order != DrillFirst
    ensures var drill, cut := DrillBlock(p, circles), CutBlock(p, polylines);
      Program(p.(processOrder := DrillFirst), circles, polylines) == Header() + drill + cut + Footer() &&
      Program(p.(processOrder := order), circles, polylines) == Header() + cut + drill + Footer()
    ensures multiset(Program(p.(processOrder := DrillFirst), circles, polylines)) ==
            multiset(Program(p.(processOrder := order), circles, polylines))
  {
    var drill, cut := DrillBlock(p, circles), CutBlock(p, polylines);
    BlocksIgnoreOrder(p, DrillFirst, circles, polylines);
    BlocksIgnoreOrder(p, order, circles, polylines);
    var first, second := ProgramSplit(p.(processOrder := DrillFirst), circles, polylines);
    var first', second' := ProgramSplit(p.(processOrder := order), circles, polylines);
    assert multiset(Header() + drill + cut + Footer()) == multiset(Header() + cut + drill + Footer());
  }

  // ---------------------------------------------------------------------------
  // Tool changes are complete

  /** The spindle speed the generator uses with a tool. */
  function SpeedFor(p: Params, tool: int): int {
    if tool == DrillTool then p.drillSpeed else p.cutterSpeed
  }

  /** Every `M6 T{t}` is followed by `M03 S{speed}`, `G43 H{t}` and the retract to the safe height. */
  predicate ToolChangesComplete(ls: seq<Line>, p: Params) {
    forall i :: 0 <= i < |ls| && ls[i].ToolSelect? ==>
      i + 3 < |ls| && ls[i + 1] == SpindleOn(SpeedFor(p, ls[i].tool)) &&
      ls[i + 2] == LengthComp(ls[i].tool) && ls[i + 3] == RetractSafe(p.safeHeight)
  }

  predicate NoToolSelect(ls: seq<Line>) {
    forall i :: 0 <= i < |ls| ==> !ls[i].ToolSelect?
  }

  lemma ToolChangesCompleteBetween(a: seq<Line>, b: seq<Line>, c: seq<Line>, d: seq<Line>, p: Params)
    requires ToolChangesComplete(a, p) && ToolChangesComplete(b, p)
    requires ToolChangesComplete(c, p) && ToolChangesComplete(d, p)
    ensures ToolChangesComplete(a + b + c + d, p)
  {
    ToolChangesCompleteConcat(a, b, p);
    ToolChangesCompleteConcat(a + b, c, p);
    ToolChangesCompleteConcat(a + b + c, d, p);
  }

  lemma {:induction false} NoToolSelectFromTools(ls: seq<Line>)
    requires ToolsSelected(ls) == []
    ensures NoToolSelect(ls)
    decreases |ls|
  {
    if ls != [] {
      NoToolSelectFromTools(ls[..|ls| - 1]);
      assert forall i :: 0 <= i < |ls| - 1 ==> ls[i] == ls[..|ls| - 1][i];
    }
  }

  lemma ToolChangesCompleteConcat(a: seq<Line>, b: seq<Line>, p: Params)
    requires ToolChangesComplete(a, p) && ToolChangesComplete(b, p)
    ensures ToolChangesComplete(a + b, p)
  {
    var ab := a + b;
    forall i | 0 <= i < |ab| && ab[i].ToolSelect?
      ensures i + 3 < |ab| && ab[i + 1] == SpindleOn(SpeedFor(p, ab[i].tool)) &&
        ab[i + 2] == LengthComp(ab[i].tool) && ab[i + 3] == RetractSafe(p.safeHeight)
    {
      if i < |a| {
        assert a[i].ToolSelect?;
      } else {
        assert b[i - |a|].ToolSelect?;
      }
    }
  }

  lemma ToolChangeComplete(p: Params, tool: int)
    ensures ToolChangesComplete(ToolChange(p, tool, SpeedFor(p, tool)), p)
  {
  }

  lemma CyclesToolChangesComplete(p: Params, circles: seq<CircleInfo>, polylines: seq<PolylineInfo>)
    ensures ToolChangesComplete(DrillCycles(p, circles), p)
    ensures ToolChangesComplete(CutCycles(p, polylines), p)
  {
    CyclesSelectNoTool(p, circles, polylines);
    NoToolSelectFromTools(DrillCycles(p, circles));
    NoToolSelectFromTools(CutCycles(p, polylines));
  }

  lemma BlocksToolChangesComplete(p: Params, circles: seq<CircleInfo>, polylines: seq<PolylineInfo>)
    ensures ToolChangesComplete(DrillBlock(p, circles), p)
    ensures ToolChangesComplete(CutBlock(p, polylines), p)
  {
    CyclesToolChangesComplete(p, circles, polylines);
    if circles != [] {
      ToolChangeComplete(p, DrillTool);
      ToolChangesCompleteConcat(ToolChange(p, DrillTool, p.drillSpeed), DrillCycles(p, circles), p);
    }
    if polylines != [] {
      ToolChangeComplete(p, CutterTool);
      ToolChangesCompleteConcat(ToolChange(p, CutterTool, p.cutterSpeed), CutCycles(p, polylines), p);
    }
  }

  /**
   * Every tool change is the four lines `M6 T{t}`, `M03 S{s}`, `G43 H{t}`,
   * `G00 Z{safe_height}.0`, with the drill speed for tool 2 and the cutter
   * speed for tool 1.
   */
  lemma ProgramToolChangesComplete(p: Params, circles: seq<CircleInfo>, polylines: seq<PolylineInfo>)
    ensures ToolChangesComplete(Program(p, circles, polylines), p)
  {
    var first, second := ProgramSplit(p, circles, polylines);
    BlocksToolChangesComplete(p, circles, polylines);
    FrameHasNoToolChange(p);
    ToolChangesCompleteBetween(Header(), first, second, Footer(), p);
  }

  lemma FrameHasNoToolChange(p: Params)
    ensures ToolChangesComplete(Header(), p) && ToolChangesComplete(Footer(), p)
  {
    assert NoToolSelect(Header()) && NoToolSelect(Footer());
  }

  // ---------------------------------------------------------------------------
  // Retract before every rapid move

  /** Every rapid XY move after the first line directly follows a retract to height h. */
  predicate RapidsGuarded(ls: seq<Line>, h: int) {
    forall i :: 0 < i < |ls| && ls[i].Rapid? ==> ls[i - 1] == RetractSafe(h)
  }

  /** A run of cycles: empty, or guarded inside and ending with the retract. */
  predicate IsCycleRun(ls: seq<Line>, h: int) {
    ls == [] || (RapidsGuarded(ls, h) && ls[|ls| - 1] == RetractSafe(h))
  }

  lemma RapidsGuardedConcat(a: seq<Line>, b: seq<Line>, h: int)
    requires RapidsGuarded(a, h) && RapidsGuarded(b, h)
    requires a != [] && b != [] && b[0].Rapid? ==> a[|a| - 1] == RetractSafe(h)
    ensures RapidsGuarded(a + b, h)
  {
    var ab := a + b;
    forall i | 0 < i < |ab| && ab[i].Rapid?
      ensures ab[i - 1] == RetractSafe(h)
    {
      if i > |a| {
        assert b[i - |a|].Rapid? && ab[i - 1] == b[i - |a| - 1];
      } else if i == |a| {
        assert b[0].Rapid?;
      } else {
        assert a[i].Rapid?;
      }
    }
  }

  lemma CycleRunConcat(a: seq<Line>, b: seq<Line>, h: int)
    requires IsCycleRun(a, h) && IsCycleRun(b, h)
    ensures IsCycleRun(a + b, h)
  {
    if a != [] && b != [] {
      RapidsGuardedConcat(a, b, h);
    } else if a == [] {
      assert a + b == b;
    } else {
      assert a + b == a;
    }
  }

  lemma {:induction false} FeedMovesHaveNoRapid(p: Params, ps: seq<Point>)
    ensures forall i :: 0 <= i < |FeedMoves(p, ps)| ==> !FeedMoves(p, ps)[i].Rapid?
  {
    FeedMovesAt(p, ps);
  }

  /**
   * A cut cycle has exactly one rapid move, its first line, and ends with the
   * retract to the safe height.
   */
  lemma CutPolylineIsCycleRun(p: Params, points: seq<Point>, closed: bool)
    ensures IsCycleRun(CutPolyline(p, points, closed), p.safeHeight)
    ensures var lines := CutPolyline(p, points, closed);
      (lines != [] ==> lines[0].Rapid?) && forall i :: 0 < i < |lines| ==> !lines[i].Rapid?
  {
    CutPolylineShape(p, points, closed);
    if |points| >= 2 {
      var lines := CutPolyline(p, points, closed);
      FeedMovesHaveNoRapid(p, points[1..]);
      forall i | 0 < i < |lines| ensures !lines[i].Rapid? {
        if 1 < i < |points| + 1 {
          assert lines[i] == Feed(points[i - 1].x, points[i - 1].y, Some(p.feedRate));
        }
      }
    }
  }

  lemma {:induction false} CyclesAreCycleRuns(p: Params, circles: seq<CircleInfo>, polylines: seq<PolylineInfo>)
    ensures IsCycleRun(DrillCycles(p, circles), p.safeHeight)
    ensures IsCycleRun(CutCycles(p, polylines), p.safeHeight)
    decreases |circles| + |polylines|
  {
    if circles != [] {
      var c := circles[|circles| - 1];
      CyclesAreCycleRuns(p, circles[..|circles| - 1], []);
      CycleRunConcat(DrillCycles(p, circles[..|circles| - 1]), DrillHole(p, c.center.x, c.center.y, p.drillDepth), p.safeHeight);
    }
    if polylines != [] {
      var pl := polylines[|polylines| - 1];
      CyclesAreCycleRuns(p, [], polylines[..|polylines| - 1]);
      CutPolylineIsCycleRun(p, pl.points, pl.closed);
      CycleRunConcat(CutCycles(p, polylines[..|polylines| - 1]), CutPolyline(p, pl.points, pl.closed), p.safeHeight);
    }
  }

  /** A block is empty or starts with a tool change, and is guarded inside. */
  lemma BlocksGuarded(p: Params, circles: seq<CircleInfo>, polylines: seq<PolylineInfo>)
    ensures var d := DrillBlock(p, circles);
      RapidsGuarded(d, p.safeHeight) && (d != [] ==> !d[0].Rapid?)
    ensures var c := CutBlock(p, polylines);
      RapidsGuarded(c, p.safeHeight) && (c != [] ==> !c[0].Rapid?)
  {
    CyclesAreCycleRuns(p, circles, polylines);
    if circles != [] {
      CycleRunConcat(ToolChange(p, DrillTool, p.drillSpeed), DrillCycles(p, circles), p.safeHeight);
    }
    if polylines != [] {
      CycleRunConcat(ToolChange(p, CutterTool, p.cutterSpeed), CutCycles(p, polylines), p.safeHeight);
    }
  }

  /**
   * Every rapid XY move of the program (`G00 X… Y…`) is immediately preceded
   * by the retract to the safe height (`G00 Z{safe_height}.0`).
   */
  lemma ProgramRapidsFollowRetract(p: Params, circles: seq<CircleInfo>, polylines: seq<PolylineInfo>)
    ensures var prog := Program(p, circles, polylines);
      forall i :: 0 <= i < |prog| && prog[i].Rapid? ==> i > 0 && prog[i - 1] == RetractSafe(p.safeHeight)
  {
    var h := p.safeHeight;
    var first, second := ProgramSplit(p, circles, polylines);
    BlocksGuarded(p, circles, polylines);
    RapidsGuardedConcat(Header(), first, h);
    RapidsGuardedConcat(Header() + first, second, h);
    RapidsGuardedConcat(Header() + first + second, Footer(), h);
  }

  // ---------------------------------------------------------------------------
  // The same, on the text

  /** The text starts with `G00 X`. */
  predicate IsRapidText(s: string) {
    |s| >= 5 && s[0] == 'G' && s[1] == '0' && s[2] == '0' && s[3] == ' ' && s[4] == 'X'
  }

  /** The text of a line starts with `G00 X` exactly when the line is a rapid XY move. */
  lemma RapidTextIffRapid(l: Line)
    ensures IsRapidText(Render(l)) <==> l.Rapid?
  {
    var s := Render(l);
    match l {
      case WorkOffset =>
      case ToolSelect(t) => assert s[0] == 'M';
      case SpindleOn(sp) => assert s[0] == 'M';
      case LengthComp(t) => assert s[1] == '4';
      case RetractSafe(h) => assert s[4] == 'Z';
      case Rapid(x, y) =>
      case Plunge(z, f) => assert s[2] == '1';
      case Feed(x, y, r) => assert s[2] == '1';
      case SpindleStop =>
      case Park => assert s[1] == '5';
      case ProgramEnd =>
    }
  }

  /** In the written file, every line starting `G00 X` directly follows `G00 Z{safe_height}.0`. */
  lemma WrittenRapidsFollowRetract(p: Params, circles: seq<CircleInfo>, polylines: seq<PolylineInfo>)
    ensures var text := RenderAll(Program(p, circles, polylines));
      forall i :: 0 <= i < |text| && IsRapidText(text[i]) ==>
        i > 0 && text[i - 1] == "G00 Z" + IntToString(p.safeHeight) + ".0"
  {
    var prog := Program(p, circles, polylines);
    var text := RenderAll(prog);
    ProgramRapidsFollowRetract(p, circles, polylines);
    forall i | 0 <= i < |text| && IsRapidText(text[i])
      ensures i > 0 && text[i - 1] == "G00 Z" + IntToString(p.safeHeight) + ".0"
    {
      RapidTextIffRapid(prog[i]);
    }
  }
}
