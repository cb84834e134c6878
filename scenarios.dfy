/**
 * Worked drawings: what the analyzer keeps from them and what the generator
 * writes for them with the default parameters.
 */
module Scenarios {
  import opened Wrappers
  import opened Format
  import opened Geometry
  import opened Analyzer
  import opened GCode
  import opened GCodeProperties

  const Square: seq<Point> := [Point(0.0, 0.0), Point(100.0, 0.0), Point(100.0, 100.0), Point(0.0, 100.0)]

  function Rectangle(x0: real, y0: real, x1: real, y1: real): seq<Point> {
    [Point(x0, y0), Point(x1, y0), Point(x1, y1), Point(x0, y1)]
  }

  /** The box of a rectangle drawn from its lower-left corner. */
  lemma RectangleBox(x0: real, y0: real, x1: real, y1: real)
    requires x0 <= x1 && y0 <= y1
    ensures Width(Rectangle(x0, y0, x1, y1)) == x1 - x0
    ensures Height(Rectangle(x0, y0, x1, y1)) == y1 - y0
  {
    var r := Rectangle(x0, y0, x1, y1);
    var xs, ys := Xs(r), Ys(r);
    assert xs == [x0, x1, x1, x0] && ys == [y0, y0, y1, y1];
    assert MaxOf(xs) == x1 by { assert MaxOf(xs) >= xs[1]; }
    assert MinOf(xs) == x0 by { assert MinOf(xs) <= xs[0]; }
    assert MaxOf(ys) == y1 by { assert MaxOf(ys) >= ys[2]; }
    assert MinOf(ys) == y0 by { assert MinOf(ys) <= ys[0]; }
  }

  lemma AnalyzeAppend(msp: seq<Entity>, e: Entity)
    ensures Analyze(msp + [e]) == Step(Analyze(msp), e)
  {
    assert (msp + [e])[..|msp|] == msp;
  }

  lemma FilteredAppend(ps: seq<Point>, q: Point)
    ensures Filtered(ps + [q]) == Filtered(ps) + (if InEnvelope(q) then [q] else [])
  {
    assert (ps + [q])[..|ps|] == ps;
  }

  /** Of five drillable circles only the first four are drilled. */
  lemma FifthHoleIsDropped(c0: Point, c1: Point, c2: Point, c3: Point, c4: Point, r: real)
    requires InEnvelope(c0) && InEnvelope(c1) && InEnvelope(c2) && InEnvelope(c3) && InEnvelope(c4)
    requires MinRadius <= r <= MaxRadius
    ensures var msp := [Circle(c0, r), Circle(c1, r), Circle(c2, r), Circle(c3, r), Circle(c4, r)];
      Analyze(msp).circles == [CircleInfo(c0, r), CircleInfo(c1, r), CircleInfo(c2, r), CircleInfo(c3, r)] &&
      |Analyze(msp).entities| == 5
  {
    var msp := [Circle(c0, r), Circle(c1, r), Circle(c2, r), Circle(c3, r), Circle(c4, r)];
    AnalyzeAppend([], msp[0]);
    AnalyzeAppend(msp[..1], msp[1]);
    AnalyzeAppend(msp[..2], msp[2]);
    AnalyzeAppend(msp[..3], msp[3]);
    AnalyzeAppend(msp[..4], msp[4]);
    assert [msp[0]] == msp[..1] && msp[..1] + [msp[1]] == msp[..2] && msp[..2] + [msp[2]] == msp[..3];
    assert msp[..3] + [msp[3]] == msp[..4] && msp[..4] + [msp[4]] == msp;
  }

  /** A vertex outside the machine envelope is dropped; the rest of the polyline is still cut. */
  lemma StrayVertexIsDropped()
    ensures var sq := Rectangle(0.0, 0.0, 100.0, 100.0);
      var vs := [sq[0], sq[1], Point(3000.0, 0.0), sq[2], sq[3]];
      Analyze([LwPolyline(vs, true)]).polylines == [PolylineInfo(sq, true, 10000.0)]
  {
    var sq := Rectangle(0.0, 0.0, 100.0, 100.0);
    var vs := [sq[0], sq[1], Point(3000.0, 0.0), sq[2], sq[3]];
    StrayVertexIsFiltered();
    RectangleBox(0.0, 0.0, 100.0, 100.0);
    assert IsPartOutline(sq);
    AnalyzeAppend([], LwPolyline(vs, true));
    assert [] + [LwPolyline(vs, true)] == [LwPolyline(vs, true)];
  }

  lemma StrayVertexIsFiltered()
    ensures var sq := Rectangle(0.0, 0.0, 100.0, 100.0);
      Filtered([sq[0], sq[1], Point(3000.0, 0.0), sq[2], sq[3]]) == sq
  {
    var sq := Rectangle(0.0, 0.0, 100.0, 100.0);
    var vs := [sq[0], sq[1], Point(3000.0, 0.0), sq[2], sq[3]];
    FilteredAppend([], vs[0]);
    FilteredAppend(vs[..1], vs[1]);
    FilteredAppend(vs[..2], vs[2]);
    FilteredAppend(vs[..3], vs[3]);
    FilteredAppend(vs[..4], vs[4]);
    assert [vs[0]] == vs[..1] && vs[..1] + [vs[1]] == vs[..2] && vs[..2] + [vs[2]] == vs[..3];
    assert vs[..3] + [vs[3]] == vs[..4] && vs[..4] + [vs[4]] == vs;
  }

  /** A polyline larger than 1000 by 2000 is taken for the sheet and not cut. */
  lemma WholeSheetIsNotCut()
    ensures Analyze([LwPolyline(Rectangle(0.0, 0.0, 1200.0, 2200.0), true)]).polylines == []
  {
    var sheet := Rectangle(0.0, 0.0, 1200.0, 2200.0);
    assert AllInEnvelope(sheet);
    FilteredKeepsEnvelopeRuns(sheet);
    RectangleBox(0.0, 0.0, 1200.0, 2200.0);
    assert !IsPartOutline(Filtered(sheet));
    AnalyzeAppend([], LwPolyline(sheet, true));
    assert [] + [LwPolyline(sheet, true)] == [LwPolyline(sheet, true)];
  }

  /** The sheet test needs both sides too large: a 2400 by 1200 sheet passes as a part outline. */
  lemma LandscapeSheetIsCut()
    ensures Analyze([LwPolyline(Rectangle(0.0, 0.0, 2400.0, 1200.0), true)]).polylines ==
      [PolylineInfo(Rectangle(0.0, 0.0, 2400.0, 1200.0), true, 2880000.0)]
  {
    var sheet := Rectangle(0.0, 0.0, 2400.0, 1200.0);
    assert AllInEnvelope(sheet);
    FilteredKeepsEnvelopeRuns(sheet);
    RectangleBox(0.0, 0.0, 2400.0, 1200.0);
    assert IsPartOutline(Filtered(sheet));
    assert Area(2400.0, 1200.0) == 2880000.0;
    AnalyzeAppend([], LwPolyline(sheet, true));
    assert [] + [LwPolyline(sheet, true)] == [LwPolyline(sheet, true)];
  }

  const Hole: CircleInfo := CircleInfo(Point(100.0, 200.0), 10.0)

  /** The tool changes with the default parameters. */
  const DrillToolLines: seq<Line> := [ToolSelect(2), SpindleOn(18000), LengthComp(2), RetractSafe(48)]
  const CutterToolLines: seq<Line> := [ToolSelect(1), SpindleOn(18000), LengthComp(1), RetractSafe(48)]

  const HoleCycleLines: seq<Line> := [Rapid(100.0, 200.0), Plunge(7.0, 3000), RetractSafe(48)]

  /** The cut of the closed square: the corners in order, then the closing move without F word. */
  const SquareCycleLines: seq<Line> :=
    [Rapid(0.0, 0.0), Plunge(18.0, 3000),
     Feed(100.0, 0.0, Some(12000)), Feed(100.0, 100.0, Some(12000)), Feed(0.0, 100.0, Some(12000)),
     Feed(0.0, 0.0, None), RetractSafe(48)]

  lemma HoleBlock()
    ensures DrillBlock(Defaults, [Hole]) == DrillToolLines + HoleCycleLines
  {
    assert [Hole][..0] == [];
    assert DrillCycles(Defaults, [Hole]) == DrillHole(Defaults, 100.0, 200.0, 7.0);
  }

  lemma SquareCut()
    ensures CutPolyline(Defaults, Square, true) == SquareCycleLines
  {
    var p := Defaults;
    var cut := CutPolyline(p, Square, true);
    CutPolylineShape(p, Square, true);
    assert cut[2] == Feed(Square[1].x, Square[1].y, Some(p.feedRate));
    assert cut[3] == Feed(Square[2].x, Square[2].y, Some(p.feedRate));
    assert cut[4] == Feed(Square[3].x, Square[3].y, Some(p.feedRate));
  }

  lemma SquareBlock()
    ensures CutBlock(Defaults, [PolylineInfo(Square, true, 10000.0)]) == CutterToolLines + SquareCycleLines
  {
    var pl := PolylineInfo(Square, true, 10000.0);
    assert [pl][..0] == [];
    assert CutCycles(Defaults, [pl]) == CutPolyline(Defaults, Square, true);
    SquareCut();
  }

  /** One hole and one closed square: 22 lines, drilling first. */
  lemma HoleAndSquareProgram()
    ensures var prog := Program(Defaults, [Hole], [PolylineInfo(Square, true, 10000.0)]);
      prog == [WorkOffset] + (DrillToolLines + HoleCycleLines) + (CutterToolLines + SquareCycleLines)
        + [SpindleStop, Park, ProgramEnd] &&
      |prog| == 22
  {
    var first, second := ProgramSplit(Defaults, [Hole], [PolylineInfo(Square, true, 10000.0)]);
    HoleBlock();
    SquareBlock();
  }

  /** The numbers of the one-hole block, as `str` prints them. */
  lemma NumberTexts()
    ensures IntToString(2) == "2" && IntToString(48) == "48"
    ensures IntToString(3000) == "3000" && IntToString(18000) == "18000"
  {
    assert NatToString(300) == "300";
    assert NatToString(1800) == "1800";
  }

  lemma CoordinateTexts()
    ensures Fixed1(100.0) == "100.0" && Fixed1(200.0) == "200.0" && Fixed1(7.0) == "7.0"
  {
    WholeNumberFixed1(100);
    WholeNumberFixed1(200);
    WholeNumberFixed1(7);
    assert NatToString(100) == "100" && NatToString(200) == "200";
  }

  lemma ToolChangeTexts()
    ensures Render(ToolSelect(2)) == "M6 T2" && Render(SpindleOn(18000)) == "M03 S18000"
  {
    NumberTexts();
  }

  lemma RetractTexts()
    ensures Render(LengthComp(2)) == "G43 H2" && Render(RetractSafe(48)) == "G00 Z48.0"
  {
    NumberTexts();
  }

  lemma RapidText()
    ensures Render(Rapid(100.0, 200.0)) == "G00 X100.0 Y200.0"
  {
    CoordinateTexts();
    assert Render(Rapid(100.0, 200.0)) == "G00 X" + "100.0" + " Y" + "200.0";
  }

  lemma PlungeText()
    ensures Render(Plunge(7.0, 3000)) == "G01 Z7.0 F3000"
  {
    NumberTexts();
    CoordinateTexts();
    assert Render(Plunge(7.0, 3000)) == "G01 Z" + "7.0" + " F" + "3000";
  }

  /** The text of the drilling block for one hole. */
  lemma HoleBlockText()
    ensures RenderAll(DrillBlock(Defaults, [Hole])) ==
      ["M6 T2", "M03 S18000", "G43 H2", "G00 Z48.0", "G00 X100.0 Y200.0", "G01 Z7.0 F3000", "G00 Z48.0"]
  {
    HoleBlock();
    assert DrillToolLines + HoleCycleLines ==
      [ToolSelect(2), SpindleOn(18000), LengthComp(2), RetractSafe(48), Rapid(100.0, 200.0), Plunge(7.0, 3000), RetractSafe(48)];
    ToolChangeTexts();
    RetractTexts();
    RapidText();
    PlungeText();
  }
}
