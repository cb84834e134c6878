/**
 * `DXFAnalyzer.analyze_file`: one forward pass over the model-space entities
 * of a drawing that keeps at most two part outlines, at most four drill
 * holes and every in-envelope text, each list in document order.
 */
module Analyzer {
  import opened Wrappers
  import opened Geometry

  /** A model-space entity as the drawing reader delivers it. */
  datatype Entity =
    | LwPolyline(vertices: seq<Point>, closed: bool)
    | Circle(center: Point, radius: real)
    | Text(insert: Point, text: string)
    /** Any other entity type (LINE, ARC, MTEXT, ...); the reader never gives
        one of the three types above this case, so `kind` is never
        "LWPOLYLINE", "CIRCLE" or "TEXT". */
    | Other(kind: string)

  function DxfType(e: Entity): string {
    match e
    case LwPolyline(_, _) => "LWPOLYLINE"
    case Circle(_, _) => "CIRCLE"
    case Text(_, _) => "TEXT"
    case Other(kind) => kind
  }

  /** The record appended to `entities` for every entity. */
  datatype EntityInfo = EntityInfo(dxftype: string)

  /** An accepted polyline: its in-envelope points, its closed flag, and its box area (never read again). */
  datatype PolylineInfo = PolylineInfo(points: seq<Point>, closed: bool, area: real)

  datatype CircleInfo = CircleInfo(center: Point, radius: real)

  datatype TextInfo = TextInfo(text: string, position: Point)

  /** The four lists of the analyzer. */
  datatype Analysis = Analysis(
    entities: seq<EntityInfo>,
    polylines: seq<PolylineInfo>,
    circles: seq<CircleInfo>,
    texts: seq<TextInfo>)

  /** The counts `analyze_file` reports on success. */
  datatype AnalysisSummary = AnalysisSummary(totalEntities: nat, polylines: nat, circles: nat, texts: nat)

  const MaxPolylines: nat := 2
  const MaxCircles: nat := 4
  const MinVertices: nat := 3
  const MinPartSize: real := 50.0
  const SheetWidth: real := 1000.0
  const SheetHeight: real := 2000.0
  const MinRadius: real := 5.0
  const MaxRadius: real := 50.0

  /** A box larger than 1000 by 2000 is taken to be the outline of the whole sheet. */
  predicate IsSheetSized(pts: seq<Point>)
    requires |pts| > 0
  {
    Width(pts) > SheetWidth && Height(pts) > SheetHeight
  }

  /** The test a filtered polyline must pass to be cut. */
  predicate IsPartOutline(pts: seq<Point>) {
    |pts| >= MinVertices && !IsSheetSized(pts) && Width(pts) > MinPartSize && Height(pts) > MinPartSize
  }

  /** The test a circle must pass to be drilled. */
  predicate IsDrillable(center: Point, radius: real) {
    InEnvelope(center) && MinRadius <= radius <= MaxRadius
  }

  function Outline(pts: seq<Point>, closed: bool): PolylineInfo
    requires |pts| > 0
  {
    PolylineInfo(pts, closed, Area(Width(pts), Height(pts)))
  }

  /** `width * height`, recorded for an accepted polyline and never read again. */
  function Area(width: real, height: real): real {
    width * height
  }

  /** One iteration of the entity loop. */
  function Step(a: Analysis, e: Entity): Analysis {
    var a' := match e
      case LwPolyline(vertices, closed) =>
        var pts := Filtered(vertices);
        if IsPartOutline(pts) && |a.polylines| < MaxPolylines
        then a.(polylines := a.polylines + [Outline(pts, closed)]) else a
      case Circle(center, radius) =>
        if IsDrillable(center, radius) && |a.circles| < MaxCircles
        then a.(circles := a.circles + [CircleInfo(center, radius)]) else a
      case Text(insert, text) =>
        if InEnvelope(insert) then a.(texts := a.texts + [TextInfo(text, insert)]) else a
      case Other(_) => a;
    a'.(entities := a'.entities + [EntityInfo(DxfType(e))])
  }

  /** The four lists after `analyze_file` has cleared them and run the loop over msp. */
  function Analyze(msp: seq<Entity>): Analysis
    decreases |msp|
  {
    if msp == [] then Analysis([], [], [], [])
    else Step(Analyze(msp[..|msp| - 1]), msp[|msp| - 1])
  }

  function Summary(a: Analysis): AnalysisSummary {
    AnalysisSummary(|a.entities|, |a.polylines|, |a.circles|, |a.texts|)
  }

  // ---------------------------------------------------------------------------
  // Reference definitions: every qualifying entity, with no cap.

  function PartOutlines(msp: seq<Entity>): seq<PolylineInfo>
    decreases |msp|
  {
    if msp == [] then []
    else
      var e := msp[|msp| - 1];
      PartOutlines(msp[..|msp| - 1]) +
        (if e.LwPolyline? && IsPartOutline(Filtered(e.vertices)) then [Outline(Filtered(e.vertices), e.closed)] else [])
  }

  function DrillableHoles(msp: seq<Entity>): seq<CircleInfo>
    decreases |msp|
  {
    if msp == [] then []
    else
      var e := msp[|msp| - 1];
      DrillableHoles(msp[..|msp| - 1]) +
        (if e.Circle? && IsDrillable(e.center, e.radius) then [CircleInfo(e.center, e.radius)] else [])
  }

  function PlacedTexts(msp: seq<Entity>): seq<TextInfo>
    decreases |msp|
  {
    if msp == [] then []
    else
      var e := msp[|msp| - 1];
      PlacedTexts(msp[..|msp| - 1]) + (if e.Text? && InEnvelope(e.insert) then [TextInfo(e.text, e.insert)] else [])
  }

  /** The first n elements of s (all of s when it is shorter). */
  function Take<T>(s: seq<T>, n: nat): (r: seq<T>)
    ensures |r| <= n && |r| <= |s| && r == s[..|r|]
    ensures |s| >= n ==> |r| == n
  {
    if |s| <= n then s else s[..n]
  }

  /** What one iteration does to each list. */
  lemma StepEffect(a: Analysis, e: Entity)
    ensures Step(a, e).polylines ==
      if e.LwPolyline? && IsPartOutline(Filtered(e.vertices)) && |a.polylines| < MaxPolylines
      then a.polylines + [Outline(Filtered(e.vertices), e.closed)] else a.polylines
    ensures Step(a, e).circles ==
      if e.Circle? && IsDrillable(e.center, e.radius) && |a.circles| < MaxCircles
      then a.circles + [CircleInfo(e.center, e.radius)] else a.circles
    ensures Step(a, e).texts ==
      if e.Text? && InEnvelope(e.insert) then a.texts + [TextInfo(e.text, e.insert)] else a.texts
    ensures Step(a, e).entities == a.entities + [EntityInfo(DxfType(e))]
  {
  }

  lemma TakeExtend<T>(s: seq<T>, x: T, n: nat)
    ensures Take(s + [x], n) == if |Take(s, n)| < n then Take(s, n) + [x] else Take(s, n)
  {
    if |s| >= n {
      assert (s + [x])[..n] == s[..n];
    }
  }

  /**
   * Selection is a greedy prefix in document order: the polylines are the
   * first two part outlines and the circles the first four drillable holes,
   * whatever their areas; the texts are all in-envelope texts.
   */
  lemma {:induction false} AnalyzeIsGreedyPrefix(msp: seq<Entity>)
    ensures Analyze(msp).polylines == Take(PartOutlines(msp), MaxPolylines)
    ensures Analyze(msp).circles == Take(DrillableHoles(msp), MaxCircles)
    ensures Analyze(msp).texts == PlacedTexts(msp)
    decreases |msp|
  {
    if msp != [] {
      var init, e := msp[..|msp| - 1], msp[|msp| - 1];
      AnalyzeIsGreedyPrefix(init);
      StepEffect(Analyze(init), e);
      if e.LwPolyline? && IsPartOutline(Filtered(e.vertices)) {
        TakeExtend(PartOutlines(init), Outline(Filtered(e.vertices), e.closed), MaxPolylines);
      }
      if e.Circle? && IsDrillable(e.center, e.radius) {
        TakeExtend(DrillableHoles(init), CircleInfo(e.center, e.radius), MaxCircles);
      }
    }
  }

  /** `entities` receives one record per model-space entity, of its type, in order. */
  lemma {:induction false} OneRecordPerEntity(msp: seq<Entity>)
    ensures |Analyze(msp).entities| == |msp|
    ensures forall i :: 0 <= i < |msp| ==> Analyze(msp).entities[i] == EntityInfo(DxfType(msp[i]))
    decreases |msp|
  {
    if msp != [] {
      var init := msp[..|msp| - 1];
      OneRecordPerEntity(init);
      StepEffect(Analyze(init), msp[|msp| - 1]);
      assert forall i :: 0 <= i < |msp| - 1 ==> msp[i] == init[i];
    }
  }

  lemma {:induction false} PartOutlinesQualify(msp: seq<Entity>)
    ensures forall k :: 0 <= k < |PartOutlines(msp)| ==>
      var pl := PartOutlines(msp)[k];
      IsPartOutline(pl.points) &&
      exists i :: 0 <= i < |msp| && msp[i].LwPolyline? &&
        pl.points == Filtered(msp[i].vertices) && pl.closed == msp[i].closed
    decreases |msp|
  {
    if msp != [] {
      var init := msp[..|msp| - 1];
      PartOutlinesQualify(init);
      assert forall i :: 0 <= i < |msp| - 1 ==> msp[i] == init[i];
    }
  }

  lemma {:induction false} DrillableHolesQualify(msp: seq<Entity>)
    ensures forall k :: 0 <= k < |DrillableHoles(msp)| ==>
      var c := DrillableHoles(msp)[k];
      IsDrillable(c.center, c.radius) && exists i :: 0 <= i < |msp| && msp[i] == Circle(c.center, c.radius)
    decreases |msp|
  {
    if msp != [] {
      var init := msp[..|msp| - 1];
      DrillableHolesQualify(init);
      assert forall i :: 0 <= i < |msp| - 1 ==> msp[i] == init[i];
    }
  }

  lemma {:induction false} PlacedTextsQualify(msp: seq<Entity>)
    ensures forall k :: 0 <= k < |PlacedTexts(msp)| ==>
      var t := PlacedTexts(msp)[k];
      InEnvelope(t.position) && exists i :: 0 <= i < |msp| && msp[i] == Text(t.position, t.text)
    decreases |msp|
  {
    if msp != [] {
      var init := msp[..|msp| - 1];
      PlacedTextsQualify(init);
      assert forall i :: 0 <= i < |msp| - 1 ==> msp[i] == init[i];
    }
  }

  /**
   * What `analyze_file` accepts: at most two polylines, each with at least
   * three points all inside the envelope, a box larger than 50 by 50 and not
   * sheet-sized, and the closed flag of the polyline it came from; at most
   * four circles, each drillable; texts only at in-envelope positions.
   */
  lemma AcceptedGeometryIsMachinable(msp: seq<Entity>)
    ensures var a := Analyze(msp);
      |a.polylines| <= MaxPolylines && |a.circles| <= MaxCircles &&
      (forall k :: 0 <= k < |a.polylines| ==>
        var pl := a.polylines[k];
        |pl.points| >= MinVertices && AllInEnvelope(pl.points) &&
        Width(pl.points) > MinPartSize && Height(pl.points) > MinPartSize && !IsSheetSized(pl.points) &&
        exists i :: 0 <= i < |msp| && msp[i].LwPolyline? &&
          pl.points == Filtered(msp[i].vertices) && pl.closed == msp[i].closed) &&
      (forall k :: 0 <= k < |a.circles| ==>
        var c := a.circles[k];
        InEnvelope(c.center) && MinRadius <= c.radius <= MaxRadius &&
        exists i :: 0 <= i < |msp| && msp[i] == Circle(c.center, c.radius)) &&
      (forall k :: 0 <= k < |a.texts| ==>
        InEnvelope(a.texts[k].position) &&
        exists i :: 0 <= i < |msp| && msp[i] == Text(a.texts[k].position, a.texts[k].text))
  {
    AnalyzeIsGreedyPrefix(msp);
    PartOutlinesQualify(msp);
    DrillableHolesQualify(msp);
    PlacedTextsQualify(msp);
    var a := Analyze(msp);
    forall k | 0 <= k < |a.polylines|
      ensures AllInEnvelope(a.polylines[k].points)
    {
      assert a.polylines[k] == PartOutlines(msp)[k];
      var i :| 0 <= i < |msp| && msp[i].LwPolyline? && a.polylines[k].points == Filtered(msp[i].vertices);
      FilteredIsExactlyTheEnvelopePoints(msp[i].vertices);
    }
  }

  /** The counts reported: one entity per model-space entity, and the caps. */
  lemma SummaryCounts(msp: seq<Entity>)
    ensures var s := Summary(Analyze(msp));
      s.totalEntities == |msp| && s.polylines <= MaxPolylines && s.circles <= MaxCircles &&
      s.polylines == (if |PartOutlines(msp)| < MaxPolylines then |PartOutlines(msp)| else MaxPolylines) &&
      s.circles == (if |DrillableHoles(msp)| < MaxCircles then |DrillableHoles(msp)| else MaxCircles)
  {
    AnalyzeIsGreedyPrefix(msp);
    OneRecordPerEntity(msp);
  }

  /** The state `DXFAnalyzer` keeps between calls. */
  class DXFAnalyzer {
    var entities: seq<EntityInfo>
    var polylines: seq<PolylineInfo>
    var circles: seq<CircleInfo>
    var texts: seq<TextInfo>

    constructor ()
      ensures entities == [] && polylines == [] && circles == [] && texts == []
    {
      entities, polylines, circles, texts := [], [], [], [];
    }

    function State(): Analysis
      reads this
    {
      Analysis(entities, polylines, circles, texts)
    }

    /**
     * `analyze_file`: doc is what the drawing reader delivered for the file,
     * its model-space entities or the reader's error. On an error the lists
     * are left as they were; otherwise they are cleared and rebuilt.
     */
    method AnalyzeFile(doc: Result<seq<Entity>, string>) returns (result: Result<AnalysisSummary, string>)
      modifies this
      ensures doc.Failure? ==> result == Failure(doc.error) && State() == old(State())
      ensures doc.Success? ==> State() == Analyze(doc.value) && result == Success(Summary(State()))
    {
      if doc.Failure? {
        return Failure(doc.error);
      }
      var msp := doc.value;
      entities, polylines, circles, texts := [], [], [], [];
      var i := 0;
      while i < |msp|
        invariant 0 <= i <= |msp|
        invariant State() == Analyze(msp[..i])
      {
        assert msp[..i + 1][..i] == msp[..i];
        Visit(msp[i]);
        i := i + 1;
      }
      assert msp[..|msp|] == msp;
      result := Success(AnalysisSummary(|entities|, |polylines|, |circles|, |texts|));
    }

    /**
     * The body of the entity loop of `analyze_file`. The source filters the
     * vertices inline, with the same loop and test as `filter_geometry`
     * (which nothing calls); the model calls `FilterGeometry` for it.
     */
    method Visit(entity: Entity)
      modifies this
      ensures State() == Step(old(State()), entity)
    {
      ghost var before := State();
      StepEffect(before, entity);
      var info := EntityInfo(DxfType(entity));
      match entity {
        case LwPolyline(vertices, closed) =>
          var points := FilterGeometry(vertices);
          if |points| >= MinVertices {
            var width := Width(points);
            var height := Height(points);
            if !(width > SheetWidth && height > SheetHeight) && (width > MinPartSize && height > MinPartSize)
              && |polylines| < MaxPolylines
            {
              polylines := polylines + [PolylineInfo(points, closed, Area(width, height))];
            }
          }
        case Circle(center, radius) =>
          if IsValidCoordinate(center.x, center.y) && MinRadius <= radius <= MaxRadius && |circles| < MaxCircles {
            circles := circles + [CircleInfo(center, radius)];
          }
        case Text(insert, text) =>
          if IsValidCoordinate(insert.x, insert.y) {
            texts := texts + [TextInfo(text, insert)];
          }
        case Other(_) =>
      }
      entities := entities + [info];
    }
  }
}
