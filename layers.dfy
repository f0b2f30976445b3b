/**
 * What each layer of the map holds after it is rebuilt, as functions of the
 * graph, the bounds and the scale: region labels, gate and bridge lines,
 * system boxes and names, the live-data glyphs and the range-query overlay.
 */
module Layers {
  import opened Galaxy
  import opened Projection
  import opened Metrics
  import opened LinkDedup
  import opened Scene

  /** Offset of a label from its anchor, in both directions. */
  const TextOffset: real := 5.0

  /** The distance unit the range query works in (one light year, in metres). */
  const LightYear: real := 9460730472580800.0

  /** The range query's reach, in light years. */
  const MaxRange: real := 7.0

  /** A glyph is drawn only for a data scale strictly above this. */
  const DataThreshold: real := 3.0

  function ProjectSystem(sys: StarSystem, b: Bounds, scale: real): Point {
    Project(sys.actualX, sys.actualZ, b, scale)
  }

  // ---------------------------------------------------------------- region labels

  function RegionLabel(mr: MapRegion, b: Bounds, scale: real): Entry {
    var p := Project(mr.regionX, mr.regionZ, b, scale);
    Entry([Text(mr.name, Point(p.x + TextOffset, p.y + TextOffset), 60.0, Black, true)], Name(mr.name))
  }

  /** One centred label per region, in region order, mapped to the region's name. */
  function RegionLabels(regions: seq<MapRegion>, b: Bounds, scale: real): (r: seq<Entry>)
    ensures |r| == |regions|
  {
    if |regions| == 0 then []
    else RegionLabels(regions[..|regions| - 1], b, scale) + [RegionLabel(regions[|regions| - 1], b, scale)]
  }

  /** Label `k` is the label of region `k`. */
  lemma {:induction false} RegionLabelsAt(regions: seq<MapRegion>, b: Bounds, scale: real, k: int)
    requires 0 <= k < |regions|
    ensures RegionLabels(regions, b, scale)[k] == RegionLabel(regions[k], b, scale)
  {
    if k < |regions| - 1 {
      var init := regions[..|regions| - 1];
      RegionLabelsAt(init, b, scale, k);
    }
  }

  // ---------------------------------------------------------------- gate and bridge lines

  /** A gate is muted when it leaves its region or its constellation. */
  function GateColour(g: GateLink): (c: Brush)
    ensures c == Gray || c == LightGray
  {
    if g.from.region != g.to.region || g.from.constellationID != g.to.constellationID then LightGray else Gray
  }

  /** The colour does not depend on which end the cached link starts from. */
  lemma GateColourIgnoresOrientation(g: GateLink)
    ensures GateColour(GateLink(g.to, g.from)) == GateColour(g)
  {
  }

  /** A gate inside one constellation of one region is drawn in the normal colour, any other gate muted. */
  lemma GateColourByMembership(g: GateLink)
    ensures GateColour(g) == Gray <==> g.from.region == g.to.region && g.from.constellationID == g.to.constellationID
    ensures GateColour(g) == LightGray <==> g.from.region != g.to.region || g.from.constellationID != g.to.constellationID
  {
  }

  function GateLine(g: GateLink, b: Bounds, scale: real): Entry {
    Entry([Line(ProjectSystem(g.from, b, scale), ProjectSystem(g.to, b, scale), GateColour(g), false)], Name("link"))
  }

  /** One solid line per cached link, in cache order. */
  function GateLines(cache: seq<GateLink>, b: Bounds, scale: real): (r: seq<Entry>)
    ensures |r| == |cache|
  {
    if |cache| == 0 then []
    else GateLines(cache[..|cache| - 1], b, scale) + [GateLine(cache[|cache| - 1], b, scale)]
  }

  /** Line `k` joins the two ends of cached link `k`. */
  lemma {:induction false} GateLinesAt(cache: seq<GateLink>, b: Bounds, scale: real, k: int)
    requires 0 <= k < |cache|
    ensures GateLines(cache, b, scale)[k] == GateLine(cache[k], b, scale)
  {
    if k < |cache| - 1 {
      var init := cache[..|cache| - 1];
      GateLinesAt(init, b, scale, k);
    }
  }

  function BridgeLine(jb: JumpBridge, systems: seq<StarSystem>, b: Bounds, scale: real): Entry
    requires HasSystem(systems, jb.from) && HasSystem(systems, jb.to)
  {
    var from := GetEveSystem(systems, jb.from).value;
    var to := GetEveSystem(systems, jb.to).value;
    Entry([Line(ProjectSystem(from, b, scale), ProjectSystem(to, b, scale), Blue, true)], Name("JB"))
  }

  /** One dotted line per jump bridge, in bridge order, not deduplicated against gates. */
  function BridgeLines(bridges: seq<JumpBridge>, systems: seq<StarSystem>, b: Bounds, scale: real): (r: seq<Entry>)
    requires BridgesResolve(bridges, systems)
    ensures |r| == |bridges|
  {
    if |bridges| == 0 then []
    else
      assert bridges[|bridges| - 1] in bridges;
      BridgeLines(bridges[..|bridges| - 1], systems, b, scale) + [BridgeLine(bridges[|bridges| - 1], systems, b, scale)]
  }

  /** Line `k` joins the two ends of jump bridge `k`. */
  lemma {:induction false} BridgeLinesAt(bridges: seq<JumpBridge>, systems: seq<StarSystem>, b: Bounds, scale: real, k: int)
    requires BridgesResolve(bridges, systems)
    requires 0 <= k < |bridges|
    ensures BridgeLines(bridges, systems, b, scale)[k] == BridgeLine(bridges[k], systems, b, scale)
  {
    if k < |bridges| - 1 {
      var init := bridges[..|bridges| - 1];
    assert forall jb :: jb in init ==> jb in bridges;
      BridgeLinesAt(init, systems, b, scale, k);
    }
  }

  // ---------------------------------------------------------------- systems and names

  function SystemBox(sys: StarSystem, b: Bounds, scale: real): Entry {
    var p := ProjectSystem(sys, b, scale);
    Entry([Rectangle(p.x - 3.0, p.y - 3.0, 6.0, 6.0, Black)], SystemRef(sys))
  }

  /** One 6 x 6 box per system centred on its projection, mapped back to the system. */
  function SystemBoxes(systems: seq<StarSystem>, b: Bounds, scale: real): (r: seq<Entry>)
    ensures |r| == |systems|
  {
    if |systems| == 0 then []
    else SystemBoxes(systems[..|systems| - 1], b, scale) + [SystemBox(systems[|systems| - 1], b, scale)]
  }

  /** Box `k` is drawn for, and picks back, system `k`. */
  lemma {:induction false} SystemBoxesAt(systems: seq<StarSystem>, b: Bounds, scale: real, k: int)
    requires 0 <= k < |systems|
    ensures SystemBoxes(systems, b, scale)[k] == SystemBox(systems[k], b, scale)
  {
    if k < |systems| - 1 {
      var init := systems[..|systems| - 1];
      SystemBoxesAt(init, b, scale, k);
    }
  }

  function SystemName(sys: StarSystem, b: Bounds, scale: real): Entry {
    var p := ProjectSystem(sys, b, scale);
    Entry([Text(sys.name, Point(p.x + TextOffset, p.y + TextOffset), 6.0, DarkGray, false)], Name(sys.name))
  }

  /** One name label per system, mapped to the system's name. */
  function SystemNames(systems: seq<StarSystem>, b: Bounds, scale: real): (r: seq<Entry>)
    ensures |r| == |systems|
  {
    if |systems| == 0 then []
    else SystemNames(systems[..|systems| - 1], b, scale) + [SystemName(systems[|systems| - 1], b, scale)]
  }

  /** Name label `k` is the name of system `k`. */
  lemma {:induction false} SystemNamesAt(systems: seq<StarSystem>, b: Bounds, scale: real, k: int)
    requires 0 <= k < |systems|
    ensures SystemNames(systems, b, scale)[k] == SystemName(systems[k], b, scale)
  {
    if k < |systems| - 1 {
      var init := systems[..|systems| - 1];
      SystemNamesAt(init, b, scale, k);
    }
  }

  /** The centre of a rectangle. */
  function RectCentre(d: Shape): Point
    requires d.Rectangle?
  {
    Point(d.left + d.width / 2.0, d.top + d.height / 2.0)
  }

  /**
   * Everything drawn for one system hangs on its projected point: the box is
   * centred there, the name label sits one text offset from it, and the range
   * circle, the picked-system marker and an in-range marker are centred there
   * too, so a range marker covers the box it marks.
   */
  lemma SystemGlyphsShareCentre(sys: StarSystem, b: Bounds, scale: real)
    ensures var p := ProjectSystem(sys, b, scale);
      var circle := RangeCircle(sys, b, scale).drawing;
      && RectCentre(SystemBox(sys, b, scale).drawing[0]) == p
      && SystemName(sys, b, scale).drawing[0].origin == Point(p.x + TextOffset, p.y + TextOffset)
      && circle[0].centre == p && RectCentre(circle[1]) == p
      && RectCentre(RangeMarker(sys, b, scale).drawing[0]) == p
  {
  }

  // ---------------------------------------------------------------- live-data overlay

  predicate ShowsData(sys: StarSystem, f: MetricFlags, overlayScale: real) {
    DataScale(sys, f, overlayScale) > DataThreshold
  }

  /** A filled circle of radius DataScale centred on the system. */
  function DataGlyph(sys: StarSystem, f: MetricFlags, overlayScale: real, b: Bounds, scale: real): Entry {
    var ds := DataScale(sys, f, overlayScale);
    Entry([Ellipse(ProjectSystem(sys, b, scale), ds, ds, LightPink)], Name("DATA"))
  }

  /** The overlay layer: the glyphs of the systems above the threshold, in system order. */
  function DataGlyphs(systems: seq<StarSystem>, f: MetricFlags, overlayScale: real, b: Bounds, scale: real): (r: seq<Entry>)
    ensures |r| <= |systems|
  {
    if |systems| == 0 then []
    else
      var last := systems[|systems| - 1];
      DataGlyphs(systems[..|systems| - 1], f, overlayScale, b, scale) +
        (if ShowsData(last, f, overlayScale) then [DataGlyph(last, f, overlayScale, b, scale)] else [])
  }

  /** The overlay of a concatenation is the concatenation of the overlays: one glyph or none per system. */
  lemma {:induction false} DataGlyphsConcat(s: seq<StarSystem>, t: seq<StarSystem>, f: MetricFlags, overlayScale: real, b: Bounds, scale: real)
    ensures DataGlyphs(s + t, f, overlayScale, b, scale) ==
      DataGlyphs(s, f, overlayScale, b, scale) + DataGlyphs(t, f, overlayScale, b, scale)
    decreases |t|
  {
    if |t| == 0 {
      assert s + t == s;
    } else {
      var t' := t[..|t| - 1];
      assert (s + t)[..|s + t| - 1] == s + t';
      DataGlyphsConcat(s, t', f, overlayScale, b, scale);
    }
  }

  /** A single system contributes its glyph exactly when its data scale is strictly above 3. */
  lemma DataGlyphOfOneSystem(sys: StarSystem, f: MetricFlags, overlayScale: real, b: Bounds, scale: real)
    ensures DataGlyphs([sys], f, overlayScale, b, scale) ==
      if DataScale(sys, f, overlayScale) > 3.0 then [DataGlyph(sys, f, overlayScale, b, scale)] else []
  {

  }

  /** Every system above the threshold has its glyph in the overlay. */
  lemma {:induction false} DataGlyphsComplete(systems: seq<StarSystem>, f: MetricFlags, overlayScale: real, b: Bounds, scale: real)
    ensures forall sys :: sys in systems && ShowsData(sys, f, overlayScale) ==>
      DataGlyph(sys, f, overlayScale, b, scale) in DataGlyphs(systems, f, overlayScale, b, scale)
  {
    if |systems| > 0 {
      var init := systems[..|systems| - 1];
      DataGlyphsComplete(init, f, overlayScale, b, scale);
      assert systems == init + [systems[|systems| - 1]];
    }
  }

  /** Every glyph in the overlay belongs to a system above the threshold. */
  lemma {:induction false} DataGlyphsSound(systems: seq<StarSystem>, f: MetricFlags, overlayScale: real, b: Bounds, scale: real)
    ensures forall e :: e in DataGlyphs(systems, f, overlayScale, b, scale) ==>
      exists sys :: sys in systems && ShowsData(sys, f, overlayScale) && e == DataGlyph(sys, f, overlayScale, b, scale)
  {
    if |systems| > 0 {
      var init := systems[..|systems| - 1];
      DataGlyphsSound(init, f, overlayScale, b, scale);
      assert systems == init + [systems[|systems| - 1]];
      assert forall sys :: sys in init ==> sys in systems;
    }
  }

  /** With no metric selected every data scale is 0, so the overlay is empty. */
  lemma {:induction false} NoMetricNoGlyphs(systems: seq<StarSystem>, overlayScale: real, b: Bounds, scale: real)
    ensures DataGlyphs(systems, AllOff, overlayScale, b, scale) == []
  {
    if |systems| > 0 {
      NoMetricNoGlyphs(systems[..|systems| - 1], overlayScale, b, scale);
    }
  }

  // ---------------------------------------------------------------- range query

  /** A distance, converted to light years, strictly between 0 and the reach. */
  predicate InRange(distance: real) {
    var ly := distance / LightYear;
    ly < MaxRange && ly > 0.0
  }

  /** The reach circle (radius: 7 light years at the current scale) plus a marker on the picked system. */
  function RangeCircle(sys: StarSystem, b: Bounds, scale: real): Entry {
    var p := ProjectSystem(sys, b, scale);
    var radius := LightYear * MaxRange * scale;
    Entry([Ellipse(p, radius, radius, WhiteSmoke), Rectangle(p.x - 5.0, p.y - 5.0, 10.0, 10.0, Purple)], Name("Sphere"))
  }

  function RangeMarker(es: StarSystem, b: Bounds, scale: real): Entry {
    var p := ProjectSystem(es, b, scale);
    Entry([Rectangle(p.x - 5.0, p.y - 5.0, 10.0, 10.0, CornflowerBlue)], Name("SysH"))
  }

  /** One marker per system whose distance from `sys` is in range, in system order. */
  function RangeMarkers(sys: StarSystem, systems: seq<StarSystem>, range: (string, string) -> real, b: Bounds, scale: real): (r: seq<Entry>)
    ensures |r| <= |systems|
  {
    if |systems| == 0 then []
    else
      var es := systems[|systems| - 1];
      RangeMarkers(sys, systems[..|systems| - 1], range, b, scale) +
        (if InRange(range(sys.name, es.name)) then [RangeMarker(es, b, scale)] else [])
  }

  /** The range layer after a pick: the circle first, then the markers. */
  function RangeLayer(sys: StarSystem, systems: seq<StarSystem>, range: (string, string) -> real, b: Bounds, scale: real): (r: seq<Entry>)
    ensures |r| >= 1 && r[0] == RangeCircle(sys, b, scale)
    ensures r[1..] == RangeMarkers(sys, systems, range, b, scale)
  {
    [RangeCircle(sys, b, scale)] + RangeMarkers(sys, systems, range, b, scale)
  }

  /** Every system in range of the picked one has its marker. */
  lemma {:induction false} RangeMarkersComplete(sys: StarSystem, systems: seq<StarSystem>, range: (string, string) -> real, b: Bounds, scale: real)
    ensures forall es :: es in systems && InRange(range(sys.name, es.name)) ==>
      RangeMarker(es, b, scale) in RangeMarkers(sys, systems, range, b, scale)
  {
    if |systems| > 0 {
      var init := systems[..|systems| - 1];
      RangeMarkersComplete(sys, init, range, b, scale);
      assert systems == init + [systems[|systems| - 1]];
    }
  }

  /** Every marker belongs to a system in range: at distance 0 (the picked system itself) or 7 light years or more, none. */
  lemma {:induction false} RangeMarkersSound(sys: StarSystem, systems: seq<StarSystem>, range: (string, string) -> real, b: Bounds, scale: real)
    ensures forall e :: e in RangeMarkers(sys, systems, range, b, scale) ==>
      exists es :: es in systems && InRange(range(sys.name, es.name)) && e == RangeMarker(es, b, scale)
  {
    if |systems| > 0 {
      var init := systems[..|systems| - 1];
      RangeMarkersSound(sys, init, range, b, scale);
      assert systems == init + [systems[|systems| - 1]];
      assert forall es :: es in init ==> es in systems;
    }
  }

  /**
   * With the picked system at distance 0 from itself, every marker belongs to
   * some other system in range: the picked system gets no marker of its own.
   */
  lemma NoMarkerForPickedSystem(sys: StarSystem, systems: seq<StarSystem>, range: (string, string) -> real, b: Bounds, scale: real)
    requires range(sys.name, sys.name) == 0.0
    ensures forall e :: e in RangeMarkers(sys, systems, range, b, scale) ==>
      exists es :: es in systems && es.name != sys.name && InRange(range(sys.name, es.name)) && e == RangeMarker(es, b, scale)
  {
    RangeMarkersSound(sys, systems, range, b, scale);
    forall e | e in RangeMarkers(sys, systems, range, b, scale)
      ensures exists es :: es in systems && es.name != sys.name && InRange(range(sys.name, es.name)) && e == RangeMarker(es, b, scale)
    {
      var es :| es in systems && InRange(range(sys.name, es.name)) && e == RangeMarker(es, b, scale);
      assert es.name != sys.name;
    }
  }
}
