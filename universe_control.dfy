/**
 * The map control: the overlay flags and their setters, the one-time scan
 * that builds the link cache and the bounds, the layered redraw, the zoom
 * switch and the range query.
 */
module UniverseMap {
  import opened Wrappers
  import opened Galaxy
  import opened Projection
  import opened Metrics
  import opened LinkDedup
  import opened Sequences
  import opened Scene
  import opened Layers
  import opened LevelOfDetail

  /**
   * The scan made once by Init: walks the systems in provider order, adds a
   * link for each jump no cached link already joins, and grows the bounds
   * from the seeds to take in every system.
   */
  method ScanUniverse(systems: seq<StarSystem>) returns (cache: seq<GateLink>, b: Bounds)
    requires AllJumpsResolve(systems, systems)
    ensures cache == Dedup(DirectedJumps(systems, systems))
    ensures b == Envelope(SeedBounds, systems)
  {
    cache := [];
    b := SeedBounds;
    var i := 0;
    while i < |systems|
      invariant 0 <= i <= |systems|
      invariant AllJumpsResolve(systems[..i], systems)
      invariant cache == Dedup(DirectedJumps(systems[..i], systems))
      invariant b == Envelope(SeedBounds, systems[..i])
    {
      var sys := systems[i];
      DirectedJumpsStep(systems, i, systems);
      cache := ScanJumps(cache, sys, systems, DirectedJumps(systems[..i], systems));
      EnvelopeStep(SeedBounds, systems, i);
      b := GrowBounds(b, sys);
      i := i + 1;
    }
    assert systems[..i] == systems;
  }

  /** The bounds step of the scan: each edge moves out to the system when it lies beyond it. */
  method GrowBounds(b0: Bounds, sys: StarSystem) returns (b: Bounds)
    ensures b == Include(b0, sys)
  {
    b := b0;
    if sys.actualX < b.xMin {
      b := b.(xMin := sys.actualX);
    }
    if sys.actualX > b.xMax {
      b := b.(xMax := sys.actualX);
    }
    if sys.actualZ < b.zMin {
      b := b.(zMin := sys.actualZ);
    }
    if sys.actualZ > b.zMax {
      b := b.(zMax := sys.actualZ);
    }
  }

  /** A new, empty layer; being new, it is none of the visuals in `avoid`. */
  method NewLayer(ghost avoid: seq<VisualHost>) returns (h: VisualHost)
    ensures fresh(h) && h.Valid() && h.entries == [] && h !in avoid
  {
    h := new VisualHost();
  }

  /**
   * The inner loop of the scan: for each jump of `sys`, in list order, looks
   * the target up and adds the link unless a cached link already joins the
   * two systems. `done` is the jump list the incoming cache was built from.
   */
  method ScanJumps(cache0: seq<GateLink>, sys: StarSystem, systems: seq<StarSystem>, ghost done: seq<GateLink>)
    returns (cache: seq<GateLink>)
    requires JumpsResolve(sys, systems)
    requires cache0 == Dedup(done)
    ensures cache == Dedup(done + JumpsOf(sys, sys.jumps, systems))
  {
    cache := cache0;
    assert sys.jumps[..0] == [];
    assert done + JumpsOf(sys, sys.jumps[..0], systems) == done;
    var j := 0;
    while j < |sys.jumps|
      invariant 0 <= j <= |sys.jumps|
      invariant forall u :: u in sys.jumps[..j] ==> HasSystem(systems, u)
      invariant cache == Dedup(done + JumpsOf(sys, sys.jumps[..j], systems))
    {
      var t := sys.jumps[j];
      var to := GetEveSystem(systems, t).value;
      var needsAdd := NeedsAdd(cache, sys, to);
      if needsAdd {
        cache := cache + [GateLink(sys, to)];
      }
      DedupJumpsStep(done, sys, j, systems);
      j := j + 1;
    }
    assert sys.jumps[..j] == sys.jumps;
  }

  // ------------------------------------------------------------ layer drawing

  /** Appends one label per region to the region-name layer. */
  method DrawRegionNames(host: VisualHost, regions: seq<MapRegion>, b: Bounds, scale: real)
    requires host.Valid()
    modifies host
    ensures host.Valid()
    ensures host.entries == old(host.entries) + RegionLabels(regions, b, scale)
  {
    var i := 0;
    while i < |regions|
      invariant 0 <= i <= |regions|
      invariant host.Valid()
      invariant host.entries == old(host.entries) + RegionLabels(regions[..i], b, scale)
    {
      var v := host.AddDrawing(RegionLabel(regions[i], b, scale));
      assert regions[..i + 1][..i] == regions[..i];
      i := i + 1;
    }
    assert regions[..i] == regions;
  }

  /** Appends one line per cached gate link to the link layer. */
  method DrawGateLinks(host: VisualHost, cache: seq<GateLink>, b: Bounds, scale: real)
    requires host.Valid()
    modifies host
    ensures host.Valid()
    ensures host.entries == old(host.entries) + GateLines(cache, b, scale)
  {
    var i := 0;
    while i < |cache|
      invariant 0 <= i <= |cache|
      invariant host.Valid()
      invariant host.entries == old(host.entries) + GateLines(cache[..i], b, scale)
    {
      var v := host.AddDrawing(GateLine(cache[i], b, scale));
      assert cache[..i + 1][..i] == cache[..i];
      i := i + 1;
    }
    assert cache[..i] == cache;
  }

  /** Appends one dotted line per jump bridge to the link layer. */
  method DrawJumpBridges(host: VisualHost, bridges: seq<JumpBridge>, systems: seq<StarSystem>, b: Bounds, scale: real)
    requires host.Valid()
    requires BridgesResolve(bridges, systems)
    modifies host
    ensures host.Valid()
    ensures host.entries == old(host.entries) + BridgeLines(bridges, systems, b, scale)
  {
    var i := 0;
    while i < |bridges|
      invariant 0 <= i <= |bridges|
      invariant host.Valid()
      invariant BridgesResolve(bridges[..i], systems)
      invariant host.entries == old(host.entries) + BridgeLines(bridges[..i], systems, b, scale)
    {
      assert bridges[i] in bridges;
      var v := host.AddDrawing(BridgeLine(bridges[i], systems, b, scale));
      assert bridges[..i + 1][..i] == bridges[..i];
      i := i + 1;
    }
    assert bridges[..i] == bridges;
  }

  /** Appends one box per system to the systems layer and one name per system to the name layer. */
  method DrawSystems(boxes: VisualHost, names: VisualHost, systems: seq<StarSystem>, b: Bounds, scale: real)
    requires boxes != names && boxes.Valid() && names.Valid()
    modifies boxes, names
    ensures boxes.Valid() && names.Valid()
    ensures boxes.entries == old(boxes.entries) + SystemBoxes(systems, b, scale)
    ensures names.entries == old(names.entries) + SystemNames(systems, b, scale)
  {
    var i := 0;
    while i < |systems|
      invariant 0 <= i <= |systems|
      invariant boxes.Valid() && names.Valid()
      invariant boxes.entries == old(boxes.entries) + SystemBoxes(systems[..i], b, scale)
      invariant names.entries == old(names.entries) + SystemNames(systems[..i], b, scale)
    {
      assert systems[..i + 1][..i] == systems[..i];
      assert SystemBoxes(systems[..i + 1], b, scale) == SystemBoxes(systems[..i], b, scale) + [SystemBox(systems[i], b, scale)];
      assert SystemNames(systems[..i + 1], b, scale) == SystemNames(systems[..i], b, scale) + [SystemName(systems[i], b, scale)];
      var shape := boxes.AddDrawing(SystemBox(systems[i], b, scale));
      var text := names.AddDrawing(SystemName(systems[i], b, scale));
      i := i + 1;
    }
    assert systems[..i] == systems;
  }

  /** Appends a glyph to the data layer for each system whose data scale is above 3. */
  method DrawDataOverlay(host: VisualHost, systems: seq<StarSystem>, flags: MetricFlags, overlayScale: real, b: Bounds, scale: real)
    requires host.Valid()
    modifies host
    ensures host.Valid()
    ensures host.entries == old(host.entries) + DataGlyphs(systems, flags, overlayScale, b, scale)
  {
    var i := 0;
    while i < |systems|
      invariant 0 <= i <= |systems|
      invariant host.Valid()
      invariant host.entries == old(host.entries) + DataGlyphs(systems[..i], flags, overlayScale, b, scale)
    {
      var dataScale := DataScale(systems[i], flags, overlayScale);
      if dataScale > DataThreshold {
        var v := host.AddDrawing(DataGlyph(systems[i], flags, overlayScale, b, scale));
      }
      assert systems[..i + 1][..i] == systems[..i];
      i := i + 1;
    }
    assert systems[..i] == systems;
  }

  /**
   * Appends a marker for every system whose distance from `sys`, as `range`
   * reports it in metres, is more than zero and less than seven light years.
   */
  method DrawRangeMarkers(host: VisualHost, sys: StarSystem, systems: seq<StarSystem>, range: (string, string) -> real, b: Bounds, scale: real)
    requires host.Valid()
    modifies host
    ensures host.Valid()
    ensures host.entries == old(host.entries) + RangeMarkers(sys, systems, range, b, scale)
  {
    var i := 0;
    while i < |systems|
      invariant 0 <= i <= |systems|
      invariant host.Valid()
      invariant host.entries == old(host.entries) + RangeMarkers(sys, systems[..i], range, b, scale)
    {
      var distance := range(sys.name, systems[i].name);
      distance := distance / LightYear;
      if distance < MaxRange && distance > 0.0 {
        var v := host.AddDrawing(RangeMarker(systems[i], b, scale));
      }
      assert systems[..i + 1][..i] == systems[..i];
      i := i + 1;
    }
    assert systems[..i] == systems;
  }

  class UniverseControl {
    var esiOverlayScale: real
    var showNPCKills: bool
    var showPodKills: bool
    var showShipKills: bool
    var showShipJumps: bool
    var showJumpBridges: bool

    var universeSysLinksCache: seq<GateLink>
    var universeWidth: real
    var universeDepth: real
    var universeXMin: real
    var universeXMax: real
    var universeScale: real
    var universeZMin: real
    var universeZMax: real

    /** The graph provider, handed over by Init. */
    var em: EveManager

    var vhSystems: VisualHost?
    var vhLinks: VisualHost?
    var vhNames: VisualHost?
    var vhRegionNames: VisualHost?
    var vhRangeSpheres: VisualHost?
    var vhDataSpheres: VisualHost?

    /** The layers currently attached to the main canvas, bottom first. */
    var canvas: seq<VisualHost>

    function Flags(): MetricFlags
      reads this
    {
      MetricFlags(showNPCKills, showPodKills, showShipKills, showShipJumps)
    }

    function UniverseBounds(): Bounds
      reads this`universeXMin, this`universeXMax, this`universeZMin, this`universeZMax
    {
      Bounds(universeXMin, universeXMax, universeZMin, universeZMax)
    }

    /** The six layers exist and are six different hosts. */
    ghost predicate Wired()
      reads this`vhSystems, this`vhLinks, this`vhNames, this`vhRegionNames, this`vhRangeSpheres, this`vhDataSpheres
    {
      && vhSystems != null && vhLinks != null && vhNames != null
      && vhRegionNames != null && vhRangeSpheres != null && vhDataSpheres != null
      && vhSystems != vhLinks && vhSystems != vhNames && vhSystems != vhRegionNames
      && vhSystems != vhRangeSpheres && vhSystems != vhDataSpheres
      && vhLinks != vhNames && vhLinks != vhRegionNames && vhLinks != vhRangeSpheres && vhLinks != vhDataSpheres
      && vhNames != vhRegionNames && vhNames != vhRangeSpheres && vhNames != vhDataSpheres
      && vhRegionNames != vhRangeSpheres && vhRegionNames != vhDataSpheres
      && vhRangeSpheres != vhDataSpheres
    }

    /** Every layer keeps its own children, mapping and entries consistent. */
    ghost predicate LayersValid()
      reads this`vhSystems, this`vhLinks, this`vhNames, this`vhRegionNames, this`vhRangeSpheres, this`vhDataSpheres
      reads vhSystems, vhLinks, vhNames, vhRegionNames, vhRangeSpheres, vhDataSpheres
      requires Wired()
    {
      && vhSystems.Valid() && vhLinks.Valid() && vhNames.Valid()
      && vhRegionNames.Valid() && vhRangeSpheres.Valid() && vhDataSpheres.Valid()
    }

    /** Every name the redraw looks up resolves, and the extent the scale divides by is positive. */
    ghost predicate GraphValid()
      reads this`em, this`universeWidth, this`universeDepth
      reads this`universeXMin, this`universeXMax, this`universeZMin, this`universeZMax
    {
      && AllJumpsResolve(em.systems, em.systems)
      && universeWidth == universeXMax - universeXMin && universeWidth > 0.0
      && universeDepth == universeZMax - universeZMin && universeDepth > 0.0
    }

    /**
     * The graph state Init's scan leaves: the provider taken, the link cache
     * holding each undirected gate link once, and the bounds the smallest
     * seeded box around every system.
     */
    ghost predicate GraphScanned(manager: EveManager)
      reads this`em, this`universeSysLinksCache
      reads this`universeXMin, this`universeXMax, this`universeZMin, this`universeZMax
    {
      && em == manager
      && AllJumpsResolve(em.systems, em.systems)
      && universeSysLinksCache == Dedup(DirectedJumps(em.systems, em.systems))
      && UniverseBounds() == Envelope(SeedBounds, em.systems)
    }

    /**
     * The bridge endpoints resolve whenever bridges are shown: the link
     * rebuild looks them up, unguarded, only then.
     */
    ghost predicate BridgesDrawable()
      reads this`showJumpBridges, this`em
    {
      showJumpBridges ==> BridgesResolve(em.jumpBridges, em.systems)
    }

    /** The state Init establishes and every later operation keeps. */
    ghost predicate Valid()
      reads this`vhSystems, this`vhLinks, this`vhNames, this`vhRegionNames, this`vhRangeSpheres, this`vhDataSpheres
      reads this`em, this`universeWidth, this`universeDepth, this`canvas
      reads this`universeXMin, this`universeXMax, this`universeZMin, this`universeZMax
      reads vhSystems, vhLinks, vhNames, vhRegionNames, vhRangeSpheres, vhDataSpheres
    {
      Wired() && LayersValid() && GraphValid() && Distinct(canvas)
    }

    /**
     * What a full redraw leaves in the four static layers at the current
     * scale: region labels, gate lines then (when shown) bridge lines, system
     * names, and the system boxes appended to what the systems layer held.
     */
    ghost predicate StaticLayersDrawn(systemsBefore: seq<Entry>)
      reads this, vhSystems, vhLinks, vhNames, vhRegionNames, vhRangeSpheres, vhDataSpheres
      requires Valid()
    {
      && BridgesDrawable()
      && vhRegionNames.entries == RegionLabels(em.regions, UniverseBounds(), universeScale)
      && vhLinks.entries == GateLines(universeSysLinksCache, UniverseBounds(), universeScale) +
           (if showJumpBridges then BridgeLines(em.jumpBridges, em.systems, UniverseBounds(), universeScale) else [])
      && vhNames.entries == SystemNames(em.systems, UniverseBounds(), universeScale)
      && vhSystems.entries == systemsBefore + SystemBoxes(em.systems, UniverseBounds(), universeScale)
    }

    /** A new control: no metric shown, bridges shown, overlay scale 1, nothing initialised yet. */
    constructor ()
      ensures Flags() == AllOff && showJumpBridges && esiOverlayScale == 1.0
      ensures canvas == [] && universeSysLinksCache == []
      ensures vhSystems == null && vhLinks == null && vhNames == null
      ensures vhRegionNames == null && vhRangeSpheres == null && vhDataSpheres == null
    {
      esiOverlayScale := 1.0;
      showNPCKills, showPodKills, showShipKills, showShipJumps := false, false, false, false;
      showJumpBridges := true;
      universeSysLinksCache := [];
      universeWidth, universeDepth, universeScale := 0.0, 0.0, 0.0;
      universeXMin, universeXMax, universeZMin, universeZMax := 0.0, 0.0, 0.0, 0.0;
      em := EveManager([], [], []);
      vhSystems, vhLinks, vhNames := null, null, null;
      vhRegionNames, vhRangeSpheres, vhDataSpheres := null, null, null;
      canvas := [];
    }

    // ------------------------------------------------------------ metric setters

    method SetShowNPCKills(value: bool)
      modifies this`showNPCKills, this`showPodKills, this`showShipKills, this`showShipJumps
      ensures Flags() == SetMetric(old(Flags()), NPCKills, value)
      decreases if value then 1 else 0
    {
      showNPCKills := value;
      if showNPCKills {
        SetShowPodKills(false);
        SetShowShipKills(false);
        SetShowShipJumps(false);
      }
    }

    method SetShowPodKills(value: bool)
      modifies this`showNPCKills, this`showPodKills, this`showShipKills, this`showShipJumps
      ensures Flags() == SetMetric(old(Flags()), PodKills, value)
      decreases if value then 1 else 0
    {
      showPodKills := value;
      if showPodKills {
        SetShowNPCKills(false);
        SetShowShipKills(false);
        SetShowShipJumps(false);
      }
    }

    method SetShowShipKills(value: bool)
      modifies this`showNPCKills, this`showPodKills, this`showShipKills, this`showShipJumps
      ensures Flags() == SetMetric(old(Flags()), ShipKills, value)
      decreases if value then 1 else 0
    {
      showShipKills := value;
      if showShipKills {
        SetShowNPCKills(false);
        SetShowPodKills(false);
        SetShowShipJumps(false);
      }
    }

    method SetShowShipJumps(value: bool)
      modifies this`showNPCKills, this`showPodKills, this`showShipKills, this`showShipJumps
      ensures Flags() == SetMetric(old(Flags()), ShipJumps, value)
      decreases if value then 1 else 0
    {
      showShipJumps := value;
      if showShipJumps {
        SetShowNPCKills(false);
        SetShowPodKills(false);
        SetShowShipKills(false);
      }
    }

    // ------------------------------------------------------------ initialisation

    /**
     * Takes the provider, creates the six layers and attaches four of them to
     * the canvas, scans the graph for links and bounds, then draws everything.
     */
    method Init(manager: EveManager)
      requires AllJumpsResolve(manager.systems, manager.systems)
      requires showJumpBridges ==> BridgesResolve(manager.jumpBridges, manager.systems)
      requires Distinct(canvas)
      modifies this`vhSystems, this`vhLinks, this`vhNames, this`vhRegionNames, this`vhRangeSpheres, this`vhDataSpheres, this`canvas
      modifies this`em, this`universeSysLinksCache, this`universeWidth, this`universeDepth, this`universeScale
      modifies this`universeXMin, this`universeXMax, this`universeZMin, this`universeZMax
      ensures Valid()
      ensures GraphScanned(manager)
      ensures canvas == old(canvas) + [vhDataSpheres, vhRangeSpheres, vhLinks, vhSystems]
      ensures universeScale == UniverseScale(universeWidth, universeDepth)
      ensures StaticLayersDrawn([])
      ensures vhDataSpheres.entries == DataGlyphs(em.systems, Flags(), esiOverlayScale, UniverseBounds(), universeScale)
      ensures vhRangeSpheres.entries == []
    {
      Prepare(manager);
      ReDrawMap(true);
    }

    /**
     * Everything Init does before drawing: the graph scanned, then the layers
     * created and attached. The two steps touch disjoint fields, so running
     * the scan first leaves the same state as the other order.
     */
    method Prepare(manager: EveManager)
      requires AllJumpsResolve(manager.systems, manager.systems)
      requires Distinct(canvas)
      modifies this`vhSystems, this`vhLinks, this`vhNames, this`vhRegionNames, this`vhRangeSpheres, this`vhDataSpheres, this`canvas
      modifies this`em, this`universeSysLinksCache, this`universeWidth, this`universeDepth
      modifies this`universeXMin, this`universeXMax, this`universeZMin, this`universeZMax
      ensures Valid()
      ensures fresh(vhSystems) && fresh(vhLinks) && fresh(vhNames)
      ensures fresh(vhRegionNames) && fresh(vhRangeSpheres) && fresh(vhDataSpheres)
      ensures GraphScanned(manager)
      ensures canvas == old(canvas) + [vhDataSpheres, vhRangeSpheres, vhLinks, vhSystems]
      ensures vhSystems.entries == [] && vhLinks.entries == [] && vhNames.entries == []
      ensures vhRegionNames.entries == [] && vhRangeSpheres.entries == [] && vhDataSpheres.entries == []
    {
      ScanGraph(manager);
      CreateLayers();
    }

    /** The layer part of Init: six empty layers, the data, range, link and systems layers attached in that order. */
    method CreateLayers()
      requires Distinct(canvas)
      modifies this`vhSystems, this`vhLinks, this`vhNames, this`vhRegionNames, this`vhRangeSpheres, this`vhDataSpheres, this`canvas
      ensures Wired() && LayersValid() && Distinct(canvas)
      ensures canvas == old(canvas) + [vhDataSpheres, vhRangeSpheres, vhLinks, vhSystems]
      ensures fresh(vhSystems) && fresh(vhLinks) && fresh(vhNames)
      ensures fresh(vhRegionNames) && fresh(vhRangeSpheres) && fresh(vhDataSpheres)
      ensures vhSystems.entries == [] && vhLinks.entries == [] && vhNames.entries == []
      ensures vhRegionNames.entries == [] && vhRangeSpheres.entries == [] && vhDataSpheres.entries == []
    {
      vhSystems := NewLayer(canvas);
      vhLinks := NewLayer(canvas);
      vhNames := NewLayer(canvas);
      vhRegionNames := NewLayer(canvas);
      vhRangeSpheres := NewLayer(canvas);
      vhDataSpheres := NewLayer(canvas);
      var added: seq<VisualHost> := [vhDataSpheres, vhRangeSpheres, vhLinks, vhSystems];
      DistinctConcat(canvas, added);
      canvas := canvas + added;
    }

    /**
     * The graph part of Init: takes the provider and makes one pass over its
     * systems, building the link cache and growing the bounds.
     */
    method ScanGraph(manager: EveManager)
      requires AllJumpsResolve(manager.systems, manager.systems)
      modifies this`em, this`universeSysLinksCache, this`universeWidth, this`universeDepth
      modifies this`universeXMin, this`universeXMax, this`universeZMin, this`universeZMax
      ensures GraphValid() && GraphScanned(manager)
      ensures unchanged(this`canvas)
    {
      var cache, b := ScanUniverse(manager.systems);
      EnvelopeHasArea(manager.systems);
      em, universeSysLinksCache := manager, cache;
      universeXMin, universeXMax, universeZMin, universeZMax := b.xMin, b.xMax, b.zMin, b.zMax;
      universeWidth, universeDepth := b.xMax - b.xMin, b.zMax - b.zMin;
    }

    // ------------------------------------------------------------ redraw

    /**
     * Recomputes the scale; on a full redraw clears and refills the region
     * name, link and system name layers and appends to the systems layer
     * (which is never cleared); always clears and refills the data overlay.
     */
    method ReDrawMap(fullRedraw: bool)
      requires Valid()
      requires fullRedraw ==> BridgesDrawable()
      modifies this`universeScale, vhLinks, vhNames, vhRegionNames, vhSystems, vhDataSpheres
      ensures Valid()
      ensures universeScale == UniverseScale(universeWidth, universeDepth)
      ensures fullRedraw ==> StaticLayersDrawn(old(vhSystems.entries))
      ensures !fullRedraw ==> unchanged(vhLinks, vhNames, vhRegionNames, vhSystems)
      ensures unchanged(this`em, this`canvas, this`universeSysLinksCache, this`universeXMin, this`universeXMax, this`universeZMin, this`universeZMax)
      ensures unchanged(this`vhSystems, this`vhLinks, this`vhNames, this`vhRegionNames, this`vhRangeSpheres, this`vhDataSpheres)
      ensures unchanged(vhRangeSpheres)
      ensures vhDataSpheres.entries == DataGlyphs(em.systems, Flags(), esiOverlayScale, UniverseBounds(), universeScale)
    {
      universeScale := UniverseScale(universeWidth, universeDepth);
      if fullRedraw {
        RedrawRegionNames();
        RedrawLinks();
        RedrawSystems();
      }
      RedrawDataOverlay();
    }

    /** The region-name part of a full redraw: clear, then one label per region. */
    method RedrawRegionNames()
      requires Valid()
      modifies vhRegionNames
      ensures Valid()
      ensures vhRegionNames.entries == RegionLabels(em.regions, UniverseBounds(), universeScale)
    {
      vhRegionNames.ClearAllChildren();
      DrawRegionNames(vhRegionNames, em.regions, UniverseBounds(), universeScale);
    }

    /** The link part of a full redraw: clear, the gate links, then the jump bridges when they are shown. */
    method RedrawLinks()
      requires Valid() && BridgesDrawable()
      modifies vhLinks
      ensures Valid()
      ensures vhLinks.entries == GateLines(universeSysLinksCache, UniverseBounds(), universeScale) +
        (if showJumpBridges then BridgeLines(em.jumpBridges, em.systems, UniverseBounds(), universeScale) else [])
    {
      var b := UniverseBounds();
      var gates := GateLines(universeSysLinksCache, b, universeScale);
      vhLinks.ClearAllChildren();
      DrawGateLinks(vhLinks, universeSysLinksCache, b, universeScale);
      assert [] + gates == gates;
      if showJumpBridges {
        DrawJumpBridges(vhLinks, em.jumpBridges, em.systems, b, universeScale);
      } else {
        assert gates + [] == gates;
      }
    }

    /** The system part of a full redraw: the name layer is cleared, the systems layer is not. */
    method RedrawSystems()
      requires Valid()
      modifies vhSystems, vhNames
      ensures Valid()
      ensures vhNames.entries == SystemNames(em.systems, UniverseBounds(), universeScale)
      ensures vhSystems.entries == old(vhSystems.entries) + SystemBoxes(em.systems, UniverseBounds(), universeScale)
    {
      vhNames.ClearAllChildren();
      DrawSystems(vhSystems, vhNames, em.systems, UniverseBounds(), universeScale);
    }

    /** The part of every redraw: clear the data layer and draw the glyphs of the selected metric. */
    method RedrawDataOverlay()
      requires Valid()
      modifies vhDataSpheres
      ensures Valid()
      ensures vhDataSpheres.entries == DataGlyphs(em.systems, Flags(), esiOverlayScale, UniverseBounds(), universeScale)
    {
      vhDataSpheres.ClearAllChildren();
      DrawDataOverlay(vhDataSpheres, em.systems, Flags(), esiOverlayScale, UniverseBounds(), universeScale);
    }

    // ------------------------------------------------------------ zoom and picking

    /** The zoom-changed handler: swaps the name and region-name layers on the canvas. */
    method ZoomChanged(zoom: real)
      requires Valid()
      modifies this`canvas
      ensures Valid()
      ensures canvas == ZoomedCanvas<VisualHost>(old(canvas), zoom, vhNames, vhRegionNames)
    {
      var names: VisualHost := vhNames;
      var regionNames: VisualHost := vhRegionNames;
      if zoom < 0.8 {
        if names in canvas {
          canvas := RemoveFirst(canvas, names);
        }
        if regionNames !in canvas {
          canvas := canvas + [regionNames];
        }
      } else {
        if names !in canvas {
          canvas := canvas + [names];
        }
        if regionNames in canvas {
          canvas := RemoveFirst(canvas, regionNames);
        }
      }
      ZoomSelectsOneLabelLayer(old(canvas), zoom, names, regionNames);
    }

    /**
     * The click handler of the systems layer: clears the range layer, draws
     * the reach circle around `sys`, then a marker for every system whose
     * distance from it, as the provider's `range` reports it, is in range.
     */
    method SystemsMouseClicked(sys: StarSystem, range: (string, string) -> real)
      requires Valid()
      modifies vhRangeSpheres
      ensures Valid()
      ensures vhRangeSpheres.entries == RangeLayer(sys, em.systems, range, UniverseBounds(), universeScale)
    {
      vhRangeSpheres.ClearAllChildren();
      var b := UniverseBounds();
      var circle := RangeCircle(sys, b, universeScale);
      var dv := vhRangeSpheres.AddDrawing(circle);

      DrawRangeMarkers(vhRangeSpheres, sys, em.systems, range, b, universeScale);
    }
  }
}
