# Universe map engine and intel-line reader, in Dafny

This project models two parts of a desktop tool for the game EVE Online.

The first is the **universe map control** (`UniverseControl.xaml.cs`). It holds:

- four mutually exclusive overlay flags (NPC kills, pod kills, ship kills, ship jumps);
- a one-time `Init` scan. The scan turns the directed per-system jump lists into a list of undirected gate links. It also grows a bounding box from fixed seed bounds;
- a uniform projection of galaxy (X, Z) onto a 5000 × 5000 canvas, with Z inverted;
- `ReDrawMap`. It rebuilds the region-name, link and system-name layers on a full redraw, appends boxes to the systems layer, and always rebuilds the live-data overlay;
- a zoom handler that swaps the system-name and region-name layers on the canvas;
- a click handler that draws a 7-light-year range circle and markers;
- `VisualHost`, the layer container. It keeps a child list and a visual-to-object map in step.

The second is the **intel-line reader** (`EVEData/IntelData.cs`). It splits a chat-log line such as `[ 2017.05.01 18:24:28 ] Charname > message` into its timestamp text and its message, and labels the line with its channel.

Modules, one per concern:

| file | module | contents |
|---|---|---|
| `wrappers.dfy` | `Wrappers` | `Option` and `Result` |
| `galaxy.dfy` | `Galaxy` | the graph provider as a value: systems, regions, jump bridges, `GetEveSystem` |
| `sequences.dfy` | `Sequences` | `Distinct` and the .NET collection `Remove` |
| `projection.dfy` | `Projection` | seed bounds, the bounds update, the scale, the projection |
| `metrics.dfy` | `Metrics` | the four flags, their setters as a function, the overlay size |
| `link_dedup.dfy` | `LinkDedup` | the link-cache scan as a specification (`Dedup` of the directed jumps) and its properties |
| `scene.dfy` | `Scene` | `Visual` and the `VisualHost` class |
| `layers.dfy` | `Layers` | what each layer holds after a rebuild, as functions, with their properties |
| `level_of_detail.dfy` | `LevelOfDetail` | the zoom switch as a function on the canvas |
| `universe_control.dfy` | `UniverseMap` | the `UniverseControl` class: setters, `Init`, `ReDrawMap`, zoom, range query |
| `intel_data.dfy` | `Intel` | the `IntelData` constructor as a function returning `Result` |

Modelling choices:

- **Where the state changes, the model is imperative.** The control and `VisualHost` are classes whose methods update fields in place. The scans and the layer-building loops are `while` loops. Each is proved against a specification function: `Dedup`, `Envelope`, `RegionLabels`, `GateLines`, `DataGlyphs`, `RangeMarkers` and so on. The properties are then proved about those functions as lemmas.
- **Layers and drawings.**
  - Each layer carries a ghost `entries` sequence. An entry pairs a child visual's drawing with the object the child is mapped to.
  - Drawings are abstract shapes with canvas coordinates and a colour tag; nothing is rendered.
  - The main canvas is a sequence of layers that never holds a layer twice.
- **Systems are values.** The source compares systems by reference. Here they are compared by value, and the value includes the live counters. The two agree as long as no two systems of the provider have identical fields (names are unique) and no system's counters change while a comparison is made; the provider is fixed at `Init` in this model, so they do not.
- **The graph provider is a parameter.** It is a value handed to `Init`. Two foreign calls are abstracted:
  - the distance query `GetRangeBetweenSystems` is a function parameter of the click handler;
  - `GetEveSystem` is the first system with the given name.
- **Lookups must resolve.** The source dereferences the results of `GetEveSystem` without a null check. So `Init` requires every jump target to resolve (`AllJumpsResolve`). Bridge endpoints are looked up only when bridges are drawn, so `Init`, `ReDrawMap(true)` and the link rebuild require them to resolve only when `showJumpBridges` is set (`BridgesDrawable`).
- **Doubles are `real`.** The `float` weights `0.05f` and `0.1f` are modelled as the exact rationals.

Three behaviours of the code that the model keeps:

- **Unresolved jump targets are not skipped.** Line 340 stores the lookup result whatever it is, and line 357 caches it as the link's far end. Lines 545-548 then read that end's coordinates on every full redraw, with no null check. Hence the precondition above.
- **There is no zero-extent guard.** Lines 477-478 divide by the width and the depth unguarded. No guard is needed: the bounds start from seed values of positive width and depth and only grow (`EnvelopeHasArea`).
- **Only a hit on a system clears the range layer.** The clear at line 399 sits in the handler that a system hit raises; a click that hits nothing leaves the range layer as it was.

## Model

| member | source | states |
|---|---|---|
| Galaxy.GetEveSystem | UniverseControl.xaml.cs:340 | a lookup succeeds exactly when some provider system has the name, and then returns a provider system with that name |
| Sequences.RemoveFirst | UniverseControl.xaml.cs:38 | removing a member drops exactly one element; removing a non-member changes nothing; every other element is kept; a duplicate-free list stays duplicate-free and loses the element |
| Sequences.RemoveFirstSplice | UniverseControl.xaml.cs:38 | removing a member cuts out exactly its first occurrence and keeps every other element in its order |
| Projection.Include | UniverseControl.xaml.cs:361-379 | after one system's four comparisons, the box contains the system and encloses the old box; each edge is the old edge or the system's coordinate; a system already inside leaves the box unchanged |
| Projection.Envelope | UniverseControl.xaml.cs:303-307 | the box after visiting any systems still encloses the seed bounds |
| Projection.EnvelopeStep | UniverseControl.xaml.cs:336-381 | visiting one more system is one more `Include` step on the box of the systems before it |
| Projection.EnvelopeContainsAll | UniverseControl.xaml.cs:361-381 | after the scan, every system lies within xMin..xMax and zMin..zMax |
| Projection.EnvelopeIsTight | UniverseControl.xaml.cs:361-379 | each edge of the scanned box is the seed's edge or the coordinate of some system, so the box is no larger than needed |
| Projection.EnvelopeHasArea | UniverseControl.xaml.cs:384-385 | width and depth after the scan are positive for any set of systems, so the scale's divisions are defined |
| Projection.UniverseScale | UniverseControl.xaml.cs:477-479 | the scale is positive, fits both the width and the depth into 5000, and makes at least one of them exactly 5000 |
| Projection.ProjectionInCanvas | UniverseControl.xaml.cs:609-612 | a point inside the bounds projects into [0, 5000] on both axes under the fitted scale, with Z inverted |
| Projection.SystemsProjectIntoCanvas | UniverseControl.xaml.cs:606-612 | every system of the scanned universe projects onto the canvas |
| Metrics.SetMetric | UniverseControl.xaml.cs:182-265 | a setter given true sets its flag and clears the other three; a setter given false clears its own flag and leaves the other three as they were |
| Metrics.ActiveMetric | UniverseControl.xaml.cs:672-690 | with at most one flag set, the selected metric is exactly the one whose flag is set, or none |
| Metrics.SelectingReplaces | UniverseControl.xaml.cs:193-198 | selecting any metric, whatever was shown before, makes it the only one shown |
| Metrics.SettersKeepAtMostOne | UniverseControl.xaml.cs:182-265 | no sequence of setter calls takes flags with at most one set to flags with two set |
| Metrics.FromStartAtMostOne | UniverseControl.xaml.cs:130-133 | starting from the initial all-false flags, at most one flag is set after any sequence of setter calls |
| Metrics.DataScale | UniverseControl.xaml.cs:669-690 | with at most one flag set, the overlay size is the selected metric's counter × overlay scale × its weight (0.05, 2, 8, 0.1), and 0 when none is selected |
| LinkDedup.MatchesIsUnorderedPairEquality | UniverseControl.xaml.cs:345 | for two distinct systems, the endpoint test is exactly equality of the unordered endpoint pairs |
| LinkDedup.JumpsOf | UniverseControl.xaml.cs:338-340 | one directed jump per listed target, from the system to the system the target names, in list order |
| LinkDedup.DirectedJumpsStep | UniverseControl.xaml.cs:336-340 | the jumps of one more system follow the jumps of the systems before it |
| LinkDedup.DirectedJumpsAreJumps | UniverseControl.xaml.cs:336-340 | the flattened jump list holds exactly the jumps that the systems list |
| LinkDedup.DedupSnoc | UniverseControl.xaml.cs:352-358 | scanning one more jump is one more add-unless-joined step |
| LinkDedup.JumpsOfSnoc | UniverseControl.xaml.cs:338-340 | looking up one more target appends one directed jump |
| LinkDedup.DedupJumpsStep | UniverseControl.xaml.cs:338-358 | processing target n of a system extends the cache of its first n targets by one add-unless-joined step |
| LinkDedup.DedupExtends | UniverseControl.xaml.cs:352-358 | scanning more jumps only appends to the cache and never reorders or drops links |
| LinkDedup.DedupNoDuplicates | UniverseControl.xaml.cs:342-358 | no cached link joins the endpoints of a later cached link |
| LinkDedup.DedupCovers | UniverseControl.xaml.cs:342-358 | every scanned jump is joined by some cached link |
| LinkDedup.DedupSound | UniverseControl.xaml.cs:352-358 | every cached link is one of the scanned jumps, in its original orientation |
| LinkDedup.DedupKeepsFirst | UniverseControl.xaml.cs:354-357 | a jump whose endpoints no earlier jump joins is cached exactly as it is, so the first orientation wins |
| LinkDedup.OneLinkPerPair | UniverseControl.xaml.cs:343-350 | in the cache at most one link joins any two distinct systems |
| LinkDedup.LinkCacheOfUniverse | UniverseControl.xaml.cs:336-359 | the cache of a whole universe has no duplicate pair, holds only listed jumps, and joins every listed jump |
| LinkDedup.NeedsAdd | UniverseControl.xaml.cs:342-350 | the inner scan reports that a link is needed exactly when no cached link joins the two systems |
| Layers.RegionLabels | UniverseControl.xaml.cs:511-537 | the region-name layer holds one label per region |
| Layers.RegionLabelsAt | UniverseControl.xaml.cs:511-537 | label k is region k's name, centred at its projected position plus the text offset, mapped to the name |
| Layers.GateColour | UniverseControl.xaml.cs:550-555 | a gate line is drawn in one of the two gate colours |
| Layers.GateColourIgnoresOrientation | UniverseControl.xaml.cs:552 | the colour of a link does not depend on which end it starts from |
| Layers.GateColourByMembership | UniverseControl.xaml.cs:550-555 | a gate gets the normal colour if and only if both ends share region and constellation, and the muted colour if and only if they differ in either |
| Layers.GateLines | UniverseControl.xaml.cs:543-569 | the link layer holds one line per cached link |
| Layers.GateLinesAt | UniverseControl.xaml.cs:543-569 | line k joins the projected ends of cached link k, in the link's colour, mapped to "link" |
| Layers.BridgeLines | UniverseControl.xaml.cs:571-603 | one dotted line per jump bridge, with no deduplication against gates |
| Layers.BridgeLinesAt | UniverseControl.xaml.cs:573-602 | line k joins the projected ends of bridge k, dotted blue, mapped to "JB" |
| Layers.SystemBoxes | UniverseControl.xaml.cs:606-626 | one box per system |
| Layers.SystemBoxesAt | UniverseControl.xaml.cs:606-626 | box k is the 6 × 6 box centred on system k's projection, mapped back to system k for picking |
| Layers.SystemNames | UniverseControl.xaml.cs:628-651 | one name label per system |
| Layers.SystemNamesAt | UniverseControl.xaml.cs:628-651 | label k is system k's name at its projection plus the text offset, mapped to the name |
| Layers.SystemGlyphsShareCentre | UniverseControl.xaml.cs:406-418 | the box, the range circle, the picked-system marker and an in-range marker of a system are all centred on its projected point, and its name label sits one text offset from that point |
| Layers.DataGlyphs | UniverseControl.xaml.cs:660-708 | the overlay holds at most one glyph per system |
| Layers.DataGlyphsConcat | UniverseControl.xaml.cs:661-708 | the overlay of two runs of systems is the concatenation of their overlays |
| Layers.DataGlyphOfOneSystem | UniverseControl.xaml.cs:693-707 | a system contributes its glyph exactly when its overlay size is strictly above 3, and nothing otherwise |
| Layers.DataGlyphsComplete | UniverseControl.xaml.cs:693-707 | every system above the threshold has its glyph in the overlay |
| Layers.DataGlyphsSound | UniverseControl.xaml.cs:693-707 | every glyph in the overlay belongs to a system above the threshold |
| Layers.NoMetricNoGlyphs | UniverseControl.xaml.cs:669-693 | with no metric selected the overlay is empty |
| Layers.RangeMarkers | UniverseControl.xaml.cs:429-452 | at most one marker per system |
| Layers.RangeMarkersComplete | UniverseControl.xaml.cs:432-451 | every system strictly between 0 and 7 light years from the picked one has its marker |
| Layers.RangeMarkersSound | UniverseControl.xaml.cs:432-451 | every marker belongs to a system strictly between 0 and 7 light years away |
| Layers.NoMarkerForPickedSystem | UniverseControl.xaml.cs:432-437 | when the picked system is at distance 0 from itself, every marker belongs to some other system in range, so the picked system gets none |
| LevelOfDetail.ZoomSelectsOneLabelLayer | UniverseControl.xaml.cs:714-744 | below zoom 0.8 the names layer is off the canvas and the region-names layer on it, otherwise the reverse; the canvas stays duplicate-free and no other layer is added or removed |
| LevelOfDetail.ZoomIsIdempotent | UniverseControl.xaml.cs:714-744 | a second zoom event at the same zoom changes nothing |
| Scene.Visual.constructor | UniverseControl.xaml.cs:558-566 | a new drawing visual holds its drawing and is fully opaque |
| Scene.ToggleTwiceRestores | UniverseControl.xaml.cs:101 | a hit switches opacity between 1.0 and 0.4, and a second hit restores it |
| Scene.VisualHost.constructor | UniverseControl.xaml.cs:55-64 | a new layer has no children, no mapping and hit-testing off |
| Scene.VisualHost.AddChild | UniverseControl.xaml.cs:28-32 | a new visual is appended at the end and mapped to its object; a visual already present makes the call fail with nothing changed; children and mapping keys stay the same set |
| Scene.VisualHost.AddDrawing | UniverseControl.xaml.cs:558-568 | drawing into a new visual and adding it appends exactly that entry to the layer |
| Scene.VisualHost.RemoveChild | UniverseControl.xaml.cs:36-40 | the first occurrence is removed from the children and the visual from the mapping; children and mapping keys stay the same set |
| Scene.VisualHost.ClearAllChildren | UniverseControl.xaml.cs:42-46 | children, mapping and entries all become empty |
| Scene.VisualHost.VisualChildrenCount | UniverseControl.xaml.cs:80 | the child count equals the number of mapped visuals |
| Scene.VisualHost.GetVisualChild | UniverseControl.xaml.cs:83-91 | an index in [0, count) yields that child, which is mapped; any other index yields the out-of-range error |
| Scene.VisualHost.HitTestCheck | UniverseControl.xaml.cs:95-113 | a hit drawing visual has its opacity toggled; the click is raised exactly when the visual has a mapping, and carries its mapped object |
| UniverseMap.ScanUniverse | UniverseControl.xaml.cs:336-381 | the scan loop yields the deduplicated cache of all directed jumps and the seeded envelope of all systems |
| UniverseMap.ScanJumps | UniverseControl.xaml.cs:338-359 | the inner loop over one system's jumps extends the cache by one add-unless-joined step per target |
| UniverseMap.GrowBounds | UniverseControl.xaml.cs:361-379 | the four comparisons for one system compute one `Include` step |
| UniverseMap.NewLayer | UniverseControl.xaml.cs:309-317 | a new layer is empty, consistent and none of the layers already on the canvas |
| UniverseMap.DrawRegionNames | UniverseControl.xaml.cs:511-538 | the region loop appends exactly the region labels |
| UniverseMap.DrawGateLinks | UniverseControl.xaml.cs:543-569 | the link loop appends exactly the gate lines of the cache |
| UniverseMap.DrawJumpBridges | UniverseControl.xaml.cs:571-603 | the bridge loop appends exactly the bridge lines |
| UniverseMap.DrawSystems | UniverseControl.xaml.cs:606-653 | the system loop appends the boxes to the systems layer and the names to the name layer |
| UniverseMap.DrawDataOverlay | UniverseControl.xaml.cs:661-709 | the overlay loop appends exactly the glyphs of the systems above the threshold |
| UniverseMap.DrawRangeMarkers | UniverseControl.xaml.cs:429-452 | the range loop appends exactly the markers of the systems in range |
| UniverseMap.UniverseControl.constructor | UniverseControl.xaml.cs:129-134 | a new control shows no metric, shows bridges, has overlay scale 1 and no layers |
| UniverseMap.UniverseControl.SetShowNPCKills | UniverseControl.xaml.cs:182-202 | the flags become those of the NPC-kills setter |
| UniverseMap.UniverseControl.SetShowPodKills | UniverseControl.xaml.cs:204-223 | the flags become those of the pod-kills setter |
| UniverseMap.UniverseControl.SetShowShipKills | UniverseControl.xaml.cs:225-244 | the flags become those of the ship-kills setter |
| UniverseMap.UniverseControl.SetShowShipJumps | UniverseControl.xaml.cs:246-265 | the flags become those of the ship-jumps setter |
| UniverseMap.UniverseControl.Init | UniverseControl.xaml.cs:294-388 | for a provider whose jump targets resolve (and whose bridge endpoints resolve when bridges are shown), after Init: the provider is taken, the cache is the deduplicated jump list, the bounds are the seeded envelope, four layers are attached (data, range, links, systems), the static layers and the overlay are drawn, the range layer is empty |
| UniverseMap.UniverseControl.Prepare | UniverseControl.xaml.cs:296-385 | for a provider whose jump targets resolve, six new empty layers, four of them attached in source order, and the graph scanned |
| UniverseMap.UniverseControl.CreateLayers | UniverseControl.xaml.cs:309-323 | six distinct new empty layers; data, range, links and systems appended to the canvas in that order, which stays duplicate-free |
| UniverseMap.UniverseControl.ScanGraph | UniverseControl.xaml.cs:336-385 | for a provider whose jump targets resolve, the provider is taken, the cache and the bounds are the scan's results, and the width and depth are positive |
| UniverseMap.UniverseControl.ReDrawMap | UniverseControl.xaml.cs:471-712 | the scale is recomputed; a full redraw with bridges shown needs their endpoints to resolve; a full redraw rebuilds the region-name, link and name layers and appends boxes to the uncleared systems layer; otherwise those four layers are untouched; the overlay is always rebuilt; the range layer, the canvas and the graph state never change |
| UniverseMap.UniverseControl.RedrawRegionNames | UniverseControl.xaml.cs:504-538 | the region-name layer ends holding exactly the region labels |
| UniverseMap.UniverseControl.RedrawLinks | UniverseControl.xaml.cs:504-603 | the link layer ends holding the gate lines, followed by the bridge lines only when bridges are shown, whose endpoints must then resolve |
| UniverseMap.UniverseControl.RedrawSystems | UniverseControl.xaml.cs:505-653 | the name layer ends holding the system names; the systems layer keeps its old content and gains the boxes |
| UniverseMap.UniverseControl.RedrawDataOverlay | UniverseControl.xaml.cs:660-709 | the data layer ends holding exactly the glyphs of the selected metric |
| UniverseMap.UniverseControl.ZoomChanged | UniverseControl.xaml.cs:714-744 | the canvas becomes the zoom switch's result, and the control stays consistent |
| UniverseMap.UniverseControl.SystemsMouseClicked | UniverseControl.xaml.cs:395-454 | the range layer ends holding the reach circle and then the markers of the systems in range |
| Intel.IndexOf | EVEData/IntelData.cs:24-25 | -1 exactly when the character is absent; otherwise an index holding it with no earlier occurrence |
| Intel.ChannelLabel | EVEData/IntelData.cs:31-36 | the channel name in parentheses, or the fixed override label when the override is on |
| Intel.NewIntelData | EVEData/IntelData.cs:20-37 | reading succeeds exactly when there is a `]` and it is not the first character; then the raw text is kept, the channel label is set, no systems are matched and no notification is cleared |
| Intel.TimestampBetweenBrackets | EVEData/IntelData.cs:25-26 | the timestamp text is what lies between the first character and the first `]` |
| Intel.MessageAfterFirstArrow | EVEData/IntelData.cs:24-27 | the message is the suffix after the first `>`, or the whole line when there is none |
| Intel.ReadFormattedLine | EVEData/IntelData.cs:20-37 | a line laid out as lead, timestamp, `]`, speaker, `>`, message reads back to exactly its timestamp and message |

## Left out

- WPF rendering is not modelled: brushes, pens, fonts, `FormattedText` and `DrawingContext`. Drawings are abstract shapes with a colour tag.
- The mouse-button handler and the routed-event plumbing are not modelled: the hit-test geometry and `RaiseEvent` (UniverseControl.xaml.cs:66-77, 116-122). `HitTestCheck` returns the object the click would carry. A hit on anything but a drawing visual is passed as null.
- The click wiring of the systems layer is commented out in the source (lines 310-311), so nothing calls `SystemsMouseClicked` there. The handler is modelled as a method that can be called.
- The refresh timer and the property-changed notifications are not modelled: the redraw each tick or flag change triggers (lines 325-330, 390-393, 456-459, 748-757). `ReDrawMap(false)` is the operation they run.
- The setters' own re-entrant redraw chains are not modelled; only the final flag state is.
- `ShowJumpBridges` and `ESIOverlayScale` are plain fields. Their setters only assign and notify.
- The `DataContext = this` binding (line 334) is not modelled; it is a WPF binding.
- The graph provider's own code is not part of this model. `EveManager.Instance` is a parameter of `Init`, `GetEveSystem` is a first-match lookup, and `GetRangeBetweenSystems` is a function parameter.
- Double-precision rounding is not modelled; arithmetic is on exact reals.
- `UniverseMap.UniverseControl.Prepare`: the scan runs before the layers are created, while the source creates the layers first. The two steps write disjoint fields, so the final state is the same.
- `UniverseMap.UniverseControl.ReDrawMap`: the provider is the value `Init` took. The source reads the live regions, bridges, systems and counters from the provider on every redraw (lines 511, 573, 606, 661). Changes the provider makes between redraws are not modelled: the model keeps `em` unchanged, so a redraw draws the counters as they were at `Init`.
- `UniverseMap.UniverseControl.ReDrawMap`: requires `Valid()`, so a call before `Init` is not modelled. In the source it throws a null dereference (line 504 on a full redraw, line 660 otherwise).
- `UniverseMap.UniverseControl.ZoomChanged`: requires `Valid()`, so a zoom before `Init` is not modelled. In the source it adds a null layer to the canvas (lines 725 and 735).
- `UniverseMap.UniverseControl.SystemsMouseClicked`: requires `Valid()`, so a click before `Init` is not modelled. In the source it throws a null dereference (line 399).
- `LinkDedup.NeedsAdd`: systems are compared by value, counters included, where the source compares references (line 345). Two distinct provider systems with identical fields would count as one system here.
- `UniverseMap.UniverseControl.Init`: the canvas is modelled as a duplicate-free sequence of layers. A layer added twice is not modelled.
- `Intel.NewIntelData`: `DateTime.Parse` is not modelled, so a timestamp text that does not parse as a date still reads successfully. The timestamp is kept as text.
- `Intel.NewIntelData`: the check of the logged-in user name is a boolean input (`operatorOverride`).
- The constructor's unused `fromDMT` parameter is not modelled.
- `EVEData/Server.cs` is not part of this model. It is a property bag with a clock timer.
