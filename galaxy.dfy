/**
 * The graph provider the map engine reads from: star systems with their
 * galaxy coordinates, region and constellation, directed jump lists and live
 * counters, the region list and the jump-bridge list. The engine only reads
 * it; here it is a value handed to the engine instead of a process-wide
 * singleton.
 */
module Galaxy {
  import opened Wrappers

  /** One star system, as the engine sees it. Only X and Z are projected. */
  datatype StarSystem = StarSystem(
    name: string,
    actualX: real,
    actualZ: real,
    region: string,
    constellationID: string,
    jumps: seq<string>,          // names of the systems this one has a gate to
    npcKillsLastHour: int,
    podKillsLastHour: int,
    shipKillsLastHour: int,
    jumpsLastHour: int)

  /** A region and the galaxy position its label is drawn at. */
  datatype MapRegion = MapRegion(name: string, regionX: real, regionZ: real)

  /** A long-range link between two named systems. */
  datatype JumpBridge = JumpBridge(from: string, to: string)

  /** The provider: systems, regions and bridges, each in provider order. */
  datatype EveManager = EveManager(
    systems: seq<StarSystem>,
    regions: seq<MapRegion>,
    jumpBridges: seq<JumpBridge>)

  predicate HasSystem(systems: seq<StarSystem>, name: string) {
    exists i :: 0 <= i < |systems| && systems[i].name == name
  }

  /** The first system with the given name, or None for an unknown name. */
  function GetEveSystem(systems: seq<StarSystem>, name: string): (r: Option<StarSystem>)
    ensures r.Some? <==> HasSystem(systems, name)
    ensures r.Some? ==> r.value in systems && r.value.name == name
  {
    if |systems| == 0 then None
    else if systems[0].name == name then Some(systems[0])
    else
      var r := GetEveSystem(systems[1..], name);
      assert HasSystem(systems[1..], name) ==> HasSystem(systems, name) by {
        if HasSystem(systems[1..], name) {
          var i :| 0 <= i < |systems[1..]| && systems[1..][i].name == name;
          assert systems[i + 1].name == name;
        }
      }
      assert HasSystem(systems, name) ==> HasSystem(systems[1..], name) by {
        if HasSystem(systems, name) {
          var i :| 0 <= i < |systems| && systems[i].name == name;
          assert i != 0;
          assert systems[1..][i - 1].name == name;
        }
      }
      r
  }

  /** Every jump target named by sys is a system of `all`. */
  predicate JumpsResolve(sys: StarSystem, all: seq<StarSystem>) {
    forall t :: t in sys.jumps ==> HasSystem(all, t)
  }

  /**
   * Every jump target of every system resolves: the link scan dereferences
   * the result of each lookup without a null check.
   */
  predicate AllJumpsResolve(systems: seq<StarSystem>, all: seq<StarSystem>) {
    forall s :: s in systems ==> JumpsResolve(s, all)
  }

  /** Both endpoints of every jump bridge are systems of `all`. */
  predicate BridgesResolve(bridges: seq<JumpBridge>, all: seq<StarSystem>) {
    forall jb :: jb in bridges ==> HasSystem(all, jb.from) && HasSystem(all, jb.to)
  }
}
