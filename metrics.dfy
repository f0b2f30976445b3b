/**
 * The four overlay metrics, the flags that select one of them, and the
 * per-system overlay size computed from the selected metric.
 */
module Metrics {
  import opened Wrappers
  import opened Galaxy

  datatype Metric = NPCKills | PodKills | ShipKills | ShipJumps

  /** The four show flags of the map control. */
  datatype MetricFlags = MetricFlags(
    showNPCKills: bool,
    showPodKills: bool,
    showShipKills: bool,
    showShipJumps: bool)

  /** The flags of a newly built control. */
  const AllOff := MetricFlags(false, false, false, false)

  function IsShown(f: MetricFlags, m: Metric): bool {
    match m
    case NPCKills => f.showNPCKills
    case PodKills => f.showPodKills
    case ShipKills => f.showShipKills
    case ShipJumps => f.showShipJumps
  }

  /** How many of the four flags are set. */
  function ShownCount(f: MetricFlags): nat {
    (if f.showNPCKills then 1 else 0) + (if f.showPodKills then 1 else 0) +
    (if f.showShipKills then 1 else 0) + (if f.showShipJumps then 1 else 0)
  }

  predicate AtMostOneShown(f: MetricFlags) {
    ShownCount(f) <= 1
  }

  /** `f` with the flag of `m` replaced by `value`. */
  function Assign(f: MetricFlags, m: Metric, value: bool): MetricFlags {
    match m
    case NPCKills => f.(showNPCKills := value)
    case PodKills => f.(showPodKills := value)
    case ShipKills => f.(showShipKills := value)
    case ShipJumps => f.(showShipJumps := value)
  }

  /**
   * The flags after the setter of `m` is given `value`: a setter given true
   * also sets the other three to false, a setter given false touches only its own flag.
   */
  function SetMetric(f: MetricFlags, m: Metric, value: bool): (r: MetricFlags)
    ensures IsShown(r, m) == value
    ensures value ==> forall o :: o != m ==> !IsShown(r, o)
    ensures !value ==> forall o :: o != m ==> IsShown(r, o) == IsShown(f, o)
  {
    if value then Assign(AllOff, m, true) else Assign(f, m, false)
  }

  /** The selected metric, seen as the single enumerated value the four flags stand for. */
  function ActiveMetric(f: MetricFlags): (r: Option<Metric>)
    requires AtMostOneShown(f)
    ensures forall m :: r == Some(m) <==> IsShown(f, m)
  {
    if f.showNPCKills then Some(NPCKills)
    else if f.showPodKills then Some(PodKills)
    else if f.showShipKills then Some(ShipKills)
    else if f.showShipJumps then Some(ShipJumps)
    else None
  }

  /** Selecting a metric makes it the only one shown, whatever was shown before. */
  lemma SelectingReplaces(f: MetricFlags, m: Metric)
    ensures AtMostOneShown(SetMetric(f, m, true))
    ensures ActiveMetric(SetMetric(f, m, true)) == Some(m)
  {
  }

  /** One setter call: which property is assigned and the value given. */
  datatype SetterCall = SetterCall(metric: Metric, value: bool)

  /** The flags after a sequence of setter calls, in order. */
  function ApplySetters(f: MetricFlags, calls: seq<SetterCall>): MetricFlags
    decreases |calls|
  {
    if |calls| == 0 then f
    else ApplySetters(SetMetric(f, calls[0].metric, calls[0].value), calls[1..])
  }

  /** No sequence of setter calls can leave two metrics shown. */
  lemma {:induction false} SettersKeepAtMostOne(f: MetricFlags, calls: seq<SetterCall>)
    requires AtMostOneShown(f)
    ensures AtMostOneShown(ApplySetters(f, calls))
    decreases |calls|
  {
    if |calls| > 0 {
      var g := SetMetric(f, calls[0].metric, calls[0].value);
      assert AtMostOneShown(g);
      SettersKeepAtMostOne(g, calls[1..]);
    }
  }

  /** From the initial flags, at most one metric is shown after any sequence of setter calls. */
  lemma FromStartAtMostOne(calls: seq<SetterCall>)
    ensures AtMostOneShown(ApplySetters(AllOff, calls))
  {
    SettersKeepAtMostOne(AllOff, calls);
  }

  /** Calibration factor of each metric (single-precision literals in the source, exact here). */
  function Weight(m: Metric): real {
    match m
    case NPCKills => 0.05
    case PodKills => 2.0
    case ShipKills => 8.0
    case ShipJumps => 0.1
  }

  function Counter(sys: StarSystem, m: Metric): int {
    match m
    case NPCKills => sys.npcKillsLastHour
    case PodKills => sys.podKillsLastHour
    case ShipKills => sys.shipKillsLastHour
    case ShipJumps => sys.jumpsLastHour
  }

  /**
   * The overlay size of `sys`: four successive tests, each shown flag
   * overwriting the value, starting from 0. With at most one flag shown it is
   * the selected metric's counter times the user scale times the metric's weight.
   */
  function DataScale(sys: StarSystem, f: MetricFlags, overlayScale: real): (r: real)
    ensures AtMostOneShown(f) ==> r == match ActiveMetric(f)
      case None => 0.0
      case Some(m) => Counter(sys, m) as real * overlayScale * Weight(m)
  {
    var d0 := 0.0;
    var d1 := if f.showNPCKills then sys.npcKillsLastHour as real * overlayScale * 0.05 else d0;
    var d2 := if f.showPodKills then sys.podKillsLastHour as real * overlayScale * 2.0 else d1;
    var d3 := if f.showShipKills then sys.shipKillsLastHour as real * overlayScale * 8.0 else d2;
    if f.showShipJumps then sys.jumpsLastHour as real * overlayScale * 0.1 else d3
  }
}
