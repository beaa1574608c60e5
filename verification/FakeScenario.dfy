/**
 The scenario generator and its agreement with the detector.
 Models weightedRand, generateMetrics and the per-node body of RunScenarioLoop in
 internal/provisioner/fake-scenario/scenario-manager.go, with the random draws as inputs and numbers as reals.
 */
module FakeScenario {
  import opened GpuNodeDiscovery
  import opened PrometheusClient
  import opened Wrappers

  /** The two random numbers of one metric: the event weight and the position in the chosen interval. */
  datatype Draw = Draw(weight: real, position: real)

  type Draws = (string, string, Metric) -> Draw

  const CHAOS: real := 0.005

  /** Healthy and chaos intervals of a metric, and ten to the number of printed decimals. */
  datatype Profile = Profile(minH: real, maxH: real, minC: real, maxC: real, scale: real)

  function ProfileOf(metric: Metric): Profile
    requires !metric.OtherMetric?
  {
    match metric
    case GpuTemp => Profile(35.0, 70.0, 85.0, 110.0, 1.0)
    case MemCopyUtil => Profile(0.1, 0.6, 0.8, 1.0, 100.0)
    case FBUsage => Profile(0.2, 0.7, 0.9, 0.99, 100.0)
    case EccSbeErrs => Profile(0.0, 0.0, 0.0, 3.0, 1.0)
    case PowerUsage => Profile(100.0, 250.0, 350.0, 500.0, 1.0)
    case GpuUtil => Profile(0.3, 0.8, 0.0, 1.0, 100.0)
    case NvlinkBandwidth => Profile(250.0, 400.0, 0.0, 80.0, 1.0)
  }

  predicate Chaotic(d: Draw) {
    d.weight <= CHAOS
  }

  ghost predicate InUnitInterval(d: Draw) {
    0.0 <= d.weight < 1.0 && 0.0 <= d.position < 1.0
  }

  function WeightedRand(p: Profile, d: Draw): real {
    if d.weight > CHAOS then p.minH + d.position * (p.maxH - p.minH)
    else p.minC + d.position * (p.maxC - p.minC)
  }

  /** Rounding to the nearest integer, halves to the even neighbour. */
  function RoundHalfEven(x: real): int {
    var low := x.Floor;
    var rest := x - low as real;
    if rest < 0.5 || (rest == 0.5 && low % 2 == 0) then low else low + 1
  }

  /** Rounding reaches an integer from half a unit below it, the half itself counting for even integers. */
  lemma RoundsToAtLeast(x: real, n: int)
    ensures RoundHalfEven(x) >= n <==> x > n as real - 0.5 || (x == n as real - 0.5 && n % 2 == 0)
  {
    var low := x.Floor;
    if low < n - 1 {
      assert x < (low + 1) as real <= n as real - 1.0;
    } else if low >= n {
      assert x >= n as real;
    }
  }

  lemma RoundingStaysBetween(lo: int, x: real, hi: int)
    requires lo as real <= x <= hi as real
    ensures lo <= RoundHalfEven(x) <= hi
  {
    RoundsToAtLeast(x, lo);
    RoundsToAtLeast(x, hi + 1);
  }

  /** The draw in units of the last printed decimal. */
  function Scaled(metric: Metric, d: Draw): real
    requires !metric.OtherMetric?
  {
    WeightedRand(ProfileOf(metric), d) * ProfileOf(metric).scale
  }

  /** The value that `%.0f` or `%.2f` prints. */
  function Reading(metric: Metric, d: Draw): real
    requires !metric.OtherMetric?
  {
    RoundHalfEven(Scaled(metric, d)) as real / ProfileOf(metric).scale
  }

  // ----- one metric -----

  /** The detector's range in printed units. */
  function Limits(metric: Metric): (int, int)
    requires !metric.OtherMetric?
  {
    match metric
    case GpuTemp => (35, 85)
    case MemCopyUtil => (10, 60)
    case FBUsage => (20, 70)
    case EccSbeErrs => (0, 0)
    case PowerUsage => (100, 250)
    case GpuUtil => (30, 80)
    case NvlinkBandwidth => (250, 400)
  }

  /** Printed values are on a grid that contains the ends of the detector's range. */
  lemma InRangeInUnits(metric: Metric, u: int)
    requires !metric.OtherMetric?
    ensures InRange(metric, u as real / ProfileOf(metric).scale) <==> Limits(metric).0 <= u <= Limits(metric).1
  {
  }

  /** A draw without chaos reads in the detector's range, for every metric. */
  lemma CalmReadingIsInRange(metric: Metric, d: Draw)
    requires !metric.OtherMetric? && InUnitInterval(d) && !Chaotic(d)
    ensures InRange(metric, Reading(metric, d))
  {
    hide RoundHalfEven, InRange;
    InRangeInUnits(metric, RoundHalfEven(Scaled(metric, d)));
    RoundingStaysBetween(Limits(metric).0, Scaled(metric, d), Limits(metric).1);
  }

  /** Metrics on which every chaos event shows. */
  predicate AlwaysShows(metric: Metric) {
    metric == MemCopyUtil || metric == FBUsage || metric == PowerUsage || metric == NvlinkBandwidth
  }

  /** When a chaos event shows, by the position drawn: the other three intervals overlap the healthy range. */
  predicate ChaosShows(metric: Metric, position: real) {
    match metric
    case GpuTemp => 25.0 * position >= 0.5
    case EccSbeErrs => 3.0 * position > 0.5
    case GpuUtil => 100.0 * position < 29.5 || 100.0 * position > 80.5
    case _ => true
  }

  /** A chaos draw reads out of range exactly when its position says so. */
  lemma ChaosReadingIsOutOfRangeExactly(metric: Metric, d: Draw)
    requires !metric.OtherMetric? && InUnitInterval(d) && Chaotic(d)
    ensures !InRange(metric, Reading(metric, d)) <==> ChaosShows(metric, d.position)
  {
    hide RoundHalfEven, InRange;
    var x := Scaled(metric, d);
    InRangeInUnits(metric, RoundHalfEven(x));
    RoundsToAtLeast(x, Limits(metric).0);
    RoundsToAtLeast(x, Limits(metric).1 + 1);
  }

  /** The values a metric can print, in units of the last decimal: without chaos, and with it. */
  function Printable(metric: Metric, chaotic: bool): (int, int)
    requires !metric.OtherMetric?
  {
    match metric
    case GpuTemp => if chaotic then (85, 110) else (35, 70)
    case MemCopyUtil => if chaotic then (80, 100) else (10, 60)
    case FBUsage => if chaotic then (90, 99) else (20, 70)
    case EccSbeErrs => if chaotic then (0, 3) else (0, 0)
    case PowerUsage => if chaotic then (350, 500) else (100, 250)
    case GpuUtil => if chaotic then (0, 100) else (30, 80)
    case NvlinkBandwidth => if chaotic then (0, 80) else (250, 400)
  }

  /** A draw is chaotic when its weight is at most five in a thousand; its position is one in the interval so chosen. */
  lemma ScaledIsAPoint(metric: Metric, d: Draw)
    requires !metric.OtherMetric?
    ensures var (lo, hi) := Printable(metric, d.weight <= 0.005);
            Scaled(metric, d) == lo as real + d.position * (hi - lo) as real
  {
  }

  lemma RoundsToPoint(x: real, u: int)
    requires u as real - 0.5 < x < u as real + 0.5
    ensures RoundHalfEven(x) == u
  {
    RoundsToAtLeast(x, u);
    RoundsToAtLeast(x, u + 1);
  }

  /** Exactly the values of the interval can be printed, ends included, though the upper end is never drawn. */
  lemma PrintedExactly(metric: Metric, chaotic: bool, u: int)
    requires !metric.OtherMetric?
    ensures (exists d: Draw ::
               InUnitInterval(d) && (d.weight <= 0.005) == chaotic && RoundHalfEven(Scaled(metric, d)) == u)
       <==> Printable(metric, chaotic).0 <= u <= Printable(metric, chaotic).1
  {
    hide RoundHalfEven, Scaled;
    var (lo, hi) := Printable(metric, chaotic);
    forall d: Draw | InUnitInterval(d) && (d.weight <= 0.005) == chaotic
      ensures lo <= RoundHalfEven(Scaled(metric, d)) <= hi
    {
      ScaledIsAPoint(metric, d);
      PointIsBetween(lo, hi, d.position);
      RoundingStaysBetween(lo, Scaled(metric, d), hi);
    }
    if lo <= u <= hi {
      var d := Draw(if chaotic then 0.0 else 0.5, PositionOf(lo, hi, u));
      ScaledIsAPoint(metric, d);
      PositionHits(lo, hi, u);
      RoundsToPoint(Scaled(metric, d), u);
    }
  }

  lemma PointIsBetween(lo: int, hi: int, position: real)
    requires lo <= hi && 0.0 <= position < 1.0
    ensures lo as real <= lo as real + position * (hi - lo) as real <= hi as real
  {
  }

  /** A position from which the value is printed; for the upper end one a quarter of a unit below it. */
  function PositionOf(lo: int, hi: int, u: int): real {
    if lo == hi then 0.0
    else if u < hi then (u - lo) as real / (hi - lo) as real
    else ((hi - lo) as real - 0.25) / (hi - lo) as real
  }

  lemma PositionHits(lo: int, hi: int, u: int)
    requires lo <= u <= hi
    ensures var position := PositionOf(lo, hi, u);
            && 0.0 <= position < 1.0
            && u as real - 0.5 < lo as real + position * (hi - lo) as real < u as real + 0.5
  {
    if lo < hi {
      FractionIsBelowOne(if u < hi then (u - lo) as real else (hi - lo) as real - 0.25, (hi - lo) as real);
    }
  }

  lemma FractionIsBelowOne(a: real, b: real)
    requires 0.0 <= a < b
    ensures 0.0 <= a / b < 1.0 && (a / b) * b == a
  {
    var q := a / b;
    assert q * b == a;
    assert q >= 1.0 ==> q * b >= b;
    assert q < 0.0 ==> q * b < 0.0;
  }

  // ----- a tick over the cluster -----

  const METRICS: seq<Metric> := [GpuTemp, MemCopyUtil, FBUsage, EccSbeErrs, PowerUsage, GpuUtil, NvlinkBandwidth]

  /** A tick has a sample of every metric of the health table. */
  lemma EveryMetricIsGenerated(metric: Metric)
    ensures metric in METRICS <==> !metric.OtherMetric?
  {
  }

  /** The samples of a registered cluster: for every node, GPU id and metric the printed draw, and nothing else. */
  ghost predicate IsTick(vec: seq<Sample>, cluster: map<string, seq<string>>, draws: Draws) {
    forall s: Sample :: s in vec <==>
      && s.node in cluster && s.gpu in cluster[s.node] && s.metric in METRICS
      && s.value == Reading(s.metric, draws(s.node, s.gpu, s.metric))
  }

  function GenerateMetrics(node: string, gpu: string, draws: Draws): (r: seq<Sample>)
    ensures forall s :: s in r <==>
      s.node == node && s.gpu == gpu && s.metric in METRICS && s.value == Reading(s.metric, draws(node, gpu, s.metric))
  {
    var sampleOf := (m: Metric) requires !m.OtherMetric? => Sample(node, gpu, m, Reading(m, draws(node, gpu, m)));
    [sampleOf(GpuTemp), sampleOf(MemCopyUtil), sampleOf(FBUsage), sampleOf(EccSbeErrs),
     sampleOf(PowerUsage), sampleOf(GpuUtil), sampleOf(NvlinkBandwidth)]
  }

  ghost predicate SamplesOfNode(samples: seq<Sample>, node: string, gpus: seq<string>, draws: Draws) {
    forall s: Sample :: s in samples <==>
      && s.node == node && s.gpu in gpus && s.metric in METRICS
      && s.value == Reading(s.metric, draws(node, s.gpu, s.metric))
  }

  /** The inner loop: the metrics of one node. */
  method NodeMetrics(node: string, gpus: seq<string>, draws: Draws) returns (nodeMetrics: seq<Sample>)
    ensures SamplesOfNode(nodeMetrics, node, gpus, draws)
  {
    nodeMetrics := [];
    for i := 0 to |gpus|
      invariant SamplesOfNode(nodeMetrics, node, gpus[..i], draws)
    {
      assert gpus[..i + 1] == gpus[..i] + [gpus[i]];
      nodeMetrics := nodeMetrics + GenerateMetrics(node, gpus[i], draws);
    }
    assert gpus[..|gpus|] == gpus;
  }

  /** The body of the scenario loop, over the nodes in any order, with the samples as the exporter serves them. */
  method Tick(cluster: map<string, seq<string>>, draws: Draws) returns (vec: seq<Sample>)
    ensures IsTick(vec, cluster, draws)
  {
    vec := [];
    var nodes := cluster.Keys;
    ghost var done: map<string, seq<string>> := map[];
    while nodes != {}
      invariant nodes <= cluster.Keys && done == map n | n in cluster.Keys - nodes :: cluster[n]
      invariant IsTick(vec, done, draws)
      decreases |nodes|
    {
      var node :| node in nodes;
      var nodeMetrics := NodeMetrics(node, cluster[node], draws);
      TickGrows(vec, done, draws, node, cluster[node], nodeMetrics);
      vec := vec + nodeMetrics;
      nodes := nodes - {node};
      done := done[node := cluster[node]];
    }
    assert done == cluster;
  }

  lemma TickGrows(
    vec: seq<Sample>, done: map<string, seq<string>>, draws: Draws, node: string, gpus: seq<string>, more: seq<Sample>)
    requires IsTick(vec, done, draws) && node !in done && SamplesOfNode(more, node, gpus, draws)
    ensures IsTick(vec + more, done[node := gpus], draws)
  {
  }

  /** The value a node shows for a series is the printed draw, wherever its sample stands in the vector. */
  lemma TickValue(vec: seq<Sample>, cluster: map<string, seq<string>>, draws: Draws, s: Sample)
    requires IsTick(vec, cluster, draws) && s in vec
    ensures LastValue(vec, s.node, s.gpu, s.metric) == Some(Reading(s.metric, draws(s.node, s.gpu, s.metric)))
  {
    LastValueIsSampled(vec, s.node, s.gpu, s.metric);
  }

  /** The detector calls a node unhealthy exactly when one of its readings of the tick is out of range. */
  lemma VerdictOfTick(vec: seq<Sample>, cluster: map<string, seq<string>>, draws: Draws, node: string)
    requires IsTick(vec, cluster, draws)
    ensures VerdictOf(vec, node) == Silent <==> node !in cluster || cluster[node] == []
    ensures VerdictOf(vec, node) == Unhealthy <==>
      exists gpu, m | node in cluster && gpu in cluster[node] && m in METRICS ::
        !InRange(m, Reading(m, draws(node, gpu, m)))
  {
    if node in cluster && cluster[node] != [] {
      var g := cluster[node][0];
      assert Sample(node, g, METRICS[0], Reading(METRICS[0], draws(node, g, METRICS[0]))) in vec;
    }
    forall s | s in vec
      ensures LastValue(vec, s.node, s.gpu, s.metric) == Some(s.value)
    {
      TickValue(vec, cluster, draws, s);
    }
    if gpu, m :|
      node in cluster && gpu in cluster[node] && m in METRICS && !InRange(m, Reading(m, draws(node, gpu, m)))
    {
      assert Sample(node, gpu, m, Reading(m, draws(node, gpu, m))) in vec;
    }
  }

  ghost predicate FairDraws(draws: Draws) {
    forall n, g, m :: InUnitInterval(draws(n, g, m))
  }

  /**
   Generator and detector agree: a node with a registered GPU is healthy after a tick exactly when every chaos event
   that hit it happens not to show. So no chaos means healthy, and chaos on memory copy, frame buffer, power or
   NVLink of any one GPU means unhealthy.
   */
  lemma GeneratorAndDetectorAgree(vec: seq<Sample>, cluster: map<string, seq<string>>, draws: Draws, node: string)
    requires IsTick(vec, cluster, draws) && FairDraws(draws) && node in cluster && cluster[node] != []
    ensures VerdictOf(vec, node) == Healthy <==>
      forall g, m | g in cluster[node] && m in METRICS ::
        Chaotic(draws(node, g, m)) ==> !ChaosShows(m, draws(node, g, m).position)
  {
    VerdictOfTick(vec, cluster, draws, node);
    forall g, m | g in cluster[node] && m in METRICS
      ensures InRange(m, Reading(m, draws(node, g, m)))
         <==> (Chaotic(draws(node, g, m)) ==> !ChaosShows(m, draws(node, g, m).position))
    {
      if Chaotic(draws(node, g, m)) {
        ChaosReadingIsOutOfRangeExactly(m, draws(node, g, m));
      } else {
        CalmReadingIsInRange(m, draws(node, g, m));
      }
    }
  }

  lemma CalmTickIsHealthy(vec: seq<Sample>, cluster: map<string, seq<string>>, draws: Draws, node: string)
    requires IsTick(vec, cluster, draws) && FairDraws(draws) && node in cluster && cluster[node] != []
    requires forall g, m | g in cluster[node] && m in METRICS :: !Chaotic(draws(node, g, m))
    ensures VerdictOf(vec, node) == Healthy
  {
    GeneratorAndDetectorAgree(vec, cluster, draws, node);
  }

  lemma ChaosIsDetected(
    vec: seq<Sample>, cluster: map<string, seq<string>>, draws: Draws, node: string, gpu: string, metric: Metric)
    requires IsTick(vec, cluster, draws) && FairDraws(draws) && node in cluster && gpu in cluster[node]
    requires AlwaysShows(metric) && Chaotic(draws(node, gpu, metric))
    ensures VerdictOf(vec, node) == Unhealthy
  {
    GeneratorAndDetectorAgree(vec, cluster, draws, node);
    VerdictOfTick(vec, cluster, draws, node);
    assert metric in METRICS;
  }
}
