/**
 The health scan: a Prometheus instant vector folded into maps of maps, and the verdict on a node.
 Models pkg/prometheus/client.go and the classification loop of internal/controller/gpu_node_discovery.go.
 */
module PrometheusClient {
  import opened Wrappers

  /** Metric names of the health table; any other series name is an OtherMetric. */
  datatype Metric =
    | GpuTemp | MemCopyUtil | FBUsage | EccSbeErrs | PowerUsage | GpuUtil | NvlinkBandwidth
    | OtherMetric(name: string)

  datatype Sample = Sample(node: string, gpu: string, metric: Metric, value: real)

  type Scan = map<string, map<string, map<Metric, real>>>

  datatype HealthRange = HealthRange(min: real, max: real)

  /** What the Prometheus API answers to the scan query. */
  datatype PromReply = QueryFailed | NotAVector | Vector(samples: seq<Sample>)

  /** The health table; looking up a metric outside it yields the zero range. */
  function HealthMetrics(metric: Metric): HealthRange {
    match metric
    case GpuTemp => HealthRange(35.0, 85.0)
    case MemCopyUtil => HealthRange(0.1, 0.6)
    case FBUsage => HealthRange(0.2, 0.7)
    case EccSbeErrs => HealthRange(0.0, 0.0)
    case PowerUsage => HealthRange(100.0, 250.0)
    case GpuUtil => HealthRange(0.3, 0.8)
    case NvlinkBandwidth => HealthRange(250.0, 400.0)
    case OtherMetric(_) => HealthRange(0.0, 0.0)
  }

  predicate InRange(metric: Metric, value: real) {
    HealthMetrics(metric).min <= value <= HealthMetrics(metric).max
  }

  /** The value of the last sample of a series in the vector. */
  function LastValue(vec: seq<Sample>, node: string, gpu: string, metric: Metric): (r: Option<real>)
    ensures r.Some? <==> exists s | s in vec :: s.node == node && s.gpu == gpu && s.metric == metric
  {
    if vec == [] then None
    else
      var s := vec[|vec| - 1];
      assert vec == vec[..|vec| - 1] + [s];
      if s.node == node && s.gpu == gpu && s.metric == metric then Some(s.value)
      else LastValue(vec[..|vec| - 1], node, gpu, metric)
  }

  lemma {:induction false} LastValueIsSampled(vec: seq<Sample>, node: string, gpu: string, metric: Metric)
    requires LastValue(vec, node, gpu, metric).Some?
    ensures Sample(node, gpu, metric, LastValue(vec, node, gpu, metric).value) in vec
  {
    var s := vec[|vec| - 1];
    if !(s.node == node && s.gpu == gpu && s.metric == metric) {
      LastValueIsSampled(vec[..|vec| - 1], node, gpu, metric);
    }
  }

  function ReadScan(scan: Scan, node: string, gpu: string, metric: Metric): Option<real> {
    if node in scan && gpu in scan[node] && metric in scan[node][gpu] then Some(scan[node][gpu][metric]) else None
  }

  /** The scan holds, for every series, the last value in the vector, and has no empty inner map. */
  ghost predicate Represents(scan: Scan, vec: seq<Sample>) {
    && (forall n, g, m :: ReadScan(scan, n, g, m) == LastValue(vec, n, g, m))
    && (forall n | n in scan :: scan[n] != map[])
    && (forall n, g | n in scan && g in scan[n] :: scan[n][g] != map[])
  }

  /** The effect of one loop iteration of the fold. */
  function Record(scan: Scan, s: Sample): Scan {
    var gpus := if s.node in scan then scan[s.node] else map[];
    var metrics := if s.gpu in gpus then gpus[s.gpu] else map[];
    scan[s.node := gpus[s.gpu := metrics[s.metric := s.value]]]
  }

  lemma RecordRepresents(scan: Scan, vec: seq<Sample>, s: Sample)
    requires Represents(scan, vec)
    ensures Represents(Record(scan, s), vec + [s])
  {
    var after := Record(scan, s);
    assert (vec + [s])[..|vec|] == vec;
    forall n, g, m
      ensures ReadScan(after, n, g, m) == LastValue(vec + [s], n, g, m)
    {
      assert ReadScan(scan, n, g, m) == LastValue(vec, n, g, m);
    }
    forall n, g | n in after && g in after[n]
      ensures after[n][g] != map[]
    {
      if n == s.node && g == s.gpu {
        assert s.metric in after[n][g];
      }
    }
    forall n | n in after
      ensures after[n] != map[]
    {
      if n == s.node {
        assert s.gpu in after[n];
      }
    }
  }

  /** The loop body: inner maps are made on demand. */
  method RecordSample(scan: Scan, sample: Sample) returns (r: Scan)
    ensures r == Record(scan, sample)
  {
    r := scan;
    if sample.node !in r {
      r := r[sample.node := map[]];
    }
    ghost var gpus := r[sample.node];
    if sample.gpu !in r[sample.node] {
      r := r[sample.node := r[sample.node][sample.gpu := map[]]];
    }
    ghost var metrics := r[sample.node][sample.gpu];
    r := r[sample.node := r[sample.node][sample.gpu := r[sample.node][sample.gpu][sample.metric := sample.value]]];
    assert r[sample.node] == gpus[sample.gpu := metrics[sample.metric := sample.value]];
  }

  method GetFullGPUClusterHealthCheck(reply: PromReply) returns (r: Result<Scan, ()>)
    ensures r.Ok? <==> reply.Vector?
    ensures r.Ok? ==> Represents(r.value, reply.samples)
  {
    if !reply.Vector? {
      return Err(());
    }
    var vec := reply.samples;
    var scan: Scan := map[];
    for i := 0 to |vec|
      invariant Represents(scan, vec[..i])
    {
      RecordRepresents(scan, vec[..i], vec[i]);
      assert vec[..i] + [vec[i]] == vec[..i + 1];
      scan := RecordSample(scan, vec[i]);
    }
    assert vec[..|vec|] == vec;
    return Ok(scan);
  }

  lemma ReadInside(scan: Scan, vec: seq<Sample>, node: string)
    requires Represents(scan, vec)
    ensures node in scan <==> exists s | s in vec :: s.node == node
  {
    if node in scan {
      var g :| g in scan[node];
      var m :| m in scan[node][g];
      assert ReadScan(scan, node, g, m).Some?;
      assert LastValue(vec, node, g, m).Some?;
    }
    if s :| s in vec && s.node == node {
      assert LastValue(vec, s.node, s.gpu, s.metric).Some?;
      assert ReadScan(scan, s.node, s.gpu, s.metric).Some?;
    }
  }

  /** The representation is unique, so the scan does not depend on how it was built. */
  lemma ScanIsDetermined(a: Scan, b: Scan, vec: seq<Sample>)
    requires Represents(a, vec) && Represents(b, vec)
    ensures a == b
  {
    forall n
      ensures n in a <==> n in b
    {
      ReadInside(a, vec, n);
      ReadInside(b, vec, n);
    }
    forall n | n in a
      ensures a[n] == b[n]
    {
      GpusIncluded(a, b, vec, n);
      GpusIncluded(b, a, vec, n);
      assert a[n].Keys == b[n].Keys;
      NodeScanIsDetermined(a, b, vec, n);
    }
  }

  lemma GpusIncluded(a: Scan, b: Scan, vec: seq<Sample>, n: string)
    requires Represents(a, vec) && Represents(b, vec) && n in a && n in b
    ensures forall g | g in a[n] :: g in b[n]
  {
    forall g | g in a[n]
      ensures g in b[n]
    {
      var m :| m in a[n][g];
      assert ReadScan(a, n, g, m) == LastValue(vec, n, g, m) == ReadScan(b, n, g, m);
    }
  }

  lemma NodeScanIsDetermined(a: Scan, b: Scan, vec: seq<Sample>, n: string)
    requires forall g, m :: ReadScan(a, n, g, m) == LastValue(vec, n, g, m)
    requires forall g, m :: ReadScan(b, n, g, m) == LastValue(vec, n, g, m)
    requires n in a && n in b && a[n].Keys == b[n].Keys
    ensures a[n] == b[n]
  {
    forall g | g in a[n]
      ensures a[n][g] == b[n][g]
    {
      GpuScanIsDetermined(a, b, vec, n, g);
    }
  }

  lemma GpuScanIsDetermined(a: Scan, b: Scan, vec: seq<Sample>, n: string, g: string)
    requires forall m :: ReadScan(a, n, g, m) == LastValue(vec, n, g, m)
    requires forall m :: ReadScan(b, n, g, m) == LastValue(vec, n, g, m)
    requires n in a && n in b && g in a[n] && g in b[n]
    ensures a[n][g] == b[n][g]
  {
    forall m
      ensures m in a[n][g] <==> m in b[n][g]
      ensures m in a[n][g] ==> a[n][g][m] == b[n][g][m]
    {
      assert ReadScan(a, n, g, m) == LastValue(vec, n, g, m) == ReadScan(b, n, g, m);
    }
    assert a[n][g].Keys == b[n][g].Keys;
  }

  // ----- the last sample, by position -----

  predicate SameSeries(a: Sample, b: Sample) {
    a.node == b.node && a.gpu == b.gpu && a.metric == b.metric
  }

  /** No later sample is of the same series. */
  ghost predicate IsLast(vec: seq<Sample>, i: nat)
    requires i < |vec|
  {
    forall j | i < j < |vec| :: !SameSeries(vec[j], vec[i])
  }

  /** The value of a series is that of its last sample, whatever stands before it. */
  lemma {:induction false} LastSampleWins(vec: seq<Sample>, i: nat)
    requires i < |vec| && IsLast(vec, i)
    ensures LastValue(vec, vec[i].node, vec[i].gpu, vec[i].metric) == Some(vec[i].value)
  {
    if i < |vec| - 1 {
      var rest := vec[..|vec| - 1];
      assert forall j | i < j < |rest| :: !SameSeries(vec[j], vec[i]);
      assert !SameSeries(vec[|vec| - 1], vec[i]);
      LastSampleWins(rest, i);
    }
  }

  /** Every sampled series has a last sample. */
  lemma {:induction false} LastSampleExists(vec: seq<Sample>, i: nat) returns (k: nat)
    requires i < |vec|
    ensures k < |vec| && SameSeries(vec[k], vec[i]) && IsLast(vec, k)
  {
    if SameSeries(vec[|vec| - 1], vec[i]) {
      k := |vec| - 1;
    } else {
      k := LastSampleExists(vec[..|vec| - 1], i);
    }
  }

  /** The healthy range of each metric; a metric outside the table is healthy at zero only. */
  lemma RangesExactly(v: real)
    ensures InRange(GpuTemp, v) <==> 35.0 <= v <= 85.0
    ensures InRange(MemCopyUtil, v) <==> 0.1 <= v <= 0.6
    ensures InRange(FBUsage, v) <==> 0.2 <= v <= 0.7
    ensures InRange(EccSbeErrs, v) <==> v == 0.0
    ensures InRange(PowerUsage, v) <==> 100.0 <= v <= 250.0
    ensures InRange(GpuUtil, v) <==> 0.3 <= v <= 0.8
    ensures InRange(NvlinkBandwidth, v) <==> 250.0 <= v <= 400.0
    ensures forall name :: InRange(OtherMetric(name), v) <==> v == 0.0
  {
  }
}
