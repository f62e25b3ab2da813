/**
 * `MetricsServerExporter.collect`: one timing metric, then the node and the
 * pod-container series, built from the result of `kube_metrics`. `collect`
 * is a generator, so a failure part-way leaves the metrics already yielded.
 */
module Collector {
  import opened Wrappers
  import opened Config
  import opened Quantity
  import opened Credentials
  import opened MetricsClient

  type Labels = seq<(string, string)>

  datatype Sample = Sample(name: string, labels: Labels, value: real)

  /** A gauge: its name, its help text and the samples added to it. */
  datatype Metric = Metric(name: string, documentation: string, samples: seq<Sample>)

  const ResponseTimeName := "kube_metrics_server_response_time"
  const NodesMemName := "kube_metrics_server_nodes_mem"
  const NodesCpuName := "kube_metrics_server_nodes_cpu"
  const PodsMemName := "kube_metrics_server_pods_mem"
  const PodsCpuName := "kube_metrics_server_pods_cpu"

  /** The order in which `collect` yields its metrics. */
  const MetricOrder := [ResponseTimeName, NodesMemName, NodesCpuName, PodsMemName, PodsCpuName]

  /** What stops `collect`: the exception that escapes it. */
  datatype Failure =
    | TransportError(url: string)  // a GET of `kube_metrics` raised
    | InvalidLiteral(remainder: string)  // `int()` rejected a usage string with its letters deleted
    | PodDataIsNone  // `None.get('items', [])`: namespace mode fetched no pods

  /** The metrics yielded, and the exception that ended the generator early, if any. */
  datatype CollectOutcome = CollectOutcome(yielded: seq<Metric>, failure: Option<Failure>)

  datatype Resource = Cpu | Memory

  function Raw(u: Usage, res: Resource): string {
    match res
    case Cpu => u.cpu
    case Memory => u.memory
  }

  /** The parsed value of a usage string; only consulted once every string is known to parse. */
  function Amount(raw: string): real {
    match Parse(raw)
    case Ok(n) => n as real
    case Err(_) => 0.0
  }

  predicate Parses(u: Usage) {
    Parse(u.cpu).Ok? && Parse(u.memory).Ok?
  }

  /** The malformed string `collect` trips over in a usage: cpu is parsed before memory. */
  function BadQuantity(u: Usage): Option<string> {
    if Parse(u.cpu).Err? then Some(u.cpu)
    else if Parse(u.memory).Err? then Some(u.memory)
    else None
  }

  // ----- nodes -----

  function NodeSample(name: string, n: NodeMetrics, res: Resource): Sample {
    Sample(name, [("instance", n.name)], Amount(Raw(n.usage, res)))
  }

  function NodeSeries(nodes: seq<NodeMetrics>, res: Resource): seq<Sample> {
    var name := if res == Cpu then NodesCpuName else NodesMemName;
    seq(|nodes|, i requires 0 <= i < |nodes| => NodeSample(name, nodes[i], res))
  }

  /** The first malformed usage string among the nodes, in loop order. */
  function FirstBadNode(nodes: seq<NodeMetrics>): Option<string> {
    if nodes == [] then None
    else if BadQuantity(nodes[0].usage).Some? then BadQuantity(nodes[0].usage)
    else FirstBadNode(nodes[1..])
  }

  lemma {:induction false} FirstBadNodeAppend(a: seq<NodeMetrics>, b: seq<NodeMetrics>)
    ensures FirstBadNode(a + b) == if FirstBadNode(a).Some? then FirstBadNode(a) else FirstBadNode(b)
  {
    if a == [] {
      assert a + b == b;
    } else {
      assert (a + b)[1..] == a[1..] + b;
      FirstBadNodeAppend(a[1..], b);
    }
  }

  lemma {:induction false} FirstBadNodeNoneIff(nodes: seq<NodeMetrics>)
    ensures FirstBadNode(nodes).None? <==> forall i :: 0 <= i < |nodes| ==> Parses(nodes[i].usage)
  {
    if nodes != [] {
      FirstBadNodeNoneIff(nodes[1..]);
      assert forall i :: 0 < i < |nodes| ==> nodes[1..][i - 1] == nodes[i];
    }
  }

  // ----- pods -----

  /** One container of one pod, with the names its samples are labelled by. */
  datatype Row = Row(podName: string, podNamespace: string, container: ContainerMetrics)

  function RowsOf(p: PodMetrics): seq<Row> {
    seq(|p.containers|, j requires 0 <= j < |p.containers| => Row(p.name, p.namespace, p.containers[j]))
  }

  /** Every container of every pod, in the order the two loops visit them. */
  function ContainerRows(pods: seq<PodMetrics>): seq<Row> {
    if pods == [] then [] else RowsOf(pods[0]) + ContainerRows(pods[1..])
  }

  /** `any(name in self.names_blacklist for name in names)`. */
  function AnyListed(names: seq<string>, blacklist: seq<string>): (listed: bool)
    ensures listed <==> exists x :: x in names && x in blacklist
  {
    exists i :: 0 <= i < |names| && names[i] in blacklist
  }

  /** The blacklist test of a container record, over its container, pod and namespace names. */
  function Blacklisted(r: Row, blacklist: seq<string>): (listed: bool)
    ensures listed <==> r.container.name in blacklist || r.podName in blacklist || r.podNamespace in blacklist
  {
    AnyListed([r.container.name, r.podName, r.podNamespace], blacklist)
  }

  function PodLabels(r: Row): Labels {
    [("pod_name", r.podName), ("pod_namespace", r.podNamespace), ("pod_container_name", r.container.name)]
  }

  function PodSample(r: Row, res: Resource): Sample {
    Sample(if res == Cpu then PodsCpuName else PodsMemName, PodLabels(r), Amount(Raw(r.container.usage, res)))
  }

  /** The samples of one resource for the rows that pass the blacklist, in order. */
  function PodSeries(rows: seq<Row>, blacklist: seq<string>, res: Resource): seq<Sample> {
    if rows == [] then []
    else (if Blacklisted(rows[0], blacklist) then [] else [PodSample(rows[0], res)]) + PodSeries(rows[1..], blacklist, res)
  }

  function FirstBadRow(rows: seq<Row>): Option<string> {
    if rows == [] then None
    else if BadQuantity(rows[0].container.usage).Some? then BadQuantity(rows[0].container.usage)
    else FirstBadRow(rows[1..])
  }

  lemma {:induction false} FirstBadRowAppend(a: seq<Row>, b: seq<Row>)
    ensures FirstBadRow(a + b) == if FirstBadRow(a).Some? then FirstBadRow(a) else FirstBadRow(b)
  {
    if a == [] {
      assert a + b == b;
    } else {
      assert (a + b)[1..] == a[1..] + b;
      FirstBadRowAppend(a[1..], b);
    }
  }

  lemma {:induction false} FirstBadRowNoneIff(rows: seq<Row>)
    ensures FirstBadRow(rows).None? <==> forall i :: 0 <= i < |rows| ==> Parses(rows[i].container.usage)
  {
    if rows != [] {
      FirstBadRowNoneIff(rows[1..]);
      assert forall i :: 0 < i < |rows| ==> rows[1..][i - 1] == rows[i];
    }
  }

  lemma {:induction false} PodSeriesAppend(a: seq<Row>, b: seq<Row>, blacklist: seq<string>, res: Resource)
    ensures PodSeries(a + b, blacklist, res) == PodSeries(a, blacklist, res) + PodSeries(b, blacklist, res)
  {
    if a == [] {
      assert a + b == b;
    } else {
      assert (a + b)[1..] == a[1..] + b;
      PodSeriesAppend(a[1..], b, blacklist, res);
    }
  }

  // ----- the generator's outcome -----

  /** The timing metric: one sample, the elapsed seconds, labelled with the API URL plus `/metrics.k8s.io`. */
  function TimingMetric(ex: Exporter, elapsed: real): (m: Metric)
    ensures m.name == ResponseTimeName && |m.samples| == 1
    ensures m.samples[0].name == m.name && m.samples[0].value == elapsed
    ensures |m.samples[0].labels| == 1 && m.samples[0].labels[0].0 == "api_url"
    ensures var url := m.samples[0].labels[0].1;
      |url| == |ex.apiUrl| + |"/metrics.k8s.io"| &&
      url[..|ex.apiUrl|] == ex.apiUrl && url[|ex.apiUrl|..] == "/metrics.k8s.io"
  {
    Metric(ResponseTimeName, "Metrics Server API Response Time",
      [Sample(ResponseTimeName, [("api_url", ex.apiUrl + "/metrics.k8s.io")], elapsed)])
  }

  function NodeMetricsPair(nodes: seq<NodeMetrics>): seq<Metric> {
    [Metric(NodesMemName, "Metrics Server Nodes Memory", NodeSeries(nodes, Memory)),
     Metric(NodesCpuName, "Metrics Server Nodes CPU", NodeSeries(nodes, Cpu))]
  }

  function PodMetricsPair(rows: seq<Row>, blacklist: seq<string>): seq<Metric> {
    [Metric(PodsMemName, "Metrics Server Pods Memory", PodSeries(rows, blacklist, Memory)),
     Metric(PodsCpuName, "Metrics Server Pods CPU", PodSeries(rows, blacklist, Cpu))]
  }

  /** What `list(collect())` would see, given what `kube_metrics` returned or raised. */
  function CollectOutcomeOf(ex: Exporter, fetched: FetchOutcome, elapsed: real): (out: CollectOutcome)
    ensures fetched.Raised? ==> out == CollectOutcome([], Some(TransportError(fetched.url)))
    ensures fetched.Fetched? ==> |out.yielded| >= 1 && out.yielded[0] == TimingMetric(ex, elapsed)
    ensures |out.yielded| == 0 || |out.yielded| == 1 || |out.yielded| == 3 || |out.yielded| == 5
    ensures out.failure.None? <==> |out.yielded| == 5
  {
    match fetched
    case Raised(url) => CollectOutcome([], Some(TransportError(url)))
    case Fetched(f) =>
      var timing := [TimingMetric(ex, elapsed)];
      match FirstBadNode(f.nodes)
      case Some(q) => CollectOutcome(timing, Some(InvalidLiteral(StripLetters(q))))
      case None =>
        var withNodes := timing + NodeMetricsPair(f.nodes);
        match f.pods
        case None => CollectOutcome(withNodes, Some(PodDataIsNone))
        case Some(pods) =>
          match FirstBadRow(ContainerRows(pods))
          case Some(q) => CollectOutcome(withNodes, Some(InvalidLiteral(StripLetters(q))))
          case None => CollectOutcome(withNodes + PodMetricsPair(ContainerRows(pods), ex.namesBlacklist), None)
  }

  /** Extending the nodes by one extends each series by that node's sample. */
  lemma NodeSeriesSnoc(nodes: seq<NodeMetrics>, i: nat, res: Resource)
    requires i < |nodes|
    ensures NodeSeries(nodes[..i + 1], res) ==
      NodeSeries(nodes[..i], res) + [NodeSample(if res == Cpu then NodesCpuName else NodesMemName, nodes[i], res)]
  {
    var longer := NodeSeries(nodes[..i + 1], res);
    var extended := NodeSeries(nodes[..i], res) + [NodeSample(if res == Cpu then NodesCpuName else NodesMemName, nodes[i], res)];
    assert |longer| == |extended|;
    forall k | 0 <= k < |longer|
      ensures longer[k] == extended[k]
    {
      if k < i {
        assert nodes[..i + 1][k] == nodes[..i][k];
      }
    }
  }

  /** A node after a clean prefix that holds a malformed string is the first bad one. */
  lemma FirstBadNodeAt(nodes: seq<NodeMetrics>, i: nat)
    requires i < |nodes| && FirstBadNode(nodes[..i]).None?
    requires BadQuantity(nodes[i].usage).Some?
    ensures FirstBadNode(nodes) == BadQuantity(nodes[i].usage)
  {
    assert nodes[..i] + nodes[i..] == nodes;
    FirstBadNodeAppend(nodes[..i], nodes[i..]);
    assert nodes[i..][0] == nodes[i];
  }

  lemma NodeStep(nodes: seq<NodeMetrics>, i: nat)
    requires i < |nodes| && FirstBadNode(nodes[..i]).None?
    requires BadQuantity(nodes[i].usage).None?
    ensures FirstBadNode(nodes[..i + 1]).None?
  {
    assert nodes[..i + 1] == nodes[..i] + [nodes[i]];
    FirstBadNodeAppend(nodes[..i], [nodes[i]]);
  }

  /** The node loop of `collect`: both series, or the first malformed string's failure. */
  method BuildNodeSeries(nodes: seq<NodeMetrics>)
    returns (nodesMem: seq<Sample>, nodesCpu: seq<Sample>, failure: Option<Failure>)
    ensures failure == (match FirstBadNode(nodes) case Some(q) => Some(InvalidLiteral(StripLetters(q))) case None => None)
    ensures failure.None? ==> nodesMem == NodeSeries(nodes, Memory) && nodesCpu == NodeSeries(nodes, Cpu)
  {
    nodesMem, nodesCpu := [], [];
    var i := 0;
    while i < |nodes|
      invariant 0 <= i <= |nodes|
      invariant FirstBadNode(nodes[..i]).None?
      invariant nodesCpu == NodeSeries(nodes[..i], Cpu)
      invariant nodesMem == NodeSeries(nodes[..i], Memory)
    {
      var node := nodes[i];
      var cpu := Parse(node.usage.cpu);
      if cpu.Err? {
        FirstBadNodeAt(nodes, i);
        return nodesMem, nodesCpu, Some(InvalidLiteral(cpu.error));
      }
      var mem := Parse(node.usage.memory);
      if mem.Err? {
        FirstBadNodeAt(nodes, i);
        return nodesMem, nodesCpu, Some(InvalidLiteral(mem.error));
      }
      NodeStep(nodes, i);
      NodeSeriesSnoc(nodes, i, Cpu);
      NodeSeriesSnoc(nodes, i, Memory);
      assert NodeSample(NodesCpuName, node, Cpu) == Sample(NodesCpuName, [("instance", node.name)], cpu.value as real);
      assert NodeSample(NodesMemName, node, Memory) == Sample(NodesMemName, [("instance", node.name)], mem.value as real);
      nodesCpu := nodesCpu + [Sample(NodesCpuName, [("instance", node.name)], cpu.value as real)];
      nodesMem := nodesMem + [Sample(NodesMemName, [("instance", node.name)], mem.value as real)];
      i := i + 1;
    }
    assert nodes[..i] == nodes;
    failure := None;
  }

  /** Stopping at row `j`: the rows before it parse, so its malformed string is the first one. */
  lemma FirstBadRowAt(rows: seq<Row>, j: nat)
    requires j < |rows| && FirstBadRow(rows[..j]).None?
    requires BadQuantity(rows[j].container.usage).Some?
    ensures FirstBadRow(rows) == BadQuantity(rows[j].container.usage)
  {
    assert rows[..j] + rows[j..] == rows;
    FirstBadRowAppend(rows[..j], rows[j..]);
    assert rows[j..][0] == rows[j];
  }

  /** Passing row `j` once it parses. */
  lemma RowStep(rows: seq<Row>, j: nat)
    requires j < |rows| && FirstBadRow(rows[..j]).None?
    requires BadQuantity(rows[j].container.usage).None?
    ensures FirstBadRow(rows[..j + 1]).None?
  {
    assert rows[..j + 1] == rows[..j] + [rows[j]];
    FirstBadRowAppend(rows[..j], [rows[j]]);
  }

  /** Row `j` contributes a sample to a series iff it is not blacklisted. */
  lemma PodSeriesStep(rows: seq<Row>, j: nat, blacklist: seq<string>, res: Resource)
    requires j < |rows|
    ensures PodSeries(rows[..j + 1], blacklist, res) ==
      PodSeries(rows[..j], blacklist, res) + (if Blacklisted(rows[j], blacklist) then [] else [PodSample(rows[j], res)])
  {
    assert rows[..j + 1] == rows[..j] + [rows[j]];
    PodSeriesAppend(rows[..j], [rows[j]], blacklist, res);
  }

  /**
   * The blacklist test and the two appends for one container whose usage
   * strings parsed to `cpu` and `memory`.
   */
  method AddContainerSamples(r: Row, blacklist: seq<string>, cpu: nat, memory: nat, memBefore: seq<Sample>, cpuBefore: seq<Sample>)
    returns (podsMem: seq<Sample>, podsCpu: seq<Sample>)
    requires Parse(r.container.usage.cpu) == Ok(cpu) && Parse(r.container.usage.memory) == Ok(memory)
    ensures podsMem == memBefore + (if Blacklisted(r, blacklist) then [] else [PodSample(r, Memory)])
    ensures podsCpu == cpuBefore + (if Blacklisted(r, blacklist) then [] else [PodSample(r, Cpu)])
  {
    podsMem, podsCpu := memBefore, cpuBefore;
    var names := [r.container.name, r.podName, r.podNamespace];
    if !AnyListed(names, blacklist) {
      var labels := [("pod_name", r.podName), ("pod_namespace", r.podNamespace), ("pod_container_name", r.container.name)];
      podsCpu := podsCpu + [Sample(PodsCpuName, labels, cpu as real)];
      podsMem := podsMem + [Sample(PodsMemName, labels, memory as real)];
    }
  }

  /** The container loop for one pod: its kept samples appended, or the first malformed string's failure. */
  method AddPodSamples(pod: PodMetrics, blacklist: seq<string>, memBefore: seq<Sample>, cpuBefore: seq<Sample>)
    returns (podsMem: seq<Sample>, podsCpu: seq<Sample>, failure: Option<Failure>)
    ensures failure == (match FirstBadRow(RowsOf(pod)) case Some(q) => Some(InvalidLiteral(StripLetters(q))) case None => None)
    ensures failure.None? ==>
      podsMem == memBefore + PodSeries(RowsOf(pod), blacklist, Memory) &&
      podsCpu == cpuBefore + PodSeries(RowsOf(pod), blacklist, Cpu)
  {
    podsMem, podsCpu := memBefore, cpuBefore;
    ghost var rows := RowsOf(pod);
    var j := 0;
    while j < |pod.containers|
      invariant 0 <= j <= |pod.containers|
      invariant FirstBadRow(rows[..j]).None?
      invariant podsCpu == cpuBefore + PodSeries(rows[..j], blacklist, Cpu)
      invariant podsMem == memBefore + PodSeries(rows[..j], blacklist, Memory)
    {
      var container := pod.containers[j];
      assert rows[j] == Row(pod.name, pod.namespace, container);
      var cpu := Parse(container.usage.cpu);
      if cpu.Err? {
        FirstBadRowAt(rows, j);
        return podsMem, podsCpu, Some(InvalidLiteral(cpu.error));
      }
      var mem := Parse(container.usage.memory);
      if mem.Err? {
        FirstBadRowAt(rows, j);
        return podsMem, podsCpu, Some(InvalidLiteral(mem.error));
      }
      RowStep(rows, j);
      PodSeriesStep(rows, j, blacklist, Cpu);
      PodSeriesStep(rows, j, blacklist, Memory);
      podsMem, podsCpu := AddContainerSamples(Row(pod.name, pod.namespace, container), blacklist, cpu.value, mem.value, podsMem, podsCpu);
      j := j + 1;
    }
    assert rows[..j] == rows;
    failure := None;
  }

  /** Splitting the rows of `pods` at pod `k`. */
  lemma ContainerRowsSplit(pods: seq<PodMetrics>, k: nat)
    requires k < |pods|
    ensures ContainerRows(pods[k..]) == RowsOf(pods[k]) + ContainerRows(pods[k + 1..])
  {
    assert pods[k..][1..] == pods[k + 1..];
  }

  /** Stopping inside pod `k`: everything visited before it parsed. */
  lemma FirstBadRowInPod(pods: seq<PodMetrics>, k: nat, done: seq<Row>)
    requires k < |pods| && ContainerRows(pods) == done + ContainerRows(pods[k..])
    requires FirstBadRow(done).None? && FirstBadRow(RowsOf(pods[k])).Some?
    ensures FirstBadRow(ContainerRows(pods)) == FirstBadRow(RowsOf(pods[k]))
  {
    ContainerRowsSplit(pods, k);
    FirstBadRowAppend(done, ContainerRows(pods[k..]));
    FirstBadRowAppend(RowsOf(pods[k]), ContainerRows(pods[k + 1..]));
  }

  /** Passing pod `k` once all its containers parsed. */
  lemma PodStep(pods: seq<PodMetrics>, k: nat, done: seq<Row>)
    requires k < |pods| && ContainerRows(pods) == done + ContainerRows(pods[k..])
    requires FirstBadRow(done).None? && FirstBadRow(RowsOf(pods[k])).None?
    ensures ContainerRows(pods) == (done + RowsOf(pods[k])) + ContainerRows(pods[k + 1..])
    ensures FirstBadRow(done + RowsOf(pods[k])).None?
  {
    var here, after := RowsOf(pods[k]), ContainerRows(pods[k + 1..]);
    ContainerRowsSplit(pods, k);
    assert ContainerRows(pods) == done + (here + after);
    assert done + (here + after) == (done + here) + after;
    FirstBadRowAppend(done, here);
  }

  /** The pod loop of `collect`: both series, or the first malformed string's failure. */
  method BuildPodSeries(pods: seq<PodMetrics>, blacklist: seq<string>)
    returns (podsMem: seq<Sample>, podsCpu: seq<Sample>, failure: Option<Failure>)
    ensures failure == (match FirstBadRow(ContainerRows(pods)) case Some(q) => Some(InvalidLiteral(StripLetters(q))) case None => None)
    ensures failure.None? ==>
      podsMem == PodSeries(ContainerRows(pods), blacklist, Memory) &&
      podsCpu == PodSeries(ContainerRows(pods), blacklist, Cpu)
  {
    podsMem, podsCpu := [], [];
    ghost var done: seq<Row> := [];
    var k := 0;
    while k < |pods|
      invariant 0 <= k <= |pods|
      invariant ContainerRows(pods) == done + ContainerRows(pods[k..])
      invariant FirstBadRow(done).None?
      invariant podsCpu == PodSeries(done, blacklist, Cpu)
      invariant podsMem == PodSeries(done, blacklist, Memory)
    {
      var pod := pods[k];
      podsMem, podsCpu, failure := AddPodSamples(pod, blacklist, podsMem, podsCpu);
      if failure.Some? {
        FirstBadRowInPod(pods, k, done);
        return;
      }
      PodStep(pods, k, done);
      PodSeriesAppend(done, RowsOf(pod), blacklist, Cpu);
      PodSeriesAppend(done, RowsOf(pod), blacklist, Memory);
      done := done + RowsOf(pod);
      k := k + 1;
    }
    assert pods[k..] == [];
    assert done + [] == done;
    failure := None;
  }

  /**
   * `collect`: fetch, yield the timing metric, then fill the node series and
   * the pod series in lockstep, parsing both quantities of a record before the
   * blacklist is consulted. The elapsed wall-clock time around the fetch is an
   * input.
   */
  method Collect(ex: Exporter, env: Env, files: Files, server: Server, elapsed: real)
    returns (out: CollectOutcome)
    ensures out == CollectOutcomeOf(ex, OutcomeOf(ex, server), elapsed)
  {
    var fetched, _ := KubeMetrics(ex, env, files, server);
    if fetched.Raised? {
      return CollectOutcome([], Some(TransportError(fetched.url)));
    }
    var metrics := fetched.result;
    var yielded := [TimingMetric(ex, elapsed)];
    var nodesMem, nodesCpu, nodeFailure := BuildNodeSeries(metrics.nodes);
    if nodeFailure.Some? {
      return CollectOutcome(yielded, nodeFailure);
    }
    yielded := yielded + [Metric(NodesMemName, "Metrics Server Nodes Memory", nodesMem),
                          Metric(NodesCpuName, "Metrics Server Nodes CPU", nodesCpu)];
    if metrics.pods.None? {
      return CollectOutcome(yielded, Some(PodDataIsNone));
    }
    var podsMem, podsCpu, podFailure := BuildPodSeries(metrics.pods.value, ex.namesBlacklist);
    if podFailure.Some? {
      return CollectOutcome(yielded, podFailure);
    }
    yielded := yielded + [Metric(PodsMemName, "Metrics Server Pods Memory", podsMem),
                          Metric(PodsCpuName, "Metrics Server Pods CPU", podsCpu)];
    out := CollectOutcome(yielded, None);
  }
}
