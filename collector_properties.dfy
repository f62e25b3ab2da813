/**
 * What `collect` promises about its output, stated over CollectOutcomeOf and
 * the series functions that Collect is proved to compute.
 */
module CollectorProperties {
  import opened Wrappers
  import opened Config
  import opened Quantity
  import opened MetricsClient
  import opened Collector

  /** With the default blacklist `['']`, a record with any empty name is dropped. */
  lemma DefaultBlacklistDropsEmptyNames(env: Env, options: seq<(string, string)>, r: Row)
    requires "NAMES_BLACKLIST" !in env
    ensures Blacklisted(r, Init(env, options).namesBlacklist) <==>
      r.container.name == "" || r.podName == "" || r.podNamespace == ""
  {
  }

  /** The rows that pass the blacklist, in order. */
  function KeptRows(rows: seq<Row>, blacklist: seq<string>): seq<Row> {
    if rows == [] then []
    else (if Blacklisted(rows[0], blacklist) then [] else [rows[0]]) + KeptRows(rows[1..], blacklist)
  }

  lemma {:induction false} KeptRowsMembers(rows: seq<Row>, blacklist: seq<string>, r: Row)
    ensures r in KeptRows(rows, blacklist) <==> r in rows && !Blacklisted(r, blacklist)
  {
    if rows != [] {
      KeptRowsMembers(rows[1..], blacklist, r);
      assert rows == [rows[0]] + rows[1..];
    }
  }

  /** Filtering is done row by row: the kept rows of two runs are those of each run in turn. */
  lemma {:induction false} KeptRowsAppend(a: seq<Row>, b: seq<Row>, blacklist: seq<string>)
    ensures KeptRows(a + b, blacklist) == KeptRows(a, blacklist) + KeptRows(b, blacklist)
  {
    if a == [] {
      assert a + b == b;
    } else {
      assert (a + b)[1..] == a[1..] + b;
      KeptRowsAppend(a[1..], b, blacklist);
    }
  }

  /** The samples of the given rows, one per row, in order. */
  function SamplesOf(rows: seq<Row>, res: Resource): seq<Sample> {
    if rows == [] then [] else [PodSample(rows[0], res)] + SamplesOf(rows[1..], res)
  }

  lemma {:induction false} SamplesOfIndex(rows: seq<Row>, res: Resource)
    ensures |SamplesOf(rows, res)| == |rows|
    ensures forall k :: 0 <= k < |rows| ==> SamplesOf(rows, res)[k] == PodSample(rows[k], res)
  {
    if rows != [] {
      SamplesOfIndex(rows[1..], res);
    }
  }

  /** Filtering then sampling: a pod series is the samples of the kept rows. */
  lemma {:induction false} PodSeriesIsKeptSamples(rows: seq<Row>, blacklist: seq<string>, res: Resource)
    ensures PodSeries(rows, blacklist, res) == SamplesOf(KeptRows(rows, blacklist), res)
  {
    if rows != [] {
      PodSeriesIsKeptSamples(rows[1..], blacklist, res);
      var kept := KeptRows(rows[1..], blacklist);
      if Blacklisted(rows[0], blacklist) {
        assert KeptRows(rows, blacklist) == kept;
        assert PodSeries(rows, blacklist, res) == PodSeries(rows[1..], blacklist, res);
      } else {
        assert KeptRows(rows, blacklist) == [rows[0]] + kept;
        assert ([rows[0]] + kept)[1..] == kept;
        assert SamplesOf([rows[0]] + kept, res) == [PodSample(rows[0], res)] + SamplesOf(kept, res);
        assert PodSeries(rows, blacklist, res) == [PodSample(rows[0], res)] + PodSeries(rows[1..], blacklist, res);
      }
    }
  }

  /** Each pod series holds exactly one sample per kept row, in row order. */
  lemma PodSeriesPerKeptRow(rows: seq<Row>, blacklist: seq<string>, res: Resource)
    ensures |PodSeries(rows, blacklist, res)| == |KeptRows(rows, blacklist)|
    ensures forall k :: 0 <= k < |KeptRows(rows, blacklist)| ==>
      PodSeries(rows, blacklist, res)[k] == PodSample(KeptRows(rows, blacklist)[k], res)
  {
    PodSeriesIsKeptSamples(rows, blacklist, res);
    SamplesOfIndex(KeptRows(rows, blacklist), res);
  }

  /**
   * CPU and memory are filled in lockstep: the two pod series have the same
   * length, the same labels at every position, and position k holds the CPU
   * and the memory of the same kept container.
   */
  lemma PodSeriesLockstep(rows: seq<Row>, blacklist: seq<string>)
    ensures |PodSeries(rows, blacklist, Cpu)| == |PodSeries(rows, blacklist, Memory)| == |KeptRows(rows, blacklist)|
    ensures forall k :: 0 <= k < |KeptRows(rows, blacklist)| ==>
      PodSeries(rows, blacklist, Cpu)[k].labels == PodSeries(rows, blacklist, Memory)[k].labels == PodLabels(KeptRows(rows, blacklist)[k]) &&
      PodSeries(rows, blacklist, Cpu)[k].value == Amount(KeptRows(rows, blacklist)[k].container.usage.cpu) &&
      PodSeries(rows, blacklist, Memory)[k].value == Amount(KeptRows(rows, blacklist)[k].container.usage.memory)
  {
    PodSeriesPerKeptRow(rows, blacklist, Cpu);
    PodSeriesPerKeptRow(rows, blacklist, Memory);
  }

  /** The node series, likewise: one sample per node in each, labelled by the node's name. */
  lemma NodeSeriesLockstep(nodes: seq<NodeMetrics>)
    ensures |NodeSeries(nodes, Cpu)| == |NodeSeries(nodes, Memory)| == |nodes|
    ensures forall i :: 0 <= i < |nodes| ==>
      NodeSeries(nodes, Cpu)[i].labels == NodeSeries(nodes, Memory)[i].labels == [("instance", nodes[i].name)] &&
      NodeSeries(nodes, Cpu)[i].value == Amount(nodes[i].usage.cpu) &&
      NodeSeries(nodes, Memory)[i].value == Amount(nodes[i].usage.memory)
  {
  }

  /** A container's sample is emitted iff none of its three names is blacklisted. */
  lemma PodSampleEmittedIff(rows: seq<Row>, blacklist: seq<string>, r: Row, res: Resource)
    requires r in rows
    ensures PodSample(r, res) in PodSeries(rows, blacklist, res) <==> !Blacklisted(r, blacklist)
  {
    PodSeriesPerKeptRow(rows, blacklist, res);
    var kept := KeptRows(rows, blacklist);
    var series := PodSeries(rows, blacklist, res);
    KeptRowsMembers(rows, blacklist, r);
    if PodSample(r, res) in series {
      var k :| 0 <= k < |series| && series[k] == PodSample(r, res);
      var other := kept[k];
      KeptRowsMembers(rows, blacklist, other);
      assert PodLabels(other) == PodLabels(r);
      assert other.podName == r.podName && other.podNamespace == r.podNamespace;
      assert other.container.name == r.container.name;
    }
  }

  predicate HasPrefixOrder(yielded: seq<Metric>) {
    |yielded| <= |MetricOrder| && forall i :: 0 <= i < |yielded| ==> yielded[i].name == MetricOrder[i]
  }

  /**
   * Whatever happens, the metrics yielded follow the fixed order response
   * time, nodes memory, nodes CPU, pods memory, pods CPU; all five appear
   * exactly when nothing raised; and once the fetch returned, the first is the
   * timing metric with its one sample labelled by the API URL.
   */
  lemma CollectYieldOrder(ex: Exporter, fetched: FetchOutcome, elapsed: real)
    ensures HasPrefixOrder(CollectOutcomeOf(ex, fetched, elapsed).yielded)
    ensures CollectOutcomeOf(ex, fetched, elapsed).failure.None? <==> |CollectOutcomeOf(ex, fetched, elapsed).yielded| == 5
    ensures fetched.Fetched? ==>
      |CollectOutcomeOf(ex, fetched, elapsed).yielded| >= 1 &&
      CollectOutcomeOf(ex, fetched, elapsed).yielded[0].samples ==
        [Sample(ResponseTimeName, [("api_url", ex.apiUrl + "/metrics.k8s.io")], elapsed)]
  {
  }

  /**
   * `collect` completes iff the fetch returned, pods were fetched, and every
   * usage string of every node and every container parses, blacklisted or not.
   */
  lemma CollectCompletesIff(ex: Exporter, fetched: FetchOutcome, elapsed: real)
    ensures CollectOutcomeOf(ex, fetched, elapsed).failure.None? <==>
      fetched.Fetched? && fetched.result.pods.Some? &&
      (forall i :: 0 <= i < |fetched.result.nodes| ==> Parses(fetched.result.nodes[i].usage)) &&
      (forall i :: 0 <= i < |ContainerRows(fetched.result.pods.value)| ==>
         Parses(ContainerRows(fetched.result.pods.value)[i].container.usage))
  {
    if fetched.Fetched? {
      var f := fetched.result;
      FirstBadNodeNoneIff(f.nodes);
      if f.pods.Some? {
        FirstBadRowNoneIff(ContainerRows(f.pods.value));
        if FirstBadNode(f.nodes).None? && FirstBadRow(ContainerRows(f.pods.value)).None? {
          assert CollectOutcomeOf(ex, fetched, elapsed).failure.None?;
        } else if FirstBadNode(f.nodes).None? {
          assert CollectOutcomeOf(ex, fetched, elapsed).failure ==
            Some(InvalidLiteral(StripLetters(FirstBadRow(ContainerRows(f.pods.value)).value)));
        }
      }
    }
  }

  /**
   * The quantities are parsed before the blacklist is consulted, so a
   * container that would have been dropped still aborts `collect` when one of
   * its usage strings is malformed, after the three metrics before the pods.
   */
  lemma BlacklistedMalformedStillAborts(ex: Exporter, f: FetchResult, elapsed: real, r: Row)
    requires FirstBadNode(f.nodes).None? && f.pods.Some?
    requires r in ContainerRows(f.pods.value) && Blacklisted(r, ex.namesBlacklist)
    requires !Parses(r.container.usage)
    ensures CollectOutcomeOf(ex, Fetched(f), elapsed).failure.Some?
    ensures CollectOutcomeOf(ex, Fetched(f), elapsed).failure.value.InvalidLiteral?
    ensures |CollectOutcomeOf(ex, Fetched(f), elapsed).yielded| == 3
  {
    FirstBadRowNoneIff(ContainerRows(f.pods.value));
  }

  /**
   * Namespace mode where no GET raises but no namespace succeeds: the node
   * metrics are yielded empty and then `None.get` raises, so the pod metrics
   * are never yielded.
   */
  lemma NamespaceModeNothingFetched(ex: Exporter, server: Server, elapsed: real)
    requires ex.namespaces != [] && FirstRaised(ex, server, ex.namespaces).None?
    requires forall i :: 0 <= i < |ex.namespaces| && ex.namespaces[i] != "" ==>
      !Succeeded(NamespaceReply(ex, server, ex.namespaces[i]))
    ensures CollectOutcomeOf(ex, OutcomeOf(ex, server), elapsed) ==
      CollectOutcome(
        [TimingMetric(ex, elapsed),
         Metric(NodesMemName, "Metrics Server Nodes Memory", []),
         Metric(NodesCpuName, "Metrics Server Nodes CPU", [])],
        Some(PodDataIsNone))
  {
    var p: PodMetrics := PodMetrics("", "", []);
    NamespaceModeResult(ex, server, p);
    assert NodeSeries([], Cpu) == [] && NodeSeries([], Memory) == [];
  }

  /** Namespace mode never reports a node sample. */
  lemma NamespaceModeNoNodeSamples(ex: Exporter, server: Server, elapsed: real)
    requires ex.namespaces != []
    ensures |CollectOutcomeOf(ex, OutcomeOf(ex, server), elapsed).yielded| >= 3 ==>
      CollectOutcomeOf(ex, OutcomeOf(ex, server), elapsed).yielded[1].samples == [] &&
      CollectOutcomeOf(ex, OutcomeOf(ex, server), elapsed).yielded[2].samples == []
  {
  }

  /**
   * Cluster-wide mode with a failing nodes call and a good pods call: no node
   * samples, and the pod samples are those of the pods reply.
   */
  lemma NodesFailPodsSurvive(ex: Exporter, server: Server, elapsed: real)
    requires ex.namespaces == []
    requires server.nodes.Response? && !Succeeded(server.nodes) && Succeeded(server.pods)
    requires FirstBadRow(ContainerRows(server.pods.json.value)).None?
    ensures CollectOutcomeOf(ex, OutcomeOf(ex, server), elapsed).failure.None?
    ensures CollectOutcomeOf(ex, OutcomeOf(ex, server), elapsed).yielded[1].samples == []
    ensures CollectOutcomeOf(ex, OutcomeOf(ex, server), elapsed).yielded[2].samples == []
    ensures CollectOutcomeOf(ex, OutcomeOf(ex, server), elapsed).yielded[3].samples ==
      PodSeries(ContainerRows(server.pods.json.value), ex.namesBlacklist, Memory)
    ensures CollectOutcomeOf(ex, OutcomeOf(ex, server), elapsed).yielded[4].samples ==
      PodSeries(ContainerRows(server.pods.json.value), ex.namesBlacklist, Cpu)
  {
  }

  const ScenarioNode := NodeMetrics("n1", Usage("250m", "1024Ki"))
  const ScenarioPod := PodMetrics("p1", "ns1", [ContainerMetrics("c1", Usage("10m", "2048Ki"))])

  function ScenarioServer(namespaced: string -> Reply<PodMetrics>): Server {
    Server(Response(200, Some([ScenarioNode])), Response(200, Some([ScenarioPod])), namespaced)
  }

  lemma ScenarioQuantities()
    ensures Parse("250m") == Ok(250) && Parse("1024Ki") == Ok(1024)
    ensures Parse("10m") == Ok(10) && Parse("2048Ki") == Ok(2048)
  {
    ParseMillicores();
    ParseKibibytes();
    ParseRoundTrip(10, "m");
    assert Decimal(10) + "m" == "10m";
    ParseRoundTrip(2048, "Ki");
    assert Decimal(2048) == "2048" by {
      assert Decimal(2) == "2";
      assert Decimal(20) == "20";
      assert Decimal(204) == "204";
    }
    assert Decimal(2048) + "Ki" == "2048Ki";
  }

  /** The scenario's fetch result and the facts about it that do not depend on the blacklist. */
  lemma ScenarioFetched(ex: Exporter, namespaced: string -> Reply<PodMetrics>)
    requires ex.namespaces == []
    ensures OutcomeOf(ex, ScenarioServer(namespaced)) == Fetched(FetchResult([ScenarioNode], Some([ScenarioPod])))
    ensures FirstBadNode([ScenarioNode]).None?
    ensures NodeSeries([ScenarioNode], Memory) == [Sample(NodesMemName, [("instance", "n1")], 1024.0)]
    ensures NodeSeries([ScenarioNode], Cpu) == [Sample(NodesCpuName, [("instance", "n1")], 250.0)]
    ensures ContainerRows([ScenarioPod]) == [ScenarioRow]
    ensures FirstBadRow(ContainerRows([ScenarioPod])).None?
  {
    ScenarioNodes();
    ScenarioRows();
  }

  lemma ScenarioNodes()
    ensures FirstBadNode([ScenarioNode]).None?
    ensures NodeSeries([ScenarioNode], Memory) == [Sample(NodesMemName, [("instance", "n1")], 1024.0)]
    ensures NodeSeries([ScenarioNode], Cpu) == [Sample(NodesCpuName, [("instance", "n1")], 250.0)]
  {
    ParseMillicores();
    ParseKibibytes();
    assert [ScenarioNode][1..] == [];
  }

  lemma ScenarioRows()
    ensures ContainerRows([ScenarioPod]) == [ScenarioRow]
    ensures FirstBadRow([ScenarioRow]).None?
  {
    ScenarioContainerRows();
    ScenarioRowParses();
  }

  lemma ScenarioContainerRows()
    ensures ContainerRows([ScenarioPod]) == [ScenarioRow]
  {
    assert [ScenarioPod][1..] == [];
    assert RowsOf(ScenarioPod) == [ScenarioRow];
    assert ContainerRows([ScenarioPod]) == RowsOf(ScenarioPod) + ContainerRows([]);
  }

  lemma ScenarioRowParses()
    ensures FirstBadRow([ScenarioRow]).None?
  {
    ScenarioQuantities();
    assert BadQuantity(ScenarioRow.container.usage).None?;
    assert [ScenarioRow][1..] == [];
  }

  const ScenarioRow := Row("p1", "ns1", ContainerMetrics("c1", Usage("10m", "2048Ki")))
  const ScenarioLabels := [("pod_name", "p1"), ("pod_namespace", "ns1"), ("pod_container_name", "c1")]

  lemma ScenarioPodSamples()
    ensures PodSample(ScenarioRow, Cpu) == Sample(PodsCpuName, ScenarioLabels, 10.0)
    ensures PodSample(ScenarioRow, Memory) == Sample(PodsMemName, ScenarioLabels, 2048.0)
  {
    ScenarioQuantities();
    assert Amount("10m") == 10.0 && Amount("2048Ki") == 2048.0;
    assert PodLabels(ScenarioRow) == ScenarioLabels;
  }

  /** The single row of the scenario as a series: kept unless one of its names is listed. */
  lemma ScenarioPodSeries(blacklist: seq<string>, res: Resource)
    ensures PodSeries([ScenarioRow], blacklist, res) ==
      if "c1" in blacklist || "p1" in blacklist || "ns1" in blacklist then [] else [PodSample(ScenarioRow, res)]
  {
    assert [ScenarioRow][1..] == [];
  }

  /** A blacklist that lists none of the scenario's names keeps its one row, with the suffixes dropped. */
  lemma ScenarioPodsKept(blacklist: seq<string>)
    requires "c1" !in blacklist && "p1" !in blacklist && "ns1" !in blacklist
    ensures PodSeries([ScenarioRow], blacklist, Memory) == [Sample(PodsMemName, ScenarioLabels, 2048.0)]
    ensures PodSeries([ScenarioRow], blacklist, Cpu) == [Sample(PodsCpuName, ScenarioLabels, 10.0)]
  {
    ScenarioPodSeries(blacklist, Memory);
    ScenarioPodSeries(blacklist, Cpu);
    ScenarioPodSamples();
  }

  /** The scenario's outcome, whatever the blacklist: the timing metric, then the four series. */
  lemma ScenarioOutcome(ex: Exporter, elapsed: real, namespaced: string -> Reply<PodMetrics>)
    requires ex.namespaces == []
    ensures CollectOutcomeOf(ex, OutcomeOf(ex, ScenarioServer(namespaced)), elapsed) ==
      CollectOutcome(
        [TimingMetric(ex, elapsed)] + NodeMetricsPair([ScenarioNode]) + PodMetricsPair([ScenarioRow], ex.namesBlacklist),
        None)
  {
    ScenarioFetched(ex, namespaced);
    var f := FetchResult([ScenarioNode], Some([ScenarioPod]));
    assert CollectOutcomeOf(ex, Fetched(f), elapsed) ==
      CollectOutcome([TimingMetric(ex, elapsed)] + NodeMetricsPair([ScenarioNode]) +
                     PodMetricsPair(ContainerRows([ScenarioPod]), ex.namesBlacklist), None);
  }

  /** The scenario's five metrics carry, in order, the two node series and the two pod series. */
  lemma ScenarioYield(ex: Exporter, elapsed: real, namespaced: string -> Reply<PodMetrics>)
    requires ex.namespaces == []
    ensures var out := CollectOutcomeOf(ex, OutcomeOf(ex, ScenarioServer(namespaced)), elapsed);
      out.failure.None? && |out.yielded| == 5 &&
      out.yielded[1].samples == NodeSeries([ScenarioNode], Memory) &&
      out.yielded[2].samples == NodeSeries([ScenarioNode], Cpu) &&
      out.yielded[3].samples == PodSeries([ScenarioRow], ex.namesBlacklist, Memory) &&
      out.yielded[4].samples == PodSeries([ScenarioRow], ex.namesBlacklist, Cpu)
  {
    ScenarioOutcome(ex, elapsed, namespaced);
  }

  /**
   * Cluster-wide mode, one node and one pod with one container, none of whose
   * names is blacklisted: every metric is yielded and the unit suffixes are
   * dropped from every value.
   */
  lemma EndToEndScenario(ex: Exporter, elapsed: real, namespaced: string -> Reply<PodMetrics>)
    requires ex.namespaces == []
    requires "c1" !in ex.namesBlacklist && "p1" !in ex.namesBlacklist && "ns1" !in ex.namesBlacklist
    ensures var out := CollectOutcomeOf(ex, OutcomeOf(ex, ScenarioServer(namespaced)), elapsed);
      out.failure.None? && |out.yielded| == 5 &&
      out.yielded[1].samples == [Sample(NodesMemName, [("instance", "n1")], 1024.0)] &&
      out.yielded[2].samples == [Sample(NodesCpuName, [("instance", "n1")], 250.0)] &&
      out.yielded[3].samples == [Sample(PodsMemName, ScenarioLabels, 2048.0)] &&
      out.yielded[4].samples == [Sample(PodsCpuName, ScenarioLabels, 10.0)]
  {
    ScenarioYield(ex, elapsed, namespaced);
    ScenarioNodes();
    ScenarioPodsKept(ex.namesBlacklist);
  }

  /** Under the default blacklist `['']` the scenario is reported in full, since none of its names is empty. */
  lemma EndToEndScenarioDefaultBlacklist(ex: Exporter, elapsed: real, namespaced: string -> Reply<PodMetrics>)
    requires ex.namespaces == [] && ex.namesBlacklist == [""]
    ensures var out := CollectOutcomeOf(ex, OutcomeOf(ex, ScenarioServer(namespaced)), elapsed);
      out.failure.None? && |out.yielded| == 5 &&
      out.yielded[3].samples == [Sample(PodsMemName, ScenarioLabels, 2048.0)] &&
      out.yielded[4].samples == [Sample(PodsCpuName, ScenarioLabels, 10.0)]
  {
    assert "c1" !in [""] && "p1" !in [""] && "ns1" !in [""];
    EndToEndScenario(ex, elapsed, namespaced);
  }

  /** The same scenario with the container's name blacklisted: the pod series are empty, the node series unchanged. */
  lemma EndToEndScenarioBlacklisted(ex: Exporter, elapsed: real, namespaced: string -> Reply<PodMetrics>)
    requires ex.namespaces == [] && ex.namesBlacklist == ["c1"]
    ensures var out := CollectOutcomeOf(ex, OutcomeOf(ex, ScenarioServer(namespaced)), elapsed);
      out.failure.None? && |out.yielded| == 5 &&
      out.yielded[1].samples == [Sample(NodesMemName, [("instance", "n1")], 1024.0)] &&
      out.yielded[2].samples == [Sample(NodesCpuName, [("instance", "n1")], 250.0)] &&
      out.yielded[3].samples == [] &&
      out.yielded[4].samples == []
  {
    ScenarioYield(ex, elapsed, namespaced);
    ScenarioNodes();
    ScenarioPodSeries(["c1"], Cpu);
    ScenarioPodSeries(["c1"], Memory);
  }
}
