/**
 * `kube_metrics`: the upstream calls and how their replies are assembled into
 * the `{'nodes': ..., 'pods': ...}` result. The replies are inputs; each GET
 * issued is recorded, in order, so the fan-out can be stated.
 */
module MetricsClient {
  import opened Wrappers
  import opened Config
  import opened Credentials

  datatype Usage = Usage(cpu: string, memory: string)
  datatype NodeMetrics = NodeMetrics(name: string, usage: Usage)
  datatype ContainerMetrics = ContainerMetrics(name: string, usage: Usage)
  datatype PodMetrics = PodMetrics(name: string, namespace: string, containers: seq<ContainerMetrics>)

  /**
   * What one `session.get` produces: a response with its status and either
   * the decoded `items` or None when `resp.json()` raises; or a connection
   * error that is still failing once the retries are spent, which requests
   * raises to the caller.
   */
  datatype Reply<T> =
    | Response(status: int, json: Option<seq<T>>)
    | ConnectionFailed

  /**
   * What `raise_for_status` in `requests` reports for a status: a client
   * error for 4xx, a server error for 5xx, nothing otherwise.
   */
  function RaiseForStatus(status: int): Option<string> {
    if 400 <= status < 500 then Some("Client Error")
    else if 500 <= status < 600 then Some("Server Error")
    else None
  }

  /** `resp.ok`: true exactly when `raise_for_status` would not raise. */
  predicate IsOk(status: int): (ok: bool)
    ensures ok <==> RaiseForStatus(status).None?
  {
    !(400 <= status < 600)
  }

  predicate Succeeded<T>(r: Reply<T>) {
    r.Response? && IsOk(r.status) && r.json.Some?
  }

  /** The items of a reply, `{'items': []}` in place of a bad status or an undecodable body. */
  function ItemsOrEmpty<T>(r: Reply<T>): (items: seq<T>)
    requires r.Response?
    ensures !Succeeded(r) ==> items == []
  {
    if Succeeded(r) then r.json.value else []
  }

  /** The replies the metrics server would give: one per URL of the per-namespace endpoint. */
  datatype Server = Server(
    nodes: Reply<NodeMetrics>,
    pods: Reply<PodMetrics>,
    namespaced: string -> Reply<PodMetrics>)

  /** What every request of one `kube_metrics` call carries besides its URL. */
  datatype Session = Session(authorization: string, labelSelector: string, verify: PyValue)

  datatype Request = Get(url: string, session: Session)

  /**
   * The session of one `kube_metrics` call: the bearer header from
   * `get_token`, the label-selector query and the `verify` setting.
   */
  function OpenSession(ex: Exporter, env: Env, files: Files): (session: Session)
    ensures |session.authorization| >= 7 && session.authorization[..7] == "Bearer "
    ensures EnvGet(env, "K8S_TOKEN", "") != "" ==> session.authorization[7..] == env["K8S_TOKEN"]
    ensures EnvGet(env, "K8S_TOKEN", "") == "" && ex.svcToken in files ==>
      session.authorization[7..] == ReadLine(files[ex.svcToken])
    ensures EnvGet(env, "K8S_TOKEN", "") == "" && ex.svcToken !in files ==> session.authorization == "Bearer None"
    ensures session.labelSelector == ex.labelSelector
    ensures session.verify == PyStr(ex.caCert) <==> !ex.insecureTls && ex.caCert in files && ex.caCert != ""
    ensures session.verify != PyStr(ex.caCert) ==> session.verify == PyBool(false)
  {
    Session(AuthorizationHeader(GetToken(ex, env, files)), ex.labelSelector, SessionVerify(ex, files))
  }

  /** The returned dict; `pods` is None when namespace mode fetched nothing. */
  datatype FetchResult = FetchResult(nodes: seq<NodeMetrics>, pods: Option<seq<PodMetrics>>)

  /** Either the result, or the URL whose GET raised out of `kube_metrics`. */
  datatype FetchOutcome = Fetched(result: FetchResult) | Raised(url: string)

  function NamespaceReply(ex: Exporter, server: Server, ns: string): Reply<PodMetrics> {
    server.namespaced(NamespacedPodUrl(ex, ns))
  }

  /** The names the fan-out visits: the non-empty ones, in whitelist order. */
  function Live(names: seq<string>): (live: seq<string>)
    ensures forall x :: x in live <==> x in names && x != ""
    ensures |live| <= |names|
  {
    if names == [] then []
    else Live(names[..|names| - 1]) + (if names[|names| - 1] == "" then [] else [names[|names| - 1]])
  }

  /** Visiting two runs of names one after the other visits each run's names in turn. */
  lemma {:induction false} LiveAppend(a: seq<string>, b: seq<string>)
    ensures Live(a + b) == Live(a) + Live(b)
  {
    if b == [] {
      assert a + b == a;
    } else {
      var init := b[..|b| - 1];
      assert (a + b)[..|a + b| - 1] == a + init;
      LiveAppend(a, init);
    }
  }

  /** A single name is visited once when it is non-empty and not at all otherwise. */
  lemma LiveOne(name: string)
    ensures Live([name]) == if name == "" then [] else [name]
  {
    assert [name][..0] == [];
  }

  /** The GETs of namespace mode: one per visited name. */
  function Requests(ex: Exporter, session: Session, names: seq<string>): seq<Request> {
    var live := Live(names);
    seq(|live|, j requires 0 <= j < |live| => Get(NamespacedPodUrl(ex, live[j]), session))
  }

  /** The position of the first visited name whose GET raises. */
  function FirstRaised(ex: Exporter, server: Server, names: seq<string>): (k: Option<nat>)
    ensures k.Some? ==>
      k.value < |names| && names[k.value] != "" &&
      NamespaceReply(ex, server, names[k.value]).ConnectionFailed?
  {
    if names == [] then None
    else
      var earlier := FirstRaised(ex, server, names[..|names| - 1]);
      if earlier.Some? then earlier
      else if names[|names| - 1] != "" && NamespaceReply(ex, server, names[|names| - 1]).ConnectionFailed?
      then Some(|names| - 1)
      else None
  }

  /**
   * The position reported is the first non-empty name whose GET raises, and
   * nothing is reported exactly when no non-empty name's GET raises.
   */
  lemma {:induction false} FirstRaisedIsFirst(ex: Exporter, server: Server, names: seq<string>)
    ensures FirstRaised(ex, server, names).None? <==>
      forall i :: 0 <= i < |names| && names[i] != "" ==> !NamespaceReply(ex, server, names[i]).ConnectionFailed?
    ensures FirstRaised(ex, server, names).Some? ==>
      forall j :: 0 <= j < FirstRaised(ex, server, names).value ==>
        names[j] == "" || !NamespaceReply(ex, server, names[j]).ConnectionFailed?
  {
    if names != [] {
      var shorter := names[..|names| - 1];
      FirstRaisedIsFirst(ex, server, shorter);
      assert forall i :: 0 <= i < |shorter| ==> shorter[i] == names[i];
    }
  }

  /** The item lists of the visited namespaces whose reply succeeded, in whitelist order. */
  function OkItems(ex: Exporter, server: Server, names: seq<string>): seq<seq<PodMetrics>> {
    if names == [] then []
    else
      var last := names[|names| - 1];
      var reply := NamespaceReply(ex, server, last);
      OkItems(ex, server, names[..|names| - 1]) + (if last != "" && Succeeded(reply) then [reply.json.value] else [])
  }

  function Flatten<T>(lists: seq<seq<T>>): seq<T> {
    if lists == [] then [] else Flatten(lists[..|lists| - 1]) + lists[|lists| - 1]
  }

  /** `pod_data` after the fan-out: None until some namespace succeeds. */
  function PodData(lists: seq<seq<PodMetrics>>): Option<seq<PodMetrics>> {
    if lists == [] then None else Some(Flatten(lists))
  }

  /** What `kube_metrics` returns or raises, for the given replies. */
  function OutcomeOf(ex: Exporter, server: Server): (out: FetchOutcome)
    ensures ex.namespaces != [] ==>
      (out.Raised? <==>
         exists i :: 0 <= i < |ex.namespaces| && ex.namespaces[i] != "" &&
                     NamespaceReply(ex, server, ex.namespaces[i]).ConnectionFailed?)
    ensures ex.namespaces != [] && out.Raised? ==> server.namespaced(out.url).ConnectionFailed?
    ensures ex.namespaces != [] && out.Raised? ==>
      FirstRaised(ex, server, ex.namespaces).Some? &&
      out.url == NamespacedPodUrl(ex, ex.namespaces[FirstRaised(ex, server, ex.namespaces).value])
    ensures ex.namespaces != [] && out.Fetched? ==> out.result.nodes == []
    ensures ex.namespaces == [] ==>
      (out.Raised? <==> server.nodes.ConnectionFailed? || server.pods.ConnectionFailed?)
    ensures ex.namespaces == [] && out.Raised? ==>
      (out.url == NodesUrl(ex) <==> server.nodes.ConnectionFailed?)
    ensures ex.namespaces == [] && out.Fetched? ==> out.result.pods.Some?
  {
    if ex.namespaces != [] then
      FirstRaisedIsFirst(ex, server, ex.namespaces);
      match FirstRaised(ex, server, ex.namespaces)
      case Some(k) => Raised(NamespacedPodUrl(ex, ex.namespaces[k]))
      case None => Fetched(FetchResult([], PodData(OkItems(ex, server, ex.namespaces))))
    else if server.nodes.ConnectionFailed? then Raised(NodesUrl(ex))
    else if server.pods.ConnectionFailed? then Raised(PodsUrl(ex))
    else Fetched(FetchResult(ItemsOrEmpty(server.nodes), Some(ItemsOrEmpty(server.pods))))
  }

  /** The GETs `kube_metrics` issues, in order, up to and including one that raises. */
  function TraceOf(ex: Exporter, session: Session, server: Server): (trace: seq<Request>)
    ensures forall i :: 0 <= i < |trace| ==> trace[i].session == session
    ensures ex.namespaces != [] ==> |trace| <= |ex.namespaces|
    ensures ex.namespaces == [] ==>
      1 <= |trace| <= 2 && trace[0] == Get(NodesUrl(ex), session) &&
      (|trace| == 2 <==> !server.nodes.ConnectionFailed?) &&
      (|trace| == 2 ==> trace[1] == Get(PodsUrl(ex), session))
  {
    if ex.namespaces != [] then
      match FirstRaised(ex, server, ex.namespaces)
      case Some(k) => Requests(ex, session, ex.namespaces[..k + 1])
      case None => Requests(ex, session, ex.namespaces)
    else if server.nodes.ConnectionFailed? then [Get(NodesUrl(ex), session)]
    else [Get(NodesUrl(ex), session), Get(PodsUrl(ex), session)]
  }

  lemma {:induction false} FirstRaisedExtends(ex: Exporter, server: Server, names: seq<string>, j: nat)
    requires j <= |names|
    requires FirstRaised(ex, server, names[..j]).Some?
    ensures FirstRaised(ex, server, names) == FirstRaised(ex, server, names[..j])
  {
    if j < |names| {
      var shorter := names[..|names| - 1];
      assert shorter[..j] == names[..j];
      FirstRaisedExtends(ex, server, shorter, j);
    } else {
      assert names[..j] == names;
    }
  }

  /** One more successful namespace: `data` if nothing came before, the items appended otherwise. */
  lemma PodDataStep(lists: seq<seq<PodMetrics>>, items: seq<PodMetrics>)
    ensures PodData(lists + [items]) ==
      if PodData(lists).None? then Some(items) else Some(PodData(lists).value + items)
  {
    assert (lists + [items])[..|lists|] == lists;
    assert Flatten(lists + [items]) == Flatten(lists) + items;
    if lists == [] {
      assert Flatten(lists) == [];
      assert Flatten(lists) + items == items;
    }
  }

  lemma RequestsStep(ex: Exporter, session: Session, names: seq<string>, i: nat)
    requires i < |names|
    ensures Requests(ex, session, names[..i + 1]) ==
      Requests(ex, session, names[..i]) +
      (if names[i] == "" then [] else [Get(NamespacedPodUrl(ex, names[i]), session)])
  {
    assert names[..i + 1][..i] == names[..i];
  }

  /**
   * `kube_metrics`. In namespace mode `pod_data` starts at None and each
   * successful namespace either becomes it or has its items appended; in
   * cluster-wide mode nodes and pods each fall back to no items on their own.
   */
  method KubeMetrics(ex: Exporter, env: Env, files: Files, server: Server)
    returns (out: FetchOutcome, calls: seq<Request>)
    ensures out == OutcomeOf(ex, server)
    ensures calls == TraceOf(ex, OpenSession(ex, env, files), server)
  {
    var session := OpenSession(ex, env, files);
    if ex.namespaces != [] {
      out, calls := FetchNamespaces(ex, session, server);
    } else {
      out, calls := FetchClusterWide(ex, session, server);
    }
  }

  /** The namespace branch of `kube_metrics`: one GET per non-empty whitelisted name. */
  method FetchNamespaces(ex: Exporter, session: Session, server: Server)
    returns (out: FetchOutcome, calls: seq<Request>)
    requires ex.namespaces != []
    ensures out == OutcomeOf(ex, server)
    ensures calls == TraceOf(ex, session, server)
  {
    var podData: Option<seq<PodMetrics>> := None;
    calls := [];
    var names := ex.namespaces;
    var i := 0;
    while i < |names|
      invariant 0 <= i <= |names|
      invariant FirstRaised(ex, server, names[..i]) == None
      invariant podData == PodData(OkItems(ex, server, names[..i]))
      invariant calls == Requests(ex, session, names[..i])
    {
      var ns := names[i];
      NamespaceStep(ex, session, server, names, i);
      if ns == "" {
        assert OkItems(ex, server, names[..i + 1]) == OkItems(ex, server, names[..i]);
        i := i + 1;
        continue;
      }
      var url := NamespacedPodUrl(ex, ns);
      calls := calls + [Get(url, session)];
      var reply := server.namespaced(url);
      if reply.ConnectionFailed? {
        FirstRaisedExtends(ex, server, names, i + 1);
        out := Raised(url);
        return;
      }
      assert reply == NamespaceReply(ex, server, ns);
      if !IsOk(reply.status) || reply.json.None? {
        assert OkItems(ex, server, names[..i + 1]) == OkItems(ex, server, names[..i]);
        i := i + 1;
        continue;
      }
      var items := reply.json.value;
      assert OkItems(ex, server, names[..i + 1]) == OkItems(ex, server, names[..i]) + [items];
      PodDataStep(OkItems(ex, server, names[..i]), items);
      podData := if podData.None? then Some(items) else Some(podData.value + items);
      i := i + 1;
    }
    assert names[..i] == names;
    out := Fetched(FetchResult([], podData));
  }

  /** One name of the fan-out: what it adds to the first raise, the item lists and the GETs. */
  lemma NamespaceStep(ex: Exporter, session: Session, server: Server, names: seq<string>, i: nat)
    requires i < |names|
    requires FirstRaised(ex, server, names[..i]) == None
    ensures var reply := NamespaceReply(ex, server, names[i]);
      FirstRaised(ex, server, names[..i + 1]) ==
        (if names[i] != "" && reply.ConnectionFailed? then Some(i) else None) &&
      OkItems(ex, server, names[..i + 1]) ==
        OkItems(ex, server, names[..i]) + (if names[i] != "" && Succeeded(reply) then [reply.json.value] else [])
    ensures Requests(ex, session, names[..i + 1]) ==
      Requests(ex, session, names[..i]) +
      (if names[i] == "" then [] else [Get(NamespacedPodUrl(ex, names[i]), session)])
  {
    assert names[..i + 1][..i] == names[..i];
    RequestsStep(ex, session, names, i);
  }

  /** The cluster-wide branch of `kube_metrics`: the nodes GET, then the pods GET. */
  method FetchClusterWide(ex: Exporter, session: Session, server: Server)
    returns (out: FetchOutcome, calls: seq<Request>)
    requires ex.namespaces == []
    ensures out == OutcomeOf(ex, server)
    ensures calls == TraceOf(ex, session, server)
  {
    calls := [Get(NodesUrl(ex), session)];
    if server.nodes.ConnectionFailed? {
      out := Raised(NodesUrl(ex));
      return;
    }
    calls := calls + [Get(PodsUrl(ex), session)];
    if server.pods.ConnectionFailed? {
      out := Raised(PodsUrl(ex));
      return;
    }
    var nodes: seq<NodeMetrics>;
    var podData: Option<seq<PodMetrics>>;
    var respNodes, respPods := server.nodes, server.pods;
    if !IsOk(respNodes.status) {
      nodes := [];
    } else if respNodes.json.None? {
      nodes := [];
    } else {
      nodes := respNodes.json.value;
    }
    if !IsOk(respPods.status) {
      podData := Some([]);
    } else if respPods.json.None? {
      podData := Some([]);
    } else {
      podData := Some(respPods.json.value);
    }
    out := Fetched(FetchResult(nodes, podData));
  }

  lemma {:induction false} OkItemsEmptyIff(ex: Exporter, server: Server, names: seq<string>)
    ensures OkItems(ex, server, names) == [] <==>
      forall i :: 0 <= i < |names| && names[i] != "" ==> !Succeeded(NamespaceReply(ex, server, names[i]))
  {
    if names != [] {
      var shorter := names[..|names| - 1];
      OkItemsEmptyIff(ex, server, shorter);
      assert forall i :: 0 <= i < |shorter| ==> shorter[i] == names[i];
    }
  }

  /** Namespace `ns` was visited, answered successfully and reported pod `p`. */
  predicate Reported(ex: Exporter, server: Server, ns: string, p: PodMetrics) {
    ns != "" && Succeeded(NamespaceReply(ex, server, ns)) && p in NamespaceReply(ex, server, ns).json.value
  }

  /** The pods accumulated over a whitelist: those of all but the last name, then the last name's. */
  lemma OkItemsFlattenStep(ex: Exporter, server: Server, names: seq<string>)
    requires names != []
    ensures var last := names[|names| - 1];
      var reply := NamespaceReply(ex, server, last);
      Flatten(OkItems(ex, server, names)) ==
        Flatten(OkItems(ex, server, names[..|names| - 1])) +
        (if last != "" && Succeeded(reply) then reply.json.value else [])
  {
    var last := names[|names| - 1];
    var reply := NamespaceReply(ex, server, last);
    var before := OkItems(ex, server, names[..|names| - 1]);
    if last != "" && Succeeded(reply) {
      assert (before + [reply.json.value])[..|before|] == before;
    } else {
      assert before + [] == before;
    }
  }

  /** A pod reported by visited namespace `names[i]` is among the accumulated pods. */
  lemma {:induction false} ReportedIsListed(ex: Exporter, server: Server, names: seq<string>, i: nat, p: PodMetrics)
    requires i < |names| && Reported(ex, server, names[i], p)
    ensures p in Flatten(OkItems(ex, server, names))
  {
    var shorter := names[..|names| - 1];
    OkItemsFlattenStep(ex, server, names);
    if i < |shorter| {
      assert shorter[i] == names[i];
      ReportedIsListed(ex, server, shorter, i, p);
    }
  }

  /** An accumulated pod was reported by some visited namespace, returned as `i`. */
  lemma {:induction false} ListedIsReported(ex: Exporter, server: Server, names: seq<string>, p: PodMetrics)
    returns (i: nat)
    requires p in Flatten(OkItems(ex, server, names))
    ensures i < |names| && Reported(ex, server, names[i], p)
  {
    var shorter := names[..|names| - 1];
    var last := names[|names| - 1];
    var reply := NamespaceReply(ex, server, last);
    var tail := if last != "" && Succeeded(reply) then reply.json.value else [];
    OkItemsFlattenStep(ex, server, names);
    assert Flatten(OkItems(ex, server, names)) == Flatten(OkItems(ex, server, shorter)) + tail;
    if p in Flatten(OkItems(ex, server, shorter)) {
      i := ListedIsReported(ex, server, shorter, p);
      assert shorter[i] == names[i];
    } else {
      assert p in tail;
      i := |names| - 1;
    }
  }

  lemma OkItemsMembers(ex: Exporter, server: Server, names: seq<string>, p: PodMetrics)
    ensures p in Flatten(OkItems(ex, server, names)) <==>
      exists i :: 0 <= i < |names| && Reported(ex, server, names[i], p)
  {
    if p in Flatten(OkItems(ex, server, names)) {
      var i := ListedIsReported(ex, server, names, p);
    }
    if exists i :: 0 <= i < |names| && Reported(ex, server, names[i], p) {
      var i :| 0 <= i < |names| && Reported(ex, server, names[i], p);
      ReportedIsListed(ex, server, names, i, p);
    }
  }

  /**
   * Namespace mode, when no GET raises: no node is ever reported; the pods
   * are exactly those of the non-empty namespaces whose reply is ok and
   * decodes; and `pod_data` stays None precisely when no such namespace exists.
   */
  lemma NamespaceModeResult(ex: Exporter, server: Server, p: PodMetrics)
    requires ex.namespaces != [] && FirstRaised(ex, server, ex.namespaces).None?
    ensures OutcomeOf(ex, server).Fetched?
    ensures OutcomeOf(ex, server).result.nodes == []
    ensures OutcomeOf(ex, server).result.pods.None? <==>
      forall i :: 0 <= i < |ex.namespaces| && ex.namespaces[i] != "" ==>
        !Succeeded(NamespaceReply(ex, server, ex.namespaces[i]))
    ensures OutcomeOf(ex, server).result.pods.Some? ==>
      (p in OutcomeOf(ex, server).result.pods.value <==>
        exists i :: 0 <= i < |ex.namespaces| && Reported(ex, server, ex.namespaces[i], p))
  {
    OkItemsEmptyIff(ex, server, ex.namespaces);
    OkItemsMembers(ex, server, ex.namespaces, p);
  }

  /**
   * Namespace mode, when no GET raises: one GET per non-empty whitelisted
   * name, each to that namespace's URL, and none to the nodes or the
   * cluster-wide pods endpoint.
   */
  lemma NamespaceModeTrace(ex: Exporter, session: Session, server: Server)
    requires ex.namespaces != [] && FirstRaised(ex, server, ex.namespaces).None?
    ensures |TraceOf(ex, session, server)| == |Live(ex.namespaces)|
    ensures forall j :: 0 <= j < |TraceOf(ex, session, server)| ==>
      TraceOf(ex, session, server)[j] == Get(NamespacedPodUrl(ex, Live(ex.namespaces)[j]), session)
    ensures forall r :: r in TraceOf(ex, session, server) ==> r.url != NodesUrl(ex) && r.url != PodsUrl(ex)
  {
    var trace := TraceOf(ex, session, server);
    forall r | r in trace
      ensures r.url != NodesUrl(ex) && r.url != PodsUrl(ex)
    {
      var j :| 0 <= j < |trace| && trace[j] == r;
      NamespacedPodUrlNotClusterWide(ex, Live(ex.namespaces)[j]);
    }
  }

  /**
   * Namespace mode, whether or not a GET raises: every GET issued is to the
   * namespaced URL of a non-empty whitelisted name, never to the nodes or the
   * cluster-wide pods endpoint.
   */
  lemma NamespaceModeNeverClusterWide(ex: Exporter, session: Session, server: Server)
    requires ex.namespaces != []
    ensures forall r :: r in TraceOf(ex, session, server) ==>
      r.url != NodesUrl(ex) && r.url != PodsUrl(ex) &&
      exists i :: 0 <= i < |ex.namespaces| && ex.namespaces[i] != "" && r.url == NamespacedPodUrl(ex, ex.namespaces[i])
  {
    var prefix := match FirstRaised(ex, server, ex.namespaces)
      case Some(k) => ex.namespaces[..k + 1]
      case None => ex.namespaces;
    var trace := TraceOf(ex, session, server);
    assert trace == Requests(ex, session, prefix);
    forall r | r in trace
      ensures r.url != NodesUrl(ex) && r.url != PodsUrl(ex)
      ensures exists i :: 0 <= i < |ex.namespaces| && ex.namespaces[i] != "" && r.url == NamespacedPodUrl(ex, ex.namespaces[i])
    {
      var j :| 0 <= j < |trace| && trace[j] == r;
      var x := Live(prefix)[j];
      assert r.url == NamespacedPodUrl(ex, x);
      NamespacedPodUrlNotClusterWide(ex, x);
      assert x in Live(prefix);
      var i :| 0 <= i < |prefix| && prefix[i] == x;
      assert ex.namespaces[i] == x;
    }
  }

  /**
   * Cluster-wide mode, when neither GET raises: exactly the nodes GET and then
   * the pods GET; the nodes come from the nodes reply alone and the pods from
   * the pods reply alone, each falling back to no items independently.
   */
  lemma ClusterWideIndependence(ex: Exporter, session: Session, nodes: Reply<NodeMetrics>,
                                pods1: Reply<PodMetrics>, pods2: Reply<PodMetrics>,
                                namespaced: string -> Reply<PodMetrics>)
    requires ex.namespaces == []
    requires nodes.Response? && pods1.Response? && pods2.Response?
    ensures OutcomeOf(ex, Server(nodes, pods1, namespaced)).Fetched?
    ensures OutcomeOf(ex, Server(nodes, pods1, namespaced)).result.nodes ==
      OutcomeOf(ex, Server(nodes, pods2, namespaced)).result.nodes
    ensures OutcomeOf(ex, Server(nodes, pods1, namespaced)).result.nodes == (if Succeeded(nodes) then nodes.json.value else [])
    ensures OutcomeOf(ex, Server(nodes, pods1, namespaced)).result.pods == Some(if Succeeded(pods1) then pods1.json.value else [])
    ensures TraceOf(ex, session, Server(nodes, pods1, namespaced)) == [Get(NodesUrl(ex), session), Get(PodsUrl(ex), session)]
  {
  }

  /** A nodes GET that raises ends `kube_metrics` before the pods GET is issued. */
  lemma ClusterWideNodesRaise(ex: Exporter, session: Session, server: Server)
    requires ex.namespaces == [] && server.nodes.ConnectionFailed?
    ensures OutcomeOf(ex, server) == Raised(NodesUrl(ex))
    ensures TraceOf(ex, session, server) == [Get(NodesUrl(ex), session)]
  {
  }
}
