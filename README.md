# metrics-server-exporter: a Dafny model of the translation pipeline

The exporter polls a Kubernetes metrics-server for node and pod-container CPU
and memory usage and republishes it as Prometheus gauges. This project models
the pipeline inside `MetricsServerExporter` (app.py) with the HTTP replies,
the environment, the files and the clock given as inputs:

- `Quantity` — the inline parse `int(s.translate(...ascii_letters...))`: every
  ASCII letter is deleted wherever it stands, and the rest must be an integer.
  There is no unit scaling.
- `Config` — `__init__`: environment lookups with their defaults, and the
  `str.split(',')` of the blacklist and the namespace whitelist. Python `split`
  never returns an empty list, so the default blacklist is `['']`. A whitelist
  that is set, even to the empty string, switches to namespace mode. Also the
  three metrics-server URLs.
- `Credentials` — `get_token` (a non-empty `K8S_TOKEN`, else the first line of
  the token file, else `None`), the `Authorization` header, and the
  `session.verify` expression written with Python's `and`/`or` value rules.
- `MetricsClient` — `kube_metrics` as a method with the namespace loop. The
  specification functions `OutcomeOf` and `TraceOf` give the result and the
  ordered list of GETs issued.
- `Collector` — `collect` as methods with the node loop and the pod/container
  loops. They are proved equal to `CollectOutcomeOf`. `collect` is a
  generator, so an outcome is the list of metrics yielded plus the exception
  that stopped it, if any.
- `CollectorProperties` — lemmas about that outcome.

Behaviour of the code that is easy to misread:
- A malformed quantity raises `ValueError` and ends `collect`. It is not
  skipped per record. The parse runs before the blacklist test.
- In namespace mode with no successful namespace, `pod_data` stays `None`.
  `collect` then yields the timing and the two (empty) node metrics, and raises
  on `None.get`.
- A missing token gives the header `Bearer None`, not an empty value.
- The default blacklist is `['']`, not empty. A record with an empty container,
  pod or namespace name is therefore dropped.
- A connection error left over after the retries propagates out of
  `kube_metrics` and `collect`. It does not degrade to an empty result. In
  cluster-wide mode, a nodes GET that raises means the pods GET is never issued.

## Model

| member | source | states |
|---|---|---|
| Quantity.StripLetters | app.py:142 | the remainder has no ASCII letter and is no longer than the input |
| Quantity.Parse | app.py:142-143 | succeeds iff the letter-free remainder is a non-empty digit string; on failure the error carries that remainder |
| Quantity.ParseNumeralWithSuffix | app.py:161-162 | a numeral followed by any letters parses to the numeral's value, with no scaling by the suffix |
| Quantity.ParseRoundTrip | app.py:161-162 | parsing the decimal rendering of n followed by any letter suffix gives back n |
| Quantity.ParseIgnoresLettersAnywhere | app.py:142-143 | inserting letters at any position never changes the parse outcome |
| Quantity.ParseMillicores | app.py:142 | "250m" parses to 250 |
| Quantity.ParseKibibytes | app.py:143 | "1024Ki" parses to 1024 |
| Quantity.ParseExponentDigits | app.py:142 | "1e3" parses to 13 |
| Quantity.ParseFractionFails | app.py:143 | "1.5Gi" raises, with remainder "1.5" |
| Quantity.ParseUnitOnlyFails | app.py:143 | "Ki" raises, with the empty remainder |
| Config.Split | app.py:30 | always at least one part, and no part contains the separator |
| Config.JoinSplit | app.py:30 | joining the parts with the separator gives back the original string |
| Config.SplitJoin | app.py:31 | splitting the join of separator-free parts returns those parts |
| Config.EnvGet | app.py:27-32 | `os.environ.get`: the value of a key that is present, else the default |
| Config.Init | app.py:25-42 | token path, CA path, API URL and label selector are the env values or their defaults; insecure TLS iff `--insecure-tls` is among the options; the blacklist and the whitelist rejoin to their env values and have comma-free parts; absent blacklist is `['']`; namespace mode iff `NAMESPACE_WHITELIST` is set |
| Config.NodesUrl | app.py:34 | the API URL followed by exactly `/apis/metrics.k8s.io/v1beta1/nodes` |
| Config.PodsUrl | app.py:35 | the API URL followed by exactly `/apis/metrics.k8s.io/v1beta1/pods` |
| Config.NamespacedPodUrl | app.py:56-57 | the URL's length is the sum of its five pieces: nothing is escaped or dropped |
| Config.NamespacedPodUrlShape | app.py:56-57 | the URL reads as the API URL, the namespaces path, the namespace verbatim, then `/pods?labelSelector=` and the selector verbatim |
| Config.EmptyWhitelistIsNamespaceMode | app.py:31 | a whitelist set to "" yields the one-name list `['']` |
| Config.NamespacedPodUrlInjective | app.py:56-57 | different namespaces give different URLs |
| Config.NamespacedPodUrlNotClusterWide | app.py:34-57 | a namespaced URL differs from both the nodes URL and the cluster-wide pods URL |
| Credentials.ReadLine | app.py:49-50 | text-mode `readline` with universal newlines: the result holds no `\r` and a `\n` only at its end; that `\n` stands for a `\n` or `\r` at the same place in the contents, whose earlier characters are returned unchanged; without it the whole contents are returned |
| Credentials.ReadLineOfLines | app.py:49-50 | contents made of a line, a line ending (`\n`, `\r` or `\r\n`) and anything after read as that line plus one `\n` |
| Credentials.ReadLineOfSingleLine | app.py:49-50 | contents without any `\n` or `\r` are read whole |
| Credentials.ReadLineCrLf | app.py:49-50 | "ab\r\ncd" reads as "ab\n" |
| Credentials.GetToken | app.py:44-54 | a non-empty env token wins; otherwise the first line of the token file; no token iff neither exists |
| Credentials.AuthorizationHeader | app.py:61 | the header starts with "Bearer " and is followed by the token when one is present |
| Credentials.AuthorizationHeaderCollision | app.py:61 | a missing token gives the same header as the literal token "None"; distinct tokens give distinct headers |
| Credentials.VerifyValue | app.py:69 | `verify` is the CA path iff TLS is not insecure, the CA file exists and the path is non-empty; otherwise False |
| Credentials.SessionVerify | app.py:69 | the same for an exporter, with existence read from the files: the CA path iff not insecure, the path exists and is non-empty; otherwise False |
| MetricsClient.IsOk | app.py:86 | `resp.ok` holds exactly when `raise_for_status` would not report a client error (400-499) or a server error (500-599) |
| MetricsClient.OpenSession | app.py:61-69 | every GET carries `Bearer ` followed by a non-empty `K8S_TOKEN`, else by the token file's first line when the file exists, else `Bearer None`; the label selector as its query; and `verify` equal to the CA path iff TLS is not insecure and the non-empty CA path exists, otherwise False |
| MetricsClient.ItemsOrEmpty | app.py:100-120 | a reply that is not OK, or does not decode, contributes no items |
| MetricsClient.Live | app.py:78-81 | the visited names are exactly the non-empty whitelisted names, no more of them than listed |
| MetricsClient.LiveAppend | app.py:78-81 | the names are visited in whitelist order: the visited names of two runs are those of each run in turn |
| MetricsClient.LiveOne | app.py:79-81 | one name is visited once if non-empty and skipped if empty |
| MetricsClient.FirstRaised | app.py:83-85 | a reported position holds a non-empty name whose GET raised |
| MetricsClient.FirstRaisedIsFirst | app.py:78-85 | nothing is reported iff no non-empty name's GET raises; a reported position has no earlier non-empty name whose GET raised |
| MetricsClient.OutcomeOf | app.py:59-124 | namespace mode raises iff some non-empty name's GET raises, at the URL of the first such name, and otherwise reports no nodes; cluster-wide mode raises iff the nodes or the pods GET raises, at the nodes URL iff the nodes GET raised, and otherwise always has pods |
| MetricsClient.TraceOf | app.py:77-99 | every GET goes through the one session; namespace mode issues no more GETs than listed names; cluster-wide mode issues the nodes GET first, and the pods GET second exactly when the nodes GET did not raise |
| MetricsClient.PodDataStep | app.py:95 | the first success becomes `pod_data`; each later success appends its items |
| MetricsClient.KubeMetrics | app.py:59-124 | the method's result and its GET trace equal `OutcomeOf` and `TraceOf` |
| MetricsClient.FetchNamespaces | app.py:77-95 | the namespace loop's result and GET trace equal `OutcomeOf` and `TraceOf` |
| MetricsClient.NamespaceStep | app.py:78-95 | one name of the loop adds a raise iff it is non-empty and its GET raises, its items iff it is non-empty and its reply succeeds, and its GET iff it is non-empty |
| MetricsClient.FetchClusterWide | app.py:96-120 | the cluster-wide branch's result and GET trace equal `OutcomeOf` and `TraceOf` |
| MetricsClient.OkItemsEmptyIff | app.py:75-95 | no item list is collected iff no non-empty namespace succeeded |
| MetricsClient.ReportedIsListed | app.py:86-95 | a pod reported by a visited, successful namespace is accumulated |
| MetricsClient.ListedIsReported | app.py:86-95 | an accumulated pod comes from a visited, successful namespace that reported it |
| MetricsClient.OkItemsMembers | app.py:86-95 | a pod is accumulated iff some non-empty namespace succeeded and reported it |
| MetricsClient.NamespaceModeResult | app.py:75-95 | in namespace mode with no raise: no nodes; pods are None iff no namespace succeeded; otherwise exactly the reported pods |
| MetricsClient.NamespaceModeTrace | app.py:77-85 | in namespace mode when no GET raises: one GET per non-empty name, in order, to that name's URL, and none to the nodes or cluster-wide pods URL |
| MetricsClient.NamespaceModeNeverClusterWide | app.py:77-98 | in namespace mode, whether or not a GET raises: every GET issued is to the namespaced URL of a non-empty whitelisted name, and none to the nodes or cluster-wide pods URL |
| MetricsClient.ClusterWideIndependence | app.py:98-120 | in cluster-wide mode when neither GET raises: exactly two GETs; nodes depend only on the nodes reply and pods only on the pods reply, each with its own fallback to no items |
| MetricsClient.ClusterWideNodesRaise | app.py:98-99 | a raising nodes GET ends the fetch before the pods GET |
| Collector.FirstBadNodeNoneIff | app.py:140-143 | no malformed node quantity is found iff every node's cpu and memory parse |
| Collector.FirstBadRowNoneIff | app.py:159-162 | no malformed container quantity is found iff every container's cpu and memory parse |
| Collector.AnyListed | app.py:164 | `any(...)` holds iff some name is in the blacklist |
| Collector.Blacklisted | app.py:164 | a record is blacklisted iff its container, pod or namespace name is in the one shared list |
| Collector.NodeSeriesSnoc | app.py:140-146 | one more node adds exactly that node's sample at the end of each series |
| Collector.BuildNodeSeries | app.py:140-146 | the node loop raises on the first malformed string; otherwise it builds both node series in input order |
| Collector.AddContainerSamples | app.py:164-166 | one container appends its CPU and memory sample iff it is not blacklisted, and nothing otherwise |
| Collector.AddPodSamples | app.py:159-166 | the container loop of one pod appends exactly that pod's kept samples, or raises on its first malformed string |
| Collector.BuildPodSeries | app.py:155-166 | the pod loop builds both pod series over all containers in order, or raises on the first malformed string |
| Collector.TimingMetric | app.py:133-134 | the timing metric has one sample, named like the metric, whose value is the elapsed time and whose only label `api_url` is the API URL followed by `/metrics.k8s.io` |
| Collector.CollectOutcomeOf | app.py:126-170 | a raising fetch yields nothing and reports its URL; a returning fetch yields the timing metric first; 0, 1, 3 or 5 metrics are yielded, all five iff nothing raised |
| Collector.Collect | app.py:126-170 | the collect method yields exactly `CollectOutcomeOf` of the fetch outcome |
| CollectorProperties.DefaultBlacklistDropsEmptyNames | app.py:30 | with no `NAMES_BLACKLIST`, a record is dropped iff one of its three names is empty |
| CollectorProperties.KeptRowsMembers | app.py:164 | a container is kept iff it is present and not blacklisted |
| CollectorProperties.KeptRowsAppend | app.py:155-164 | filtering keeps order: the kept rows of two runs are each run's kept rows in turn |
| CollectorProperties.SamplesOfIndex | app.py:165-166 | the samples of a row list are one per row, position by position |
| CollectorProperties.PodSeriesIsKeptSamples | app.py:155-166 | a pod series is the samples of the kept rows |
| CollectorProperties.PodSeriesPerKeptRow | app.py:155-166 | each pod series holds exactly one sample per kept container, in order |
| CollectorProperties.PodSeriesLockstep | app.py:164-166 | the pod CPU and memory series have equal length, equal labels at each index, and the values of the same container |
| CollectorProperties.NodeSeriesLockstep | app.py:140-146 | the node CPU and memory series have one sample per node each, labelled `instance` = node name, with that node's values |
| CollectorProperties.PodSampleEmittedIff | app.py:164-166 | a container's sample appears in the series iff none of its names is blacklisted |
| CollectorProperties.CollectYieldOrder | app.py:133-170 | metrics are yielded in the fixed order response_time, nodes_mem, nodes_cpu, pods_mem, pods_cpu; all five iff nothing raised; the first is the timing metric with its one `api_url` sample |
| CollectorProperties.CollectCompletesIff | app.py:140-164 | collect completes iff the fetch returned, pods are present, and every node and container quantity parses, blacklisted or not |
| CollectorProperties.BlacklistedMalformedStillAborts | app.py:161-164 | a malformed quantity in a blacklisted container still raises, after three metrics |
| CollectorProperties.NamespaceModeNothingFetched | app.py:149-155 | in namespace mode when no GET raises and no namespace succeeds, the timing and the two empty node metrics are yielded, then `None.get` raises |
| CollectorProperties.NamespaceModeNoNodeSamples | app.py:76-77 | namespace mode never yields a node sample |
| CollectorProperties.NodesFailPodsSurvive | app.py:100-120 | in cluster-wide mode, a failed nodes reply and a good pods reply whose container quantities all parse give empty node memory and CPU series and the full pod memory and CPU series |
| CollectorProperties.ScenarioQuantities | app.py:161-162 | "250m", "1024Ki", "10m", "2048Ki" parse to 250, 1024, 10, 2048 |
| CollectorProperties.EndToEndScenario | app.py:126-170 | one node and one pod with one container, none of its names blacklisted: five metrics with values 1024, 250, 2048, 10 and the expected labels |
| CollectorProperties.EndToEndScenarioDefaultBlacklist | app.py:30 | the same input under the default blacklist `['']` is reported in full |
| CollectorProperties.EndToEndScenarioBlacklisted | app.py:164 | the same input with the container blacklisted: empty pod series, node series unchanged |

## Left out

- HTTP transport: the `requests.Session`, the `Retry` adapter and its backoff (app.py:63-67) are not modelled. A GET ends either in a response (status plus decoded items, or an undecodable body) or in a connection error that survived the retries.
- Replies are a function of the URL, so the same namespace listed twice gets the same reply both times. The replies do not depend on the headers or the `verify` value. Those are only recorded in each request.
- Query-string encoding: the label selector appears both in the URL and in `params`, and is not URL-encoded or deduplicated.
- Prometheus `Metric` objects, the metric type (`gauge`), `REGISTRY` registration and the HTTP server on port 8000: a metric is a name, a help text and a list of samples.
- The timing value is the elapsed wall-clock time in seconds, given as an input. The clock itself is not modelled.
- Logging, and the `while True: sleep` loop of the main block.
- `getopt` parsing: its output, the list of option pairs, is an input to `Init`.
- Credentials.ReadLine: file contents are the decoded text; the file's encoding and decoding errors are not modelled. Universal-newline translation is modelled.
- The files: existence and contents are a map from path to contents. `os.path.exists` on the CA path is membership in that map.
- Quantity.Parse: accepts only a non-empty string of ASCII digits after the letters are deleted. Python's `int()` also accepts surrounding whitespace, a leading sign, underscores between digits, and non-ASCII digits. Those inputs raise in the model but parse in the source. `int()` also raises on numerals longer than 4300 digits (Python 3.11 and later), which the model parses.
- JSON shape: a reply that decodes is assumed to hold `items`, and each item is assumed to have the `metadata`, `usage` and `containers` fields `collect` reads. The `KeyError` or `TypeError` a malformed document would raise, including the one when a first namespace response lacks `items` (app.py:95), is not modelled.
- Sample values are exact reals: the Python int, or the float seconds of the timing sample. Float rounding is not modelled.
