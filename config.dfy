/**
 * The configuration `MetricsServerExporter.__init__` reads from the
 * environment, the comma splitting it applies, and the three upstream URLs.
 */
module Config {

  /** The process environment, `os.environ`. */
  type Env = map<string, string>

  /** `os.environ.get(key, default)`. */
  function EnvGet(env: Env, key: string, default: string): (value: string)
    ensures key in env ==> value == env[key]
    ensures key !in env ==> value == default
  {
    if key in env then env[key] else default
  }

  /** Python's `s.split(sep)` with an explicit one-character separator. */
  function Split(s: string, sep: char): (parts: seq<string>)
    ensures |parts| >= 1
    ensures forall i :: 0 <= i < |parts| ==> sep !in parts[i]
  {
    if s == [] then [[]]
    else
      var rest := Split(s[1..], sep);
      if s[0] == sep then [[]] + rest else [[s[0]] + rest[0]] + rest[1..]
  }

  /** `sep.join(parts)`. */
  function Join(parts: seq<string>, sep: char): string
    requires |parts| >= 1
  {
    if |parts| == 1 then parts[0] else parts[0] + [sep] + Join(parts[1..], sep)
  }

  /** Splitting loses nothing: joining the parts gives the original string back. */
  lemma {:induction false} JoinSplit(s: string, sep: char)
    ensures Join(Split(s, sep), sep) == s
  {
    if s != [] {
      var rest := Split(s[1..], sep);
      JoinSplit(s[1..], sep);
      if s[0] == sep {
        assert ([[]] + rest)[1..] == rest;
      } else {
        var parts := [[s[0]] + rest[0]] + rest[1..];
        if |rest| > 1 {
          assert parts[1..] == rest[1..];
          assert Join(rest, sep) == rest[0] + [sep] + Join(rest[1..], sep);
        }
      }
    }
  }

  lemma {:induction false} SplitOfPart(a: string, sep: char)
    requires sep !in a
    ensures Split(a, sep) == [a]
  {
    if a != [] {
      SplitOfPart(a[1..], sep);
      assert [a[0]] + a[1..] == a;
    }
  }

  lemma {:induction false} SplitAtSeparator(a: string, sep: char, rest: string)
    requires sep !in a
    ensures Split(a + [sep] + rest, sep) == [a] + Split(rest, sep)
  {
    if a == [] {
      assert a + [sep] + rest == [sep] + rest;
      assert ([sep] + rest)[1..] == rest;
    } else {
      assert (a + [sep] + rest)[1..] == a[1..] + [sep] + rest;
      SplitAtSeparator(a[1..], sep, rest);
      assert [a[0]] + a[1..] == a;
    }
  }

  /** Joining parts that hold no separator is undone by splitting. */
  lemma {:induction false} SplitJoin(parts: seq<string>, sep: char)
    requires |parts| >= 1
    requires forall i :: 0 <= i < |parts| ==> sep !in parts[i]
    ensures Split(Join(parts, sep), sep) == parts
  {
    if |parts| == 1 {
      SplitOfPart(parts[0], sep);
    } else {
      SplitJoin(parts[1..], sep);
      SplitAtSeparator(parts[0], sep, Join(parts[1..], sep));
      assert [parts[0]] + parts[1..] == parts;
    }
  }

  /** The fields `__init__` sets; none of them changes afterwards. */
  datatype Exporter = Exporter(
    svcToken: string,
    caCert: string,
    apiUrl: string,
    namesBlacklist: seq<string>,
    namespaces: seq<string>,
    labelSelector: string,
    insecureTls: bool)

  const DefaultTokenPath := "/var/run/secrets/kubernetes.io/serviceaccount/token"
  const DefaultCaPath := "/var/run/secrets/kubernetes.io/serviceaccount/ca.crt"
  const DefaultApiUrl := "https://kubernetes.default.svc"

  /**
   * `MetricsServerExporter()`, given the environment and the options
   * `getopt.gnu_getopt` produced from the command line (`set_tls_mode`).
   */
  function Init(env: Env, options: seq<(string, string)>): (ex: Exporter)
    ensures ex.insecureTls <==> exists i :: 0 <= i < |options| && options[i] == ("--insecure-tls", "")
    ensures |ex.namesBlacklist| >= 1
    ensures Join(ex.namesBlacklist, ',') == EnvGet(env, "NAMES_BLACKLIST", "")
    ensures "NAMES_BLACKLIST" !in env ==> ex.namesBlacklist == [""]
    ensures ex.namespaces == [] <==> "NAMESPACE_WHITELIST" !in env
    ensures "NAMESPACE_WHITELIST" in env ==> Join(ex.namespaces, ',') == env["NAMESPACE_WHITELIST"]
    ensures forall i :: 0 <= i < |ex.namesBlacklist| ==> ',' !in ex.namesBlacklist[i]
    ensures forall i :: 0 <= i < |ex.namespaces| ==> ',' !in ex.namespaces[i]
    ensures ex.svcToken == EnvGet(env, "K8S_FILEPATH_TOKEN", DefaultTokenPath)
    ensures ex.caCert == EnvGet(env, "K8S_CA_CERT_PATH", DefaultCaPath)
    ensures ex.apiUrl == EnvGet(env, "K8S_ENDPOINT", DefaultApiUrl)
    ensures ex.labelSelector == EnvGet(env, "LABEL_SELECTOR", "")
  {
    var blacklist := Split(EnvGet(env, "NAMES_BLACKLIST", ""), ',');
    var namespaces := if "NAMESPACE_WHITELIST" in env then Split(env["NAMESPACE_WHITELIST"], ',') else [];
    JoinSplit(EnvGet(env, "NAMES_BLACKLIST", ""), ',');
    JoinSplit(EnvGet(env, "NAMESPACE_WHITELIST", ""), ',');
    Exporter(
      EnvGet(env, "K8S_FILEPATH_TOKEN", DefaultTokenPath),
      EnvGet(env, "K8S_CA_CERT_PATH", DefaultCaPath),
      EnvGet(env, "K8S_ENDPOINT", DefaultApiUrl),
      blacklist,
      namespaces,
      EnvGet(env, "LABEL_SELECTOR", ""),
      ("--insecure-tls", "") in options)
  }

  /**
   * A whitelist that is set but empty still switches to namespace mode: it
   * splits into one empty name, which the fan-out then skips.
   */
  lemma EmptyWhitelistIsNamespaceMode(env: Env, options: seq<(string, string)>)
    requires "NAMESPACE_WHITELIST" in env && env["NAMESPACE_WHITELIST"] == ""
    ensures Init(env, options).namespaces == [""]
  {
  }

  /** The paths the source writes after the API URL, as literal as the source's f-strings. */
  const NodesPath := "/apis/metrics.k8s.io/v1beta1/nodes"
  const PodsPath := "/apis/metrics.k8s.io/v1beta1/pods"
  const NamespacesPath := "/apis/metrics.k8s.io/v1beta1/namespaces/"
  const SelectorQuery := "/pods?labelSelector="

  /** `api_nodes_url`: the API URL followed by the nodes path. */
  function NodesUrl(ex: Exporter): (url: string)
    ensures |url| == |ex.apiUrl| + |NodesPath|
    ensures url[..|ex.apiUrl|] == ex.apiUrl
    ensures url[|ex.apiUrl|..] == NodesPath
  {
    ex.apiUrl + NodesPath
  }

  /** `api_pods_url`: the API URL followed by the cluster-wide pods path. */
  function PodsUrl(ex: Exporter): (url: string)
    ensures |url| == |ex.apiUrl| + |PodsPath|
    ensures url[..|ex.apiUrl|] == ex.apiUrl
    ensures url[|ex.apiUrl|..] == PodsPath
  {
    ex.apiUrl + PodsPath
  }

  /**
   * `set_namespaced_pod_url`: the namespace and the selector are written into
   * the URL as they are, so its length is that of the five pieces.
   */
  function NamespacedPodUrl(ex: Exporter, namespace: string): (url: string)
    ensures |url| == |ex.apiUrl| + |NamespacesPath| + |namespace| + |SelectorQuery| + |ex.labelSelector|
  {
    ex.apiUrl + NamespacesPath + namespace + SelectorQuery + ex.labelSelector
  }

  /** The namespaced URL read piece by piece: API URL, namespaces path, the namespace, the selector query. */
  lemma NamespacedPodUrlShape(ex: Exporter, namespace: string)
    ensures var url, n := NamespacedPodUrl(ex, namespace), |ex.apiUrl| + |NamespacesPath|;
      url[..|ex.apiUrl|] == ex.apiUrl &&
      url[|ex.apiUrl|..n] == NamespacesPath &&
      url[n..n + |namespace|] == namespace &&
      url[n + |namespace|..] == SelectorQuery + ex.labelSelector
  {
    FourParts(ex.apiUrl, NamespacesPath, namespace, SelectorQuery + ex.labelSelector);
  }

  /** Slicing a four-part concatenation at its seams gives back the parts. */
  lemma FourParts(a: string, b: string, c: string, d: string)
    ensures var s := a + b + c + d;
      s[..|a|] == a && s[|a|..|a| + |b|] == b &&
      s[|a| + |b|..|a| + |b| + |c|] == c && s[|a| + |b| + |c|..] == d
  {
    var s := a + b + c + d;
    assert forall i :: 0 <= i < |b| ==> s[|a| + i] == b[i];
    assert forall i :: 0 <= i < |c| ==> s[|a| + |b| + i] == c[i];
  }

  /** Different namespaces are asked for at different URLs. */
  lemma NamespacedPodUrlInjective(ex: Exporter, a: string, b: string)
    requires NamespacedPodUrl(ex, a) == NamespacedPodUrl(ex, b)
    ensures a == b
  {
    var n := |ex.apiUrl| + |NamespacesPath|;
    var ua, ub := NamespacedPodUrl(ex, a), NamespacedPodUrl(ex, b);
    assert |a| == |b|;
    assert ua[n..n + |a|] == a;
    assert ub[n..n + |b|] == b;
  }

  /** A namespaced URL is never the cluster-wide nodes or pods URL. */
  lemma NamespacedPodUrlNotClusterWide(ex: Exporter, namespace: string)
    ensures NamespacedPodUrl(ex, namespace) != NodesUrl(ex)
    ensures NamespacedPodUrl(ex, namespace) != PodsUrl(ex)
  {
    var k := |ex.apiUrl| + |"/apis/metrics.k8s.io/v1beta1/"|;
    var u := NamespacedPodUrl(ex, namespace);
    assert u[k + 1] == 'a';
    assert NodesUrl(ex)[k + 1] == 'o';
    assert u[k] == 'n';
    assert PodsUrl(ex)[k] == 'p';
  }
}
