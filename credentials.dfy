/**
 * Where the bearer token and the TLS `verify` setting of every request come
 * from: `get_token`, the `Authorization` header and the `session.verify`
 * expression of `kube_metrics`.
 */
module Credentials {
  import opened Wrappers
  import opened Config

  /** The files the process can see: a path is present iff it exists, mapped to its contents. */
  type Files = map<string, string>

  /**
   * `f.readline()` on a file opened in text mode. Newlines are universal: a
   * line ends at "\n", at "\r\n" or at a lone "\r", and the ending comes back
   * as "\n". A file with none of them is read whole.
   */
  function ReadLine(contents: string): (line: string)
    ensures |line| <= |contents|
    ensures forall i :: 0 <= i < |line| ==> line[i] != '\r'
    ensures forall i :: 0 <= i < |line| - 1 ==> line[i] != '\n'
    ensures line != [] && line[|line| - 1] == '\n' ==>
      line[..|line| - 1] == contents[..|line| - 1] &&
      (contents[|line| - 1] == '\n' || contents[|line| - 1] == '\r')
    ensures line == [] || line[|line| - 1] != '\n' ==> line == contents
  {
    if contents == [] then []
    else if contents[0] == '\n' || contents[0] == '\r' then "\n"
    else [contents[0]] + ReadLine(contents[1..])
  }

  /** The first line stops at its ending ("\n", "\r\n" or a lone "\r": whatever starts with either) and reads back with "\n". */
  lemma {:induction false} ReadLineOfLines(line: string, eol: string, rest: string)
    requires '\n' !in line && '\r' !in line
    requires |eol| >= 1 && (eol[0] == '\n' || eol[0] == '\r')
    ensures ReadLine(line + eol + rest) == line + "\n"
  {
    var contents := line + eol + rest;
    if line == [] {
      assert contents[0] == eol[0];
      assert contents[0] == '\n' || contents[0] == '\r';
    } else {
      assert contents[0] == line[0] && line[0] != '\n' && line[0] != '\r';
      assert contents[1..] == line[1..] + eol + rest;
      assert ReadLine(contents) == [line[0]] + ReadLine(contents[1..]);
      ReadLineOfLines(line[1..], eol, rest);
      assert [line[0]] + (line[1..] + "\n") == line + "\n";
    }
  }

  /** A file with no line ending is read whole. */
  lemma {:induction false} ReadLineOfSingleLine(contents: string)
    requires '\n' !in contents && '\r' !in contents
    ensures ReadLine(contents) == contents
  {
    if contents != [] {
      ReadLineOfSingleLine(contents[1..]);
      assert [contents[0]] + contents[1..] == contents;
    }
  }

  /** "ab\r\ncd" reads as "ab\n": the Windows ending is translated, not kept. */
  lemma ReadLineCrLf()
    ensures ReadLine("ab\r\ncd") == "ab\n"
  {
    ReadLineOfLines("ab", "\r\n", "cd");
    assert "ab" + "\r\n" + "cd" == "ab\r\ncd";
  }

  /**
   * `get_token`: a non-empty `K8S_TOKEN` wins; otherwise the first line of the
   * token file when it exists; otherwise no token.
   */
  function GetToken(ex: Exporter, env: Env, files: Files): (token: Option<string>)
    ensures "K8S_TOKEN" in env && env["K8S_TOKEN"] != "" ==> token == Some(env["K8S_TOKEN"])
    ensures token.None? <==> EnvGet(env, "K8S_TOKEN", "") == "" && ex.svcToken !in files
    ensures EnvGet(env, "K8S_TOKEN", "") == "" && ex.svcToken in files ==>
      token == Some(ReadLine(files[ex.svcToken]))
  {
    if "K8S_TOKEN" in env && env["K8S_TOKEN"] != "" then Some(env["K8S_TOKEN"])
    else if ex.svcToken in files then Some(ReadLine(files[ex.svcToken]))
    else None
  }

  /** The header value `f"Bearer {self.get_token()}"`. */
  function AuthorizationHeader(token: Option<string>): (header: string)
    ensures |header| >= 7 && header[..7] == "Bearer "
    ensures token.Some? ==> header[7..] == token.value
  {
    "Bearer " + match token { case Some(t) => t case None => "None" }
  }

  /**
   * A missing token is rendered by the f-string as the word None, so the
   * request looks exactly like one carrying the literal token "None"; two
   * present tokens never share a header.
   */
  lemma AuthorizationHeaderCollision(t1: string, t2: string)
    ensures AuthorizationHeader(None) == AuthorizationHeader(Some("None"))
    ensures AuthorizationHeader(Some(t1)) == AuthorizationHeader(Some(t2)) ==> t1 == t2
  {
    if AuthorizationHeader(Some(t1)) == AuthorizationHeader(Some(t2)) {
      assert t1 == AuthorizationHeader(Some(t1))[7..];
    }
  }

  /** A Python value of the two kinds the `verify` expression can produce. */
  datatype PyValue = PyBool(b: bool) | PyStr(s: string)

  /** Python truthiness: False and the empty string are false. */
  predicate Truthy(v: PyValue) {
    match v
    case PyBool(b) => b
    case PyStr(s) => s != ""
  }

  /** Python's `a and b` yields one of its operands, as does `a or b`. */
  function PyAnd(a: PyValue, b: PyValue): PyValue {
    if Truthy(a) then b else a
  }

  function PyOr(a: PyValue, b: PyValue): PyValue {
    if Truthy(a) then a else b
  }

  /** `not self.insecure_tls and os.path.exists(self.ca_cert) and self.ca_cert or False`. */
  function VerifyValue(insecure: bool, caCert: string, caExists: bool): (v: PyValue)
    ensures v == PyStr(caCert) <==> !insecure && caExists && caCert != ""
    ensures v != PyStr(caCert) ==> v == PyBool(false)
  {
    PyOr(PyAnd(PyAnd(PyBool(!insecure), PyBool(caExists)), PyStr(caCert)), PyBool(false))
  }

  /** The `session.verify` setting of an exporter, with the CA path looked up in the files. */
  function SessionVerify(ex: Exporter, files: Files): (verify: PyValue)
    ensures verify == PyStr(ex.caCert) <==> !ex.insecureTls && ex.caCert in files && ex.caCert != ""
    ensures verify != PyStr(ex.caCert) ==> verify == PyBool(false)
  {
    VerifyValue(ex.insecureTls, ex.caCert, ex.caCert in files)
  }
}
