/**
 * The value types of pkg/exectest/helm.go: the lookup keys, the recorded
 * release, the errors the double returns, and the tuple `AddRepo` records.
 */
module HelmTypes {
  import opened Wrappers
  import Strings

  /** Key of the `Lists` expectation map; `flags` is the flags joined with "". */
  datatype ListKey = ListKey(filter: string, flags: string)

  /** Key of the `Diffs` expectation map; `flags` is the flags joined with "". */
  datatype DiffKey = DiffKey(name: string, chart: string, flags: string)

  /** One observed call on a named release. */
  datatype Release = Release(name: string, flags: seq<string>)

  /** The errors the double returns; their messages are replaced by what they carry. */
  datatype Error =
    | UpdateDepsFailure(chart: string)                 // "simulated UpdateDeps failure for chart: ..."
    | Simulated                                        // errors.New("error")
    | UnexpectedDiff(diffKey: DiffKey)                 // "unexpected diff with key: ..."
    | UnexpectedList(listKey: ListKey, known: seq<string>)  // "unexpected list key: ... not found in ..."
    | ChartNotFound                                    // "fake test error"
    | Configured(message: string)                      // an error value a test put into Diffs or a callback

  /** The marker whose presence in a name or chart makes an operation fail. */
  const SentinelText: string := "error"

  predicate Sentinel(s: string)
  {
    Strings.Contains(s, SentinelText)
  }

  /** The sentinel is found in the middle of a chart reference. */
  lemma SentinelInsideName()
    ensures Sentinel("broken-error-chart")
  {
  }

  /** Names that do not spell out the sentinel, in lower case, do not trigger it. */
  lemma NoSentinelInName()
    ensures !Sentinel("ok-chart") && !Sentinel("Error")
  {
    Strings.MissingFirstChar("ok-chart", SentinelText);
    Strings.MissingFirstChar("Error", SentinelText);
  }

  /** `ListKey.String`: `listkey(filter=<filter>,flags=<flags>)`. */
  function KeyString(k: ListKey): string
  {
    "listkey(filter=" + k.filter + ",flags=" + k.flags + ")"
  }

  /** The rendering of a key names both its filter and its flags. */
  lemma KeyStringNamesKey(k: ListKey)
    ensures Strings.Contains(KeyString(k), k.filter)
    ensures Strings.Contains(KeyString(k), k.flags)
  {
    var s := KeyString(k);
    var pre := "listkey(filter=";
    var mid := ",flags=";
    assert s[|pre|..|pre| + |k.filter|] == k.filter;
    Strings.ContainsAt(s, k.filter, |pre|);
    var at := |pre| + |k.filter| + |mid|;
    assert s[at..at + |k.flags|] == k.flags;
    Strings.ContainsAt(s, k.flags, at);
  }

  /** Two different keys can render the same: the rendering does not identify a key. */
  lemma KeyStringAmbiguous()
    ensures KeyString(ListKey("a", ",flags=b")) == KeyString(ListKey("a,flags=", "b"))
    ensures ListKey("a", ",flags=b") != ListKey("a,flags=", "b")
  {
  }

  /** Go's `fmt.Sprintf("%v", b)` for a bool. */
  function BoolText(b: bool): string
  {
    if b then "true" else "false"
  }

  function ParseBool(s: string): Option<bool>
  {
    if s == "true" then Some(true) else if s == "false" then Some(false) else None
  }

  /** The arguments of `AddRepo`, in order. */
  datatype RepoArgs = RepoArgs(
    name: string, repository: string, cafile: string, certfile: string, keyfile: string,
    username: string, password: string, managed: string,
    passCredentials: bool, skipTLSVerify: bool)

  /** The ten-element tuple `AddRepo` stores in `Repo`. */
  function RepoTuple(a: RepoArgs): (r: seq<string>)
    ensures |r| == 10
    ensures r[8] in {"true", "false"} && r[9] in {"true", "false"}
  {
    [a.name, a.repository, a.cafile, a.certfile, a.keyfile, a.username, a.password, a.managed,
     BoolText(a.passCredentials), BoolText(a.skipTLSVerify)]
  }

  /** Reads the arguments back out of a recorded tuple. */
  function RepoArgsOf(t: seq<string>): Option<RepoArgs>
  {
    if |t| != 10 || ParseBool(t[8]).None? || ParseBool(t[9]).None? then None
    else Some(RepoArgs(t[0], t[1], t[2], t[3], t[4], t[5], t[6], t[7],
                       ParseBool(t[8]).value, ParseBool(t[9]).value))
  }

  /** The recorded tuple loses nothing: every argument can be read back. */
  lemma RepoTupleRoundTrip(a: RepoArgs)
    ensures RepoArgsOf(RepoTuple(a)) == Some(a)
  {
  }
}
