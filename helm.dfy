/**
 * The Helm test double of helmfile (pkg/exectest/helm.go): a record of the
 * calls it received and the replies it gives, configured by the test.
 */
module ExecTest {
  import opened Wrappers
  import opened HelmTypes
  import Strings
  import Semver
  import Recording

  /** The placeholder `List` returns when no `Lists` map is configured. */
  const DummyListOutput: string := "dummy non-empty helm-list output"

  /** The one chart path `ShowChart` knows, and the version it reports for it. */
  const KnownChartPath: string := "../../foo-bar"
  const KnownChartVersion: string := "3.2.0"

  /** `chart.Metadata`, reduced to the version it carries. */
  datatype Metadata = Metadata(version: string)

  /** `helmexec.Version`: the components as Go `int`s. */
  datatype ExecVersion = ExecVersion(major: int, minor: int, patch: int)

  const Int64Limit: int := 0x8000_0000_0000_0000

  /** Go's `int(x)` for a `uint64` on a 64-bit platform: two's-complement reinterpretation. */
  function GoInt(x: Semver.U64): (r: int)
    ensures -Int64Limit <= r < Int64Limit
    ensures r % Semver.U64Limit == x
    ensures x < Int64Limit <==> r == x
  {
    if x < Int64Limit then x else x - Semver.U64Limit
  }

  /** The composite key of a call: the flags are joined with no separator. */
  function JoinFlags(flags: seq<string>): string
  {
    Strings.Join(flags, "")
  }

  /** Flag lists with the same concatenation build the same list key and the same diff key. */
  lemma FlagBoundariesIgnored(filter: string, name: string, chart: string,
                              p: seq<string>, a: string, b: string, q: seq<string>)
    ensures ListKey(filter, JoinFlags(p + [a, b] + q)) == ListKey(filter, JoinFlags(p + [a + b] + q))
    ensures DiffKey(name, chart, JoinFlags(p + [a, b] + q)) == DiffKey(name, chart, JoinFlags(p + [a + b] + q))
  {
    Strings.JoinMergeAdjacent(p, a, b, q);
  }

  /** `order` lists each key of `keys` exactly once, and `known` is the rendering of `order`, entry by entry. */
  ghost predicate RendersInOrder(known: seq<string>, order: seq<ListKey>, keys: set<ListKey>)
  {
    && |order| == |known|
    && (forall i :: 0 <= i < |order| ==> known[i] == KeyString(order[i]))
    && (forall i, j :: 0 <= i < j < |order| ==> order[i] != order[j])
    && (forall k :: k in keys <==> k in order)
  }

  /** `known` is the rendering of the keys of `keys`, one entry per key, in some order. */
  ghost predicate EnumeratesKeys(known: seq<string>, keys: set<ListKey>)
  {
    && |known| == |keys|
    && exists order :: RendersInOrder(known, order, keys)
  }

  /** Keys that render alike still get one entry each: a rendering listed twice for three keys of which only two share it is rejected. */
  lemma EnumerationCountsEachKey()
    ensures !EnumeratesKeys([KeyString(ListKey("a", ",flags=b")), KeyString(ListKey("c", "")), KeyString(ListKey("c", ""))],
                            {ListKey("a", ",flags=b"), ListKey("a,flags=", "b"), ListKey("c", "")})
  {
  }

  class Helm {
    var Charts: seq<string>
    var Repo: seq<string>
    var Releases: seq<Release>
    var Deleted: seq<Release>
    var Linted: seq<Release>
    var Templated: seq<Release>
    var Lists: Option<map<ListKey, string>>
    var Diffs: Option<map<DiffKey, Option<Error>>>
    var Diffed: seq<Release>
    var FailOnUnexpectedDiff: bool
    var FailOnUnexpectedList: bool
    var Version: Option<Semver.Version>
    /** The outcome of the callback registered for a chart (the callback itself is not modelled). */
    var UpdateDepsCallbacks: map<string, Option<Error>>
    var Helm3: bool

    /** The observation fields as one value. */
    ghost function Observed(): Recording.Observations
      reads this
    {
      Recording.Observations(Charts, Releases, Deleted, Linted, Templated, Diffed, Repo)
    }

    /** A double configured by a test, with nothing observed yet. */
    constructor (lists: Option<map<ListKey, string>>, diffs: Option<map<DiffKey, Option<Error>>>,
                 failOnUnexpectedDiff: bool, failOnUnexpectedList: bool,
                 version: Option<Semver.Version>, callbacks: map<string, Option<Error>>, helm3: bool)
      ensures Observed() == Recording.Empty
      ensures Lists == lists && Diffs == diffs
      ensures FailOnUnexpectedDiff == failOnUnexpectedDiff && FailOnUnexpectedList == failOnUnexpectedList
      ensures Version == version && UpdateDepsCallbacks == callbacks && Helm3 == helm3
    {
      Charts, Repo := [], [];
      Releases, Deleted, Linted, Templated, Diffed := [], [], [], [], [];
      Lists, Diffs := lists, diffs;
      FailOnUnexpectedDiff, FailOnUnexpectedList := failOnUnexpectedDiff, failOnUnexpectedList;
      Version, UpdateDepsCallbacks, Helm3 := version, callbacks, helm3;
    }

    /**
     * A sentinel chart fails with nothing recorded; otherwise the chart is
     * recorded first and then the chart's callback outcome, if any, is returned.
     */
    method UpdateDeps(chart: string) returns (err: Option<Error>)
      modifies this`Charts
      ensures Sentinel(chart) ==> err == Some(UpdateDepsFailure(chart)) && Charts == old(Charts)
      ensures !Sentinel(chart) ==> Charts == old(Charts) + [chart]
      ensures !Sentinel(chart) && chart in UpdateDepsCallbacks ==> err == UpdateDepsCallbacks[chart]
      ensures !Sentinel(chart) && chart !in UpdateDepsCallbacks ==> err == None
      ensures Observed() == Recording.Apply(old(Observed()), Recording.UpdateDepsCall(chart))
    {
      if Strings.Contains(chart, SentinelText) {
        return Some(UpdateDepsFailure(chart));
      }
      Charts := Charts + [chart];
      if chart in UpdateDepsCallbacks {
        var outcome := UpdateDepsCallbacks[chart];
        if outcome.Some? {
          return outcome;
        }
      }
      return None;
    }

    /** A sentinel chart fails with nothing recorded; otherwise the chart is recorded. */
    method BuildDeps(name: string, chart: string, flags: seq<string>) returns (err: Option<Error>)
      modifies this`Charts
      ensures err.Some? <==> Sentinel(chart)
      ensures err.Some? ==> err.value == Simulated && Charts == old(Charts)
      ensures err.None? ==> Charts == old(Charts) + [chart]
      ensures Observed() == Recording.Apply(old(Observed()), Recording.BuildDepsCall(name, chart, flags))
    {
      if Strings.Contains(chart, SentinelText) {
        return Some(Simulated);
      }
      Charts := Charts + [chart];
      return None;
    }

    /** Overwrites `Repo` with the ten arguments, the two flags rendered as "true"/"false". */
    method AddRepo(name: string, repository: string, cafile: string, certfile: string,
                   keyfile: string, username: string, password: string, managed: string,
                   passCredentials: bool, skipTLSVerify: bool) returns (err: Option<Error>)
      modifies this`Repo
      ensures err == None
      ensures RepoArgsOf(Repo) == Some(RepoArgs(name, repository, cafile, certfile, keyfile,
                                                username, password, managed, passCredentials, skipTLSVerify))
      ensures Repo[..8] == [name, repository, cafile, certfile, keyfile, username, password, managed]
      ensures Observed() == Recording.Apply(old(Observed()), Recording.AddRepoCall(RepoArgs(
                name, repository, cafile, certfile, keyfile, username, password, managed,
                passCredentials, skipTLSVerify)))
    {
      var args := RepoArgs(name, repository, cafile, certfile, keyfile, username, password,
                           managed, passCredentials, skipTLSVerify);
      Repo := [name, repository, cafile, certfile, keyfile, username, password, managed,
               BoolText(passCredentials), BoolText(skipTLSVerify)];
      RepoTupleRoundTrip(args);
      return None;
    }

    /** A sentinel name fails with nothing recorded; otherwise the release and its chart are both recorded. */
    method SyncRelease(name: string, chart: string, flags: seq<string>) returns (err: Option<Error>)
      modifies this`Releases, this`Charts
      ensures err.Some? <==> Sentinel(name)
      ensures err.Some? ==> err.value == Simulated && Releases == old(Releases) && Charts == old(Charts)
      ensures err.None? ==> Releases == old(Releases) + [Release(name, flags)] && Charts == old(Charts) + [chart]
      ensures Observed() == Recording.Apply(old(Observed()), Recording.SyncCall(name, chart, flags))
    {
      if Strings.Contains(name, SentinelText) {
        return Some(Simulated);
      }
      Releases := Releases + [Release(name, flags)];
      Charts := Charts + [chart];
      return None;
    }

    /**
     * Always records the call, then resolves the reply: no `Diffs` map means
     * no error; a registered key gives its stored error (possibly none); an
     * unregistered key is an error only in strict mode.
     */
    method DiffRelease(name: string, chart: string, suppressDiff: bool, flags: seq<string>)
      returns (err: Option<Error>)
      modifies this`Diffed
      ensures Diffed == old(Diffed) + [Release(name, flags)]
      ensures Diffs.None? ==> err == None
      ensures Diffs.Some? && DiffKey(name, chart, JoinFlags(flags)) in Diffs.value ==>
                err == Diffs.value[DiffKey(name, chart, JoinFlags(flags))]
      ensures Diffs.Some? && DiffKey(name, chart, JoinFlags(flags)) !in Diffs.value ==>
                err == (if FailOnUnexpectedDiff then Some(UnexpectedDiff(DiffKey(name, chart, JoinFlags(flags))))
                        else None)
      ensures Observed() == Recording.Apply(old(Observed()), Recording.DiffCall(name, chart, flags))
    {
      Diffed := Diffed + [Release(name, flags)];
      if Diffs.None? {
        return None;
      }
      var key := DiffKey(name, chart, Strings.Join(flags, ""));
      var found := key in Diffs.value;
      if !found && FailOnUnexpectedDiff {
        return Some(UnexpectedDiff(key));
      }
      err := if found then Diffs.value[key] else None;
    }

    /** A sentinel name fails with nothing recorded; otherwise the release is recorded in `Releases`. */
    method ReleaseStatus(release: string, flags: seq<string>) returns (err: Option<Error>)
      modifies this`Releases
      ensures err.Some? <==> Sentinel(release)
      ensures err.Some? ==> err.value == Simulated && Releases == old(Releases)
      ensures err.None? ==> Releases == old(Releases) + [Release(release, flags)]
      ensures Observed() == Recording.Apply(old(Observed()), Recording.StatusCall(release, flags))
    {
      if Strings.Contains(release, SentinelText) {
        return Some(Simulated);
      }
      Releases := Releases + [Release(release, flags)];
      return None;
    }

    /** A sentinel name fails with nothing recorded; otherwise the release is recorded in `Deleted`. */
    method DeleteRelease(name: string, flags: seq<string>) returns (err: Option<Error>)
      modifies this`Deleted
      ensures err.Some? <==> Sentinel(name)
      ensures err.Some? ==> err.value == Simulated && Deleted == old(Deleted)
      ensures err.None? ==> Deleted == old(Deleted) + [Release(name, flags)]
      ensures Observed() == Recording.Apply(old(Observed()), Recording.DeleteCall(name, flags))
    {
      if Strings.Contains(name, SentinelText) {
        return Some(Simulated);
      }
      Deleted := Deleted + [Release(name, flags)];
      return None;
    }

    /**
     * Resolves a list call without changing anything: the placeholder when no
     * `Lists` map is configured, the stored output on a hit, and on a miss an
     * empty output, with an error naming the key and every configured key in
     * strict mode.
     */
    method List(filter: string, flags: seq<string>) returns (out: string, err: Option<Error>)
      ensures Lists.None? ==> out == DummyListOutput && err == None
      ensures Lists.Some? && ListKey(filter, JoinFlags(flags)) in Lists.value ==>
                out == Lists.value[ListKey(filter, JoinFlags(flags))] && err == None
      ensures Lists.Some? && ListKey(filter, JoinFlags(flags)) !in Lists.value ==>
                out == "" && (err.Some? <==> FailOnUnexpectedList)
      ensures err.Some? ==>
                && Lists.Some?
                && err.value.UnexpectedList?
                && err.value.listKey == ListKey(filter, JoinFlags(flags))
                && err.value.listKey !in Lists.value
                && EnumeratesKeys(err.value.known, Lists.value.Keys)
    {
      var key := ListKey(filter, Strings.Join(flags, ""));
      if Lists.None? {
        return DummyListOutput, None;
      }
      var lists := Lists.value;
      if key !in lists && FailOnUnexpectedList {
        var known: seq<string> := [];
        var rest := lists.Keys;
        ghost var order: seq<ListKey> := [];
        while rest != {}
          invariant rest <= lists.Keys
          invariant |known| + |rest| == |lists.Keys|
          invariant RendersInOrder(known, order, lists.Keys - rest)
          decreases |rest|
        {
          var k :| k in rest;
          known := known + [KeyString(k)];
          order := order + [k];
          rest := rest - {k};
        }
        assert lists.Keys - rest == lists.Keys;
        return "", Some(UnexpectedList(key, known));
      }
      out := if key in lists then lists[key] else "";
      err := None;
    }

    /** A sentinel name fails with nothing recorded; otherwise the release is recorded in `Releases`. */
    method TestRelease(name: string, flags: seq<string>) returns (err: Option<Error>)
      modifies this`Releases
      ensures err.Some? <==> Sentinel(name)
      ensures err.Some? ==> err.value == Simulated && Releases == old(Releases)
      ensures err.None? ==> Releases == old(Releases) + [Release(name, flags)]
      ensures Observed() == Recording.Apply(old(Observed()), Recording.TestCall(name, flags))
    {
      if Strings.Contains(name, SentinelText) {
        return Some(Simulated);
      }
      Releases := Releases + [Release(name, flags)];
      return None;
    }

    /** A sentinel name fails with nothing recorded; otherwise the release is recorded in `Linted`. */
    method Lint(name: string, chart: string, flags: seq<string>) returns (err: Option<Error>)
      modifies this`Linted
      ensures err.Some? <==> Sentinel(name)
      ensures err.Some? ==> err.value == Simulated && Linted == old(Linted)
      ensures err.None? ==> Linted == old(Linted) + [Release(name, flags)]
      ensures Observed() == Recording.Apply(old(Observed()), Recording.LintCall(name, chart, flags))
    {
      if Strings.Contains(name, SentinelText) {
        return Some(Simulated);
      }
      Linted := Linted + [Release(name, flags)];
      return None;
    }

    /** A sentinel name fails with nothing recorded; otherwise the release is recorded in `Templated`. */
    method TemplateRelease(name: string, chart: string, flags: seq<string>) returns (err: Option<Error>)
      modifies this`Templated
      ensures err.Some? <==> Sentinel(name)
      ensures err.Some? ==> err.value == Simulated && Templated == old(Templated)
      ensures err.None? ==> Templated == old(Templated) + [Release(name, flags)]
      ensures Observed() == Recording.Apply(old(Observed()), Recording.TemplateCall(name, chart, flags))
    {
      if Strings.Contains(name, SentinelText) {
        return Some(Simulated);
      }
      Templated := Templated + [Release(name, flags)];
      return None;
    }

    /** The configured `Helm3` flag when no version is set, else whether the major version is 3. */
    function IsHelm3(): bool
      reads this
    {
      if Version.None? then Helm3 else Version.value.major == 3
    }

    /** The configured version as Go `int`s; a nil `Version` is not a valid receiver state here. */
    function GetVersion(): (r: ExecVersion)
      reads this
      requires Version.Some?
      ensures Version.value == Semver.Version(r.major % Semver.U64Limit, r.minor % Semver.U64Limit,
                                              r.patch % Semver.U64Limit)
      ensures -Int64Limit <= r.major < Int64Limit && -Int64Limit <= r.minor < Int64Limit
      ensures -Int64Limit <= r.patch < Int64Limit
      ensures Version.value.major < Int64Limit ==> r.major == Version.value.major
      ensures Version.value.minor < Int64Limit ==> r.minor == Version.value.minor
      ensures Version.value.patch < Int64Limit ==> r.patch == Version.value.patch
    {
      ExecVersion(GoInt(Version.value.major), GoInt(Version.value.minor), GoInt(Version.value.patch))
    }

    /** Unknown versions are never new enough; a known one is when it equals or follows `v`. */
    function IsVersionAtLeast(v: Semver.Version): (r: bool)
      reads this
      ensures r <==> Version.Some? && (Version.value == v || Semver.Less(v, Version.value))
    {
      if Version.None? then false
      else Semver.Compare(Version.value, v) == 0 || Semver.Compare(Version.value, v) > 0
    }

    /** A fixed table of one chart path; every other path is a lookup error. */
    function ShowChart(chartPath: string): (r: Result<Metadata, Error>)
      ensures r.Success? <==> chartPath == KnownChartPath
      ensures r.Success? ==> r.value.version == KnownChartVersion
      ensures r.Failure? ==> r.error == ChartNotFound
    {
      if chartPath == KnownChartPath then Success(Metadata(KnownChartVersion)) else Failure(ChartNotFound)
    }
  }

  /**
   * With a version configured, the major-version-3 query agrees with the
   * version ordering: at least 3.0.0 and not yet 4.0.0.
   */
  lemma Helm3IsMajorLine3(h: Helm)
    requires h.Version.Some?
    ensures h.IsHelm3() <==>
              h.IsVersionAtLeast(Semver.Version(3, 0, 0)) && !h.IsVersionAtLeast(Semver.Version(4, 0, 0))
  {
  }

  /** Without a version configured, the `Helm3` flag decides and no minimum is ever met. */
  lemma NoVersionConfigured(h: Helm, v: Semver.Version)
    requires h.Version.None?
    ensures h.IsHelm3() == h.Helm3
    ensures !h.IsVersionAtLeast(v)
  {
  }

  /** A sentinel chart fails and records nothing; an ordinary chart succeeds and is recorded. */
  method UpdateDepsScenario(broken: string, ok: string)
    requires Sentinel(broken) && !Sentinel(ok)
  {
    var h := new Helm(None, None, false, false, None, map[], false);
    var err := h.UpdateDeps(broken);
    assert err.Some? && h.Charts == [];
    err := h.UpdateDeps(ok);
    assert err == None && h.Charts == [ok];
  }

  /** Two calls on the double leave the observation lists that running the two calls gives. */
  method StatusThenDiff(h: Helm, name: string, chart: string, flags: seq<string>)
    modifies h
    ensures h.Observed() == Recording.Run(old(h.Observed()),
              [Recording.StatusCall(name, flags), Recording.DiffCall(name, chart, flags)])
  {
    ghost var o := h.Observed();
    var err := h.ReleaseStatus(name, flags);
    Recording.RunSnoc(o, [], Recording.StatusCall(name, flags));
    err := h.DiffRelease(name, chart, false, flags);
    Recording.RunSnoc(o, [Recording.StatusCall(name, flags)], Recording.DiffCall(name, chart, flags));
  }

  /** In strict mode a registered diff key succeeds and an unregistered one fails naming its key. */
  method DiffScenario()
  {
    var known := DiffKey("app", "chart-x", "--flag");
    var h := new Helm(None, Some(map[known := None]), true, false, None, map[], false);
    var err := h.DiffRelease("app", "chart-x", false, ["--flag"]);
    assert err == None;
    err := h.DiffRelease("other", "chart-x", false, ["--flag"]);
    assert err == Some(UnexpectedDiff(DiffKey("other", "chart-x", "--flag")));
    assert |h.Diffed| == 2;
  }
}
