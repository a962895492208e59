# A verified model of helmfile's Helm test double

helmfile's `pkg/exectest` package contains `Helm`, a fake of the Helm executor
used in helmfile's tests. Its recording operations (`UpdateDeps`, `BuildDeps`,
`SyncRelease`, `DiffRelease`, `ReleaseStatus`, `DeleteRelease`, `TestRelease`,
`Lint`, `TemplateRelease`) note the call in append-only observation lists:
`Charts`, `Releases`, `Deleted`, `Linted`, `Templated` and `Diffed`. A call
whose checked input holds the sentinel records nothing. The checked input is the
chart for `UpdateDeps` and `BuildDeps`, and the release name for `SyncRelease`,
`ReleaseStatus`, `DeleteRelease`, `TestRelease`, `Lint` and `TemplateRelease`.
`DiffRelease` checks nothing.
`AddRepo` overwrites `Repo` instead of appending to it. `List`, the version
queries and `ShowChart` record nothing. Each call answers with a reply, which
is one of:

- a failure forced by the sentinel substring `"error"` in the checked input;
- for `UpdateDeps`, the outcome of the callback registered for the chart, if any;
- a value looked up in the expectation maps `Lists` and `Diffs`, keyed by
  `ListKey` and `DiffKey` built from the flags joined with no separator;
- a fixed default. When `FailOnUnexpectedList` or `FailOnUnexpectedDiff` is set
  (strict mode), an unmatched key is an error instead of a default;
- for `ShowChart`, the metadata of its one known chart path, or a lookup error for any other path.

It also answers version queries from an optional version triple.

The model has these parts:

- `Wrappers` (`wrappers.dfy`): `Option` stands for Go's nil, `Result` for a (value, error) pair.
- `Strings` (`strings.dfy`): `Contains`, proved equal to the positional definition of a substring, and `Join`.
- `Semver` (`semver.dfy`): versions as triples of unsigned 64-bit numbers. They are ordered by the
  precedence rule of section 11 of Semantic Versioning 2.0.0.
- `Seqs` (`seqs.dfy`): `FlatMap` and the lemma that reordering its input only reorders its output.
- `HelmTypes` (`types.dfy`): `ListKey`, `DiffKey`, `Release`, the errors the double returns,
  `ListKey.String` (`KeyString`) and the tuple `AddRepo` records.
- `Recording` (`recording.dfy`): the observation lists as one value, one constructor per recording
  call, the effect of a call (`Apply`) and of a sequence of calls (`Run`). It also holds lemmas
  about any sequence of calls.
- `ExecTest` (`helm.dfy`): the class `Helm`. Each state-changing method declares exactly the fields
  it may change in a field-level `modifies` frame, for example `this`Releases, this`Charts`.
  Each such method states the new contents of those fields. It also states that its effect on
  the observation lists is `Recording.Apply` of its call, so the `Recording` lemmas hold of the
  class too. `List` and the version queries change nothing.

Behaviour of the code worth noting:

- `DiffRelease` has no sentinel check. It records the call even when the name contains `"error"`.
- Only `SyncRelease` and `DiffRelease` take a lock. `ReleaseStatus` and `TestRelease` append to
  `Releases` without one. `UpdateDeps` and `BuildDeps` append to `Charts` without the lock that
  `SyncRelease` takes for `Charts`.
- `AddRepo` records the two booleans rendered as `"true"`/`"false"`, not the booleans themselves.
- `SyncRelease` checks only the release name. A chart containing `"error"` is still recorded in
  `Charts` by it, although `UpdateDeps` and `BuildDeps` refuse such a chart.

## Model

| member | source | states |
|---|---|---|
| `Strings.ContainsIffOccurs` | pkg/exectest/helm.go:65 | The sentinel test finds a substring exactly when it occurs at some position. |
| `Strings.JoinAppend` | pkg/exectest/helm.go:155 | Joining flags with the empty separator distributes over concatenating flag lists. |
| `Strings.JoinMergeAdjacent` | pkg/exectest/helm.go:133 | Splitting or merging adjacent flags does not change the joined flags string. |
| `HelmTypes.SentinelInsideName` | pkg/exectest/helm.go:64-67 | A chart such as `broken-error-chart` trips the sentinel. |
| `HelmTypes.NoSentinelInName` | pkg/exectest/helm.go:64-67 | `ok-chart` and `Error` do not trip the case-sensitive sentinel. |
| `HelmTypes.KeyStringNamesKey` | pkg/exectest/helm.go:20-22 | The rendering `HelmTypes.KeyString` (`ListKey.String`) of a list key contains both its filter and its flags. |
| `HelmTypes.KeyStringAmbiguous` | pkg/exectest/helm.go:20-22 | Two distinct list keys can render to the same string under `HelmTypes.KeyString`, so the rendering does not identify a key. |
| `HelmTypes.RepoTuple` | pkg/exectest/helm.go:98 | The recorded repo tuple has ten entries, and its last two are "true" or "false". |
| `HelmTypes.RepoTupleRoundTrip` | pkg/exectest/helm.go:98 | Every `AddRepo` argument, including both booleans, can be read back from the recorded tuple. |
| `Semver.Compare` | pkg/exectest/helm.go:225 | The three-way comparison is 0 exactly on equal versions, and it is negative or positive exactly as the lexicographic major.minor.patch order says. |
| `Semver.LessIsStrictTotalOrder` | pkg/exectest/helm.go:225 | Version precedence is irreflexive, transitive, total and asymmetric. |
| `Recording.ApplyAppends` | pkg/exectest/helm.go:64-197 | One call appends exactly its own records to each list, and only `AddRepo` changes `Repo`. |
| `Recording.RunAppends` | pkg/exectest/helm.go:30-39 | After any sequence of calls, each list is its old contents followed by the calls' records in call order. |
| `Recording.RunSnoc` | pkg/exectest/helm.go:64-197 | Running calls and then one more call is running the extended sequence, so the per-call effects of the class methods chain into `Run`. |
| `Recording.LogsOrderIndependent` | pkg/exectest/helm.go:111-127 | Two orderings of the same calls leave the same multiset of records in each append-only list (`Charts`, `Releases`, `Deleted`, `Linted`, `Templated`, `Diffed`). `Repo` is last-writer-wins and is not covered. |
| `Recording.DiffedGrowsByDiffCount` | pkg/exectest/helm.go:120-127 | `Diffed` grows by exactly one record per diff call, whatever the calls return. |
| `Recording.SentinelNamesOnlyDiffed` | pkg/exectest/helm.go:107-197 | No sequence of calls adds a sentinel name to any list but `Diffed`. |
| `Recording.RunKeepsSentinelNamesOut` | pkg/exectest/helm.go:107-197 | Lists free of sentinel names stay free of them after any sequence of calls. |
| `ExecTest.GoInt` | pkg/exectest/helm.go:213-215 | The `int` conversion keeps a component modulo 2^64 within the int64 range, and keeps it unchanged exactly when it is below 2^63. |
| `ExecTest.FlagBoundariesIgnored` | pkg/exectest/helm.go:133-155 | Flag lists with the same concatenation build equal `ListKey` and `DiffKey` values. |
| `ExecTest.Helm.constructor` | pkg/exectest/helm.go:30-51 | A configured double starts with every observation list empty. |
| `ExecTest.Helm.UpdateDeps` | pkg/exectest/helm.go:64-79 | A sentinel chart fails with the chart in the error, and `Charts` is unchanged. Otherwise the chart is appended first, and then the chart's callback outcome, if registered, is returned. |
| `ExecTest.Helm.BuildDeps` | pkg/exectest/helm.go:81-87 | It fails if and only if the chart holds the sentinel. On success it appends the chart to `Charts` and changes nothing else. |
| `ExecTest.Helm.AddRepo` | pkg/exectest/helm.go:97-100 | It overwrites `Repo` with the ten arguments in order, the booleans rendered, and it never fails. |
| `ExecTest.Helm.SyncRelease` | pkg/exectest/helm.go:107-119 | It fails if and only if the name holds the sentinel, with nothing recorded. Otherwise it appends exactly one record to `Releases` and the chart to `Charts`, and touches no other field. |
| `ExecTest.Helm.DiffRelease` | pkg/exectest/helm.go:120-139 | It always appends one record to `Diffed`. It returns no error without `Diffs`, the stored error on a key hit, an unexpected-diff error carrying the key on a strict miss, and no error on a lenient miss. |
| `ExecTest.Helm.ReleaseStatus` | pkg/exectest/helm.go:140-146 | It fails if and only if the name holds the sentinel, with nothing recorded. Otherwise it appends exactly one record to `Releases`. |
| `ExecTest.Helm.DeleteRelease` | pkg/exectest/helm.go:147-153 | It fails if and only if the name holds the sentinel, with nothing recorded. Otherwise it appends exactly one record to `Deleted`. |
| `ExecTest.EnumerationCountsEachKey` | pkg/exectest/helm.go:163-166 | A list of key renderings with the wrong number of entries for keys that render alike is not an enumeration of the keys. |
| `ExecTest.StatusThenDiff` | pkg/exectest/helm.go:120-146 | A `ReleaseStatus` call followed by a `DiffRelease` call leaves the observation lists that `Recording.Run` of those two calls gives. |
| `ExecTest.Helm.List` | pkg/exectest/helm.go:154-170 | It changes nothing. It returns the placeholder without `Lists` and the stored string on a hit. On a miss it returns "" with an error only in strict mode. That error names the missing key. It lists the rendering of the configured keys in some order of the keys, one entry per key, so keys that render alike give repeated entries. |
| `ExecTest.Helm.TestRelease` | pkg/exectest/helm.go:174-180 | It fails if and only if the name holds the sentinel, with nothing recorded. Otherwise it appends exactly one record to `Releases`. |
| `ExecTest.Helm.Lint` | pkg/exectest/helm.go:184-190 | It fails if and only if the name holds the sentinel, with nothing recorded. Otherwise it appends exactly one record to `Linted`. |
| `ExecTest.Helm.TemplateRelease` | pkg/exectest/helm.go:191-197 | It fails if and only if the name holds the sentinel, with nothing recorded. Otherwise it appends exactly one record to `Templated`. |
| `ExecTest.Helm.GetVersion` | pkg/exectest/helm.go:211-217 | The reported components lie in the int64 range and equal the configured ones modulo 2^64, which fixes them. They equal the configured ones outright when those are below 2^63. |
| `ExecTest.Helm.IsVersionAtLeast` | pkg/exectest/helm.go:219-226 | True if and only if a version is configured and it equals `v` or follows it in major.minor.patch order. |
| `ExecTest.Helm.ShowChart` | pkg/exectest/helm.go:237-244 | It succeeds exactly for `../../foo-bar`, with version 3.2.0. Every other path gives the lookup error. |
| `ExecTest.Helm3IsMajorLine3` | pkg/exectest/helm.go:204-209 | With a version configured, and for versions without pre-release, `ExecTest.Helm.IsHelm3` holds exactly when the version is at least 3.0.0 and not at least 4.0.0. |
| `ExecTest.NoVersionConfigured` | pkg/exectest/helm.go:204-222 | Without a version, `ExecTest.Helm.IsHelm3` is the `Helm3` flag and no minimum version is ever met. |

## Left out

- The three `sync.Mutex` fields and the `sync` helper (pkg/exectest/helm.go:46-48, 121-126, 228-235) are left out. Each guarded append is a plain sequential append. `Recording.LogsOrderIndependent` states the sequential consequence: the order of the calls does not change the multiset of records in each append-only list (`Charts`, `Releases`, `Deleted`, `Linted`, `Templated`, `Diffed`). `Repo` keeps the last `AddRepo` call's tuple.
- `helmexec.HelmContext` is left out. It is an opaque pass-through parameter with no effect on behaviour.
- `DiffRelease`'s `suppressDiff` argument is kept in the signature. The source ignores it, and so does the model.
- Error messages are not modelled. Each error is a constructor of `HelmTypes.Error` that carries what its `fmt` message would name.
- `ExecTest.Helm.List`: the order of the configured keys in the error is not stated, because Go iterates maps in random order. The error lists the renderings of some ordering of the keys, one entry per key.
- `UpdateDepsCallbacks` are Go closures and are not modelled. Each registered chart maps to the outcome its callback returns. A callback's other side effects are not modelled.
- Parsing by `semver.MustParse` is left out, including its panic on malformed input. `IsVersionAtLeast` takes an already-parsed triple, so a well-formed version string is assumed by its type.
- Pre-release and build metadata of semantic versions are left out.
- `ExecTest.Helm3IsMajorLine3`: holds only for versions without pre-release. In the source, version `3.0.0-rc.1` makes `IsHelm3` true while `IsVersionAtLeast("3.0.0")` is false, because a pre-release has lower precedence than its release. Version `4.0.0-rc.1` makes `IsHelm3` false while it is at least 3.0.0 and not at least 4.0.0.
- `GetVersion` on a nil `Version` dereferences nil in the source. The model requires a configured version.
- `chart.Metadata` is reduced to the version string that `ShowChart` fills in.
- Aliasing of the variadic `flags` slice is not modelled. A recorded `Release` holds a copy of the flags, while Go stores the caller's slice.
- A variadic `flags` passed no arguments is a nil slice in Go, which the recording operations store as is. The model merges nil and empty flags into `[]`, while `reflect.DeepEqual` in a test tells them apart.
- `ExecTest.GoInt`: assumes Go's `int` is 64 bits wide. On a 32-bit platform `int(uint64)` truncates to 32 bits, which the model does not capture.
- These methods have no behaviour beyond returning nil or empty values, and they are not modelled: `SetExtraArgs`, `SetHelmBinary`, `SetEnableLiveOutput`, `SetDisableForceUpdate`, `UpdateRepo`, `RegistryLogin`, `DecryptSecret`, `Fetch`, `ChartPull`, `ChartExport`. The unused `Affected` type is left out as well.
