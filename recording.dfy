/**
 * What the Helm double records, as values: the observation lists, the calls
 * that change them, and what any sequence of calls leaves behind.
 */
module Recording {
  import opened HelmTypes
  import Seqs

  /** The observation fields of the double: `Charts`, `Releases`, `Deleted`, `Linted`, `Templated`, `Diffed`, `Repo`. */
  datatype Observations = Observations(
    charts: seq<string>,
    releases: seq<Release>,
    deleted: seq<Release>,
    linted: seq<Release>,
    templated: seq<Release>,
    diffed: seq<Release>,
    repo: seq<string>)

  const Empty := Observations([], [], [], [], [], [], [])

  /** A call to one of the recording operations, with the arguments that matter to what is recorded. */
  datatype Call =
    | UpdateDepsCall(chart: string)
    | BuildDepsCall(name: string, chart: string, flags: seq<string>)
    | AddRepoCall(args: RepoArgs)
    | SyncCall(name: string, chart: string, flags: seq<string>)
    | DiffCall(name: string, chart: string, flags: seq<string>)
    | StatusCall(name: string, flags: seq<string>)
    | DeleteCall(name: string, flags: seq<string>)
    | TestCall(name: string, flags: seq<string>)
    | LintCall(name: string, chart: string, flags: seq<string>)
    | TemplateCall(name: string, chart: string, flags: seq<string>)

  /** The state change of one call. */
  function Apply(o: Observations, c: Call): Observations
  {
    match c
    case UpdateDepsCall(chart) =>
      if Sentinel(chart) then o else o.(charts := o.charts + [chart])
    case BuildDepsCall(_, chart, _) =>
      if Sentinel(chart) then o else o.(charts := o.charts + [chart])
    case AddRepoCall(args) =>
      o.(repo := RepoTuple(args))
    case SyncCall(name, chart, flags) =>
      if Sentinel(name) then o
      else o.(releases := o.releases + [Release(name, flags)], charts := o.charts + [chart])
    case DiffCall(name, _, flags) =>
      o.(diffed := o.diffed + [Release(name, flags)])
    case StatusCall(name, flags) =>
      if Sentinel(name) then o else o.(releases := o.releases + [Release(name, flags)])
    case DeleteCall(name, flags) =>
      if Sentinel(name) then o else o.(deleted := o.deleted + [Release(name, flags)])
    case TestCall(name, flags) =>
      if Sentinel(name) then o else o.(releases := o.releases + [Release(name, flags)])
    case LintCall(name, _, flags) =>
      if Sentinel(name) then o else o.(linted := o.linted + [Release(name, flags)])
    case TemplateCall(name, _, flags) =>
      if Sentinel(name) then o else o.(templated := o.templated + [Release(name, flags)])
  }

  /** The calls applied one after the other. */
  function Run(o: Observations, calls: seq<Call>): Observations
    decreases |calls|
  {
    if |calls| == 0 then o else Run(Apply(o, calls[0]), calls[1..])
  }

  /** One more call extends a run: the step that chains single calls into `Run`. */
  lemma {:induction false} RunSnoc(o: Observations, calls: seq<Call>, c: Call)
    ensures Run(o, calls + [c]) == Apply(Run(o, calls), c)
    decreases |calls|
  {
    if |calls| == 0 {
      assert calls + [c] == [c];
    } else {
      assert (calls + [c])[1..] == calls[1..] + [c];
      RunSnoc(Apply(o, calls[0]), calls[1..], c);
    }
  }

  /** The lists of `Release` records. */
  datatype Log = ReleasesLog | DeletedLog | LintedLog | TemplatedLog | DiffedLog

  function Get(o: Observations, log: Log): seq<Release>
  {
    match log
    case ReleasesLog => o.releases
    case DeletedLog => o.deleted
    case LintedLog => o.linted
    case TemplatedLog => o.templated
    case DiffedLog => o.diffed
  }

  /** The log each release operation writes to, if any. */
  function LogOf(c: Call): (r: Wrappers.Option<Log>)
  {
    match c
    case SyncCall(_, _, _) => Wrappers.Some(ReleasesLog)
    case StatusCall(_, _) => Wrappers.Some(ReleasesLog)
    case TestCall(_, _) => Wrappers.Some(ReleasesLog)
    case DeleteCall(_, _) => Wrappers.Some(DeletedLog)
    case LintCall(_, _, _) => Wrappers.Some(LintedLog)
    case TemplateCall(_, _, _) => Wrappers.Some(TemplatedLog)
    case DiffCall(_, _, _) => Wrappers.Some(DiffedLog)
    case _ => Wrappers.None
  }

  /**
   * Independent account of what a call adds to `log`: one record for the
   * call's own log, except that only the diff log takes sentinel names.
   */
  function Records(c: Call, log: Log): seq<Release>
  {
    if LogOf(c) == Wrappers.Some(log) && (log == DiffedLog || !Sentinel(c.name))
    then [Release(c.name, c.flags)] else []
  }

  function RecordsIn(log: Log): Call -> seq<Release>
  {
    c => Records(c, log)
  }

  /** Independent account of what a call adds to `Charts`. */
  function ChartRecords(c: Call): seq<string>
  {
    match c
    case UpdateDepsCall(chart) => if Sentinel(chart) then [] else [chart]
    case BuildDepsCall(_, chart, _) => if Sentinel(chart) then [] else [chart]
    case SyncCall(name, chart, _) => if Sentinel(name) then [] else [chart]
    case _ => []
  }

  /** All records a sequence of calls adds to `log`. */
  function Logged(calls: seq<Call>, log: Log): seq<Release>
  {
    Seqs.FlatMap(calls, RecordsIn(log))
  }

  function ChartsLogged(calls: seq<Call>): seq<string>
  {
    Seqs.FlatMap(calls, ChartRecords)
  }

  /** One call appends its own records to each list and touches nothing else but `repo`. */
  lemma ApplyAppends(o: Observations, c: Call, log: Log)
    ensures Get(Apply(o, c), log) == Get(o, log) + Records(c, log)
    ensures Apply(o, c).charts == o.charts + ChartRecords(c)
    ensures !c.AddRepoCall? ==> Apply(o, c).repo == o.repo
  {
  }

  /** Any sequence of calls only appends, and what it appends is the calls' records in call order. */
  lemma {:induction false} RunAppends(o: Observations, calls: seq<Call>, log: Log)
    ensures Get(Run(o, calls), log) == Get(o, log) + Logged(calls, log)
    ensures Run(o, calls).charts == o.charts + ChartsLogged(calls)
    decreases |calls|
  {
    if |calls| > 0 {
      ApplyAppends(o, calls[0], log);
      RunAppends(Apply(o, calls[0]), calls[1..], log);
      assert RecordsIn(log)(calls[0]) == Records(calls[0], log);
    }
  }

  /**
   * However calls are interleaved, every list ends up holding the same records:
   * the outcome depends on which calls were made, not on their order.
   */
  lemma LogsOrderIndependent(o: Observations, calls1: seq<Call>, calls2: seq<Call>, log: Log)
    requires multiset(calls1) == multiset(calls2)
    ensures multiset(Get(Run(o, calls1), log)) == multiset(Get(Run(o, calls2), log))
    ensures multiset(Run(o, calls1).charts) == multiset(Run(o, calls2).charts)
  {
    RunAppends(o, calls1, log);
    RunAppends(o, calls2, log);
    Seqs.FlatMapPermutation(calls1, calls2, RecordsIn(log));
    Seqs.FlatMapPermutation(calls1, calls2, ChartRecords);
  }

  function DiffCount(calls: seq<Call>): nat
  {
    if |calls| == 0 then 0 else (if calls[0].DiffCall? then 1 else 0) + DiffCount(calls[1..])
  }

  /** Every diff call leaves exactly one record in `diffed`, whatever it returns. */
  lemma {:induction false} DiffedGrowsByDiffCount(o: Observations, calls: seq<Call>)
    ensures |Run(o, calls).diffed| == |o.diffed| + DiffCount(calls)
  {
    RunAppends(o, calls, DiffedLog);
    DiffCountIsLogged(calls);
  }

  lemma {:induction false} DiffCountIsLogged(calls: seq<Call>)
    ensures |Logged(calls, DiffedLog)| == DiffCount(calls)
  {
    if |calls| > 0 {
      DiffCountIsLogged(calls[1..]);
      assert RecordsIn(DiffedLog)(calls[0]) == Records(calls[0], DiffedLog);
    }
  }

  predicate NoSentinelNames(rs: seq<Release>)
  {
    forall r :: r in rs ==> !Sentinel(r.name)
  }

  /** No name containing the sentinel is ever logged anywhere but in `diffed`. */
  lemma {:induction false} SentinelNamesOnlyDiffed(calls: seq<Call>, log: Log)
    requires log != DiffedLog
    ensures NoSentinelNames(Logged(calls, log))
  {
    if |calls| > 0 {
      SentinelNamesOnlyDiffed(calls[1..], log);
      assert RecordsIn(log)(calls[0]) == Records(calls[0], log);
      assert Logged(calls, log) == Records(calls[0], log) + Logged(calls[1..], log);
    }
  }

  /** Lists free of sentinel names stay free of them, whatever calls follow. */
  lemma RunKeepsSentinelNamesOut(o: Observations, calls: seq<Call>, log: Log)
    requires log != DiffedLog
    requires NoSentinelNames(Get(o, log))
    ensures NoSentinelNames(Get(Run(o, calls), log))
  {
    RunAppends(o, calls, log);
    SentinelNamesOnlyDiffed(calls, log);
  }
}
