/**
 * `WorkflowClient`: the per-invocation result list, the calls that change
 * it, and the `run` lifecycle. `Lifecycle` states what one run does as a
 * function of its inputs; the method `Run` drives a client object through
 * the same steps and is proved to agree with it.
 *
 * Exceptions are values here: a step ends by going on (`Proceed`), by
 * printing the results and exiting (`Exit`, which is `SystemExit` and so
 * escapes `except Exception`), or by raising (`Throw`).
 */
module Workflow {
  import opened Wrappers
  import opened Text
  import opened Models
  import opened Query
  import opened Cache

  // ---------------------------------------------------------------------
  // add_result

  /** The arguments of one `add_result` call; `uid` is the `uuid4` the new `Result` draws. */
  datatype AddCall = AddCall(
    title: string,
    subtitle: string := "",
    iconPath: Option<string> := None,
    arg: string := "",
    downloader: Option<string -> string> := None,
    index: Option<int> := None,
    uid: string)

  /**
   * The icon `add_result` builds (lines 271-276): none for a falsy path;
   * otherwise one with no type whose path is the given path, or what the
   * downloader returns for it when a downloader is given and the path
   * contains "http".
   */
  function IconFor(iconPath: Option<string>, downloader: Option<string -> string>): Option<Icon>
  {
    if !Truthy(iconPath) then None
    else if downloader.Some? && Contains(iconPath.value, "http") then Some(Icon(downloader.value(iconPath.value)))
    else Some(Icon(iconPath.value))
  }

  /** The `Result` one call adds. */
  function Built(c: AddCall): Result
  {
    Result(c.title, c.subtitle, c.uid, c.arg, None, IconFor(c.iconPath, c.downloader))
  }

  /** The position `list.insert(index, x)` uses in a list of length `n`. */
  function InsertPosition(n: nat, index: int): nat
  {
    if index < 0 then (if n + index < 0 then 0 else n + index)
    else if index > n then n
    else index
  }

  function InsertAt<T>(s: seq<T>, index: int, x: T): seq<T>
  {
    var p := InsertPosition(|s|, index);
    InsertPositionRule(|s|, index);
    s[..p] + [x] + s[p..]
  }

  /** The result list after one `add_result` call. */
  function Added(results: seq<Result>, c: AddCall): seq<Result>
  {
    match c.index
    case None => results + [Built(c)]
    case Some(i) => InsertAt(results, i, Built(c))
  }

  /** The result list after a sequence of `add_result` calls, made in order. */
  function AddedAll(results: seq<Result>, calls: seq<AddCall>): seq<Result>
    decreases |calls|
  {
    if calls == [] then results
    else Added(AddedAll(results, calls[..|calls| - 1]), calls[|calls| - 1])
  }

  function BuiltAll(calls: seq<AddCall>): seq<Result>
  {
    seq(|calls|, i requires 0 <= i < |calls| => Built(calls[i]))
  }

  /**
   * `list.insert`: an index in range is the position, a negative one counts
   * from the end (stopping at 0), one past the end appends. The first clause,
   * that the position never exceeds the length, is the fact the other
   * definitions rely on; the rest spell out the branches case by case.
   */
  lemma InsertPositionRule(n: nat, index: int)
    ensures InsertPosition(n, index) <= n
    ensures 0 <= index <= n ==> InsertPosition(n, index) == index
    ensures index > n ==> InsertPosition(n, index) == n
    ensures index < 0 && 0 <= n + index ==> InsertPosition(n, index) == n + index
    ensures n + index < 0 ==> InsertPosition(n, index) == 0
  {
  }

  /**
   * Inserting puts the new element at the `list.insert` position, grows the
   * list by one, and leaves the other elements in their relative order.
   */
  lemma InsertAtShape<T>(s: seq<T>, index: int, x: T)
    ensures var r := InsertAt(s, index, x); var p := InsertPosition(|s|, index);
      && |r| == |s| + 1
      && r[p] == x
      && r[..p] + r[p + 1..] == s
      && multiset(r) == multiset(s) + multiset{x}
  {
    var r := InsertAt(s, index, x);
    var p := InsertPosition(|s|, index);
    assert r == s[..p] + [x] + s[p..];
    assert r[..p] == s[..p];
    assert r[p + 1..] == s[p..];
    assert s == s[..p] + s[p..];
    calc {
      multiset(r);
      multiset(s[..p]) + multiset([x]) + multiset(s[p..]);
      multiset(s[..p] + s[p..]) + multiset{x};
    }
  }

  /**
   * One `add_result` call: with no index the new result is appended and the
   * earlier ones are a prefix; with one it is inserted as `list.insert`
   * does. Either way the list grows by one and gains exactly that result.
   */
  lemma AddedShape(results: seq<Result>, c: AddCall)
    ensures c.index.None? ==> Added(results, c) == results + [Built(c)]
    ensures c.index.Some? ==>
      var p := InsertPosition(|results|, c.index.value);
      var r := Added(results, c);
      r[p] == Built(c) && r[..p] + r[p + 1..] == results
    ensures |Added(results, c)| == |results| + 1
    ensures multiset(Added(results, c)) == multiset(results) + multiset{Built(c)}
  {
    if c.index.Some? {
      InsertAtShape(results, c.index.value, Built(c));
    }
  }

  /**
   * However the calls mix appends and inserts, the list ends up holding the
   * earlier results and one new result per call, each exactly once; when no
   * call gives an index, the new results follow the old ones in call order.
   */
  lemma {:induction false} AddedAllContents(results: seq<Result>, calls: seq<AddCall>)
    ensures |AddedAll(results, calls)| == |results| + |calls|
    ensures multiset(AddedAll(results, calls)) == multiset(results) + multiset(BuiltAll(calls))
    ensures (forall i :: 0 <= i < |calls| ==> calls[i].index.None?) ==>
      AddedAll(results, calls) == results + BuiltAll(calls)
    decreases |calls|
  {
    if calls != [] {
      var init := calls[..|calls| - 1];
      var last := calls[|calls| - 1];
      AddedAllContents(results, init);
      AddedShape(AddedAll(results, init), last);
      assert BuiltAll(calls) == BuiltAll(init) + [Built(last)];
    }
  }

  /** The icon rule of `add_result`, case by case. */
  lemma IconRule(iconPath: Option<string>, downloader: Option<string -> string>)
    ensures IconFor(iconPath, downloader).Some? <==> Truthy(iconPath)
    ensures IconFor(iconPath, downloader).Some? ==> IconFor(iconPath, downloader).value.kind == None
    ensures Truthy(iconPath) && downloader.Some? && Contains(iconPath.value, "http") ==>
      IconFor(iconPath, downloader).value.path == downloader.value(iconPath.value)
    ensures Truthy(iconPath) && !(downloader.Some? && Contains(iconPath.value, "http")) ==>
      IconFor(iconPath, downloader).value.path == iconPath.value
  {
  }

  // ---------------------------------------------------------------------
  // The lifecycle's inputs and outcomes

  /** What an invocation starts from: `sys.argv`, the bundle id in info.plist (None when info.plist cannot be read or has no `bundleid`), the `run` arguments, and where the package is installed. */
  datatype Invocation = Invocation(
    argv: seq<string>,
    manifest: Option<string>,
    packageDir: string,
    moduleDir: string,
    cache: bool)

  /** What `install_requirements` finds: no requirements.txt, all present, some missing, or another resolution error. */
  datatype Requirements =
    | NoRequirementsFile
    | Satisfied(packages: seq<string>)
    | DistributionNotFound(packages: seq<string>)
    | ResolutionFailed(message: string, trace: string)

  /** An exception reaching `except Exception` in `run`: a `WorkflowError(title, subtitle)`, which has no `arg`, or any other one with its `str` and its formatted trace. */
  datatype Raised = WorkflowError(title: string, subtitle: string) | OtherException(message: string, trace: string)

  datatype Ending = Returned | Raises(error: Raised)

  /** The user's callback, seen from the client: the `add_result` calls it makes, then how it ends. */
  datatype Callback = Callback(calls: seq<AddCall>, ending: Ending)

  datatype Flow = Proceed | Exit | Throw(error: Raised)

  /** The uncaught exceptions: info.plist unreadable in `__init__`, `data.keys()` on `None`, and `e.arg` on a `WorkflowError`. */
  datatype Crash = ManifestUnreadable | NoneHasNoKeysError | WorkflowErrorHasNoArg

  /** How the process ends: it prints these results as `{"items": ...}` and exits 0, or it dies with a traceback and prints nothing. */
  datatype Outcome = Emitted(items: seq<Result>) | Crashed(crash: Crash)

  datatype RunResult = RunResult(outcome: Outcome, file: ResultsFile)

  function IconDir(moduleDir: string): string
  {
    moduleDir + "/icons"
  }

  function InstallCommand(packageDir: string, packages: seq<string>): seq<string>
  {
    ["python3", "-m", "pip", "install", "--target=" + packageDir] + packages
  }

  /**
   * The command line `' '.join(command)` shows: the words of the pip
   * invocation, the target option, then each package after a space.
   */
  lemma InstallCommandText(packageDir: string, packages: seq<string>)
    ensures Join(" ", InstallCommand(packageDir, packages))
      == "python3" + " " + ("-m" + " " + ("pip" + " " + ("install" + " " + ("--target=" + packageDir
         + (if packages == [] then "" else " " + Join(" ", packages))))))
  {
    var target := "--target=" + packageDir;
    var ys := [target] + packages;
    assert InstallCommand(packageDir, packages) == ["python3", "-m", "pip", "install"] + ys;
    JoinFourWords(" ", "python3", "-m", "pip", "install", ys);
    assert ys[1..] == packages;
  }

  /** The entry `install_requirements` adds while the installer runs (lines 139-144). */
  function InstallCall(packageDir: string, packages: seq<string>, iconDir: string, uid: string): AddCall
  {
    var command := Join(" ", InstallCommand(packageDir, packages));
    AddCall(
      "Requirements are installing (you can close alfred)",
      "Executed command: " + command,
      Some(iconDir + "/download.png"),
      command,
      uid := uid)
  }

  /** The `add_result` call `error_response` makes (lines 301-306). */
  function ErrorCall(title: string, subtitle: string, iconPath: Option<string>, arg: string, iconDir: string, uid: string): AddCall
  {
    AddCall(title, subtitle, Some(if Truthy(iconPath) then iconPath.value else iconDir + "/error.png"), arg, uid := uid)
  }

  /** The entry for an exception other than `WorkflowError` (lines 248-252). */
  function ExceptionEntry(message: string, trace: string, iconDir: string, uid: string): Result
  {
    Built(ErrorCall(message, LastLine(Strip(trace)), None, Strip(trace), iconDir, uid))
  }

  /** With no explicit icon, `error_response` shows the error icon under the icon directory. */
  lemma ErrorIconIsDefault(iconDir: string)
    ensures IconFor(Some(iconDir + "/error.png"), None) == Some(Icon(iconDir + "/error.png"))
  {
    var path := iconDir + "/error.png";
    assert |path| == |iconDir| + 10;
    assert Truthy(Some(path));
  }

  /**
   * The error entry: `str(e)` as title, the stripped trace as arg, and as
   * subtitle that trace's last line, which holds no line break and ends
   * the arg; the icon is the default error icon.
   */
  lemma ExceptionEntryShape(message: string, trace: string, iconDir: string, uid: string)
    ensures var e := ExceptionEntry(message, trace, iconDir, uid);
      && e.title == message && e.uid == uid
      && e.arg == Strip(trace)
      && e.subtitle == LastLine(e.arg)
      && '\n' !in e.subtitle
      && IsSuffix(e.subtitle, e.arg)
      && (e.subtitle == e.arg || e.arg[|e.arg| - |e.subtitle| - 1] == '\n')
      && e.icon == Some(Icon(iconDir + "/error.png"))
  {
    ErrorEntryFor(message, Strip(trace), iconDir, uid);
  }

  /** The entry `error_response` adds for an arg and its last line as subtitle, with no explicit icon. */
  lemma ErrorEntryFor(message: string, arg: string, iconDir: string, uid: string)
    ensures var e := Built(ErrorCall(message, LastLine(arg), None, arg, iconDir, uid));
      && e.title == message && e.uid == uid
      && e.arg == arg
      && e.subtitle == LastLine(arg)
      && '\n' !in e.subtitle
      && IsSuffix(e.subtitle, arg)
      && (e.subtitle == arg || arg[|arg| - |e.subtitle| - 1] == '\n')
      && e.icon == Some(Icon(iconDir + "/error.png"))
  {
    ErrorIconIsDefault(iconDir);
    var subtitle := LastLine(arg);
    assert Built(ErrorCall(message, subtitle, None, arg, iconDir, uid))
      == Result(message, subtitle, uid, arg, None, Some(Icon(iconDir + "/error.png")));
  }

  // ---------------------------------------------------------------------
  // The lifecycle as a function of its inputs

  /** `install_requirements` (lines 112-147) on the current list. */
  function RequirementsStep(reqs: Requirements, results: seq<Result>, packageDir: string, iconDir: string, uid: string): (Flow, seq<Result>)
  {
    match reqs
    case NoRequirementsFile => (Proceed, results)
    case Satisfied(_) => (Proceed, results)
    case DistributionNotFound(packages) => (Exit, Added(results, InstallCall(packageDir, packages, iconDir, uid)))
    case ResolutionFailed(message, trace) => (Throw(OtherException(message, trace)), results)
  }

  /** The `except` clause (lines 240-252). */
  function Handle(e: Raised, results: seq<Result>, iconDir: string, uid: string, file: ResultsFile): RunResult
  {
    match e
    case WorkflowError(_, _) => RunResult(Crashed(WorkflowErrorHasNoArg), file)
    case OtherException(message, trace) => RunResult(Emitted(Added(results, ErrorCall(message, LastLine(Strip(trace)), None, Strip(trace), iconDir, uid))), file)
  }

  /** The `try` block (lines 234-239) and its handler. */
  function Attempt(bareQuery: Option<string>, inv: Invocation, file: ResultsFile, reqs: Requirements, cb: Callback, uid: string): RunResult
  {
    var iconDir := IconDir(inv.moduleDir);
    var (flow, afterReqs) := RequirementsStep(reqs, [], inv.packageDir, iconDir, uid);
    match flow
    case Exit => RunResult(Emitted(afterReqs), file)
    case Throw(e) => Handle(e, afterReqs, iconDir, uid, file)
    case Proceed =>
      var results := AddedAll(afterReqs, cb.calls);
      match cb.ending
      case Returned => RunResult(Emitted(results), if inv.cache then Store(file, bareQuery, results) else file)
      case Raises(e) => Handle(e, results, iconDir, uid, file)
  }

  /**
   * `run` (lines 198-252): construct the client, check the cache when asked
   * to, then the `try` block. `uid` is the uuid of the one entry the
   * lifecycle itself may add; `uids` supplies those of rebuilt cache
   * entries.
   */
  function Lifecycle(inv: Invocation, file: ResultsFile, reqs: Requirements, cb: Callback, uid: string, uids: nat -> string): RunResult
  {
    if inv.manifest.None? then RunResult(Crashed(ManifestUnreadable), file)
    else
      var bareQuery := ParseArgv(inv.argv).bareQuery;
      var lookup := if inv.cache then LoadDecision(bareQuery, file) else Miss;
      match lookup
      case NoneHasNoKeys => RunResult(Crashed(NoneHasNoKeysError), file)
      case Hit(stored) => RunResult(Emitted(RebuildAll(stored, uids)), file)
      case Miss => Attempt(bareQuery, inv, file, reqs, cb, uid)
  }

  // ---------------------------------------------------------------------
  // What every run does

  /** The cache check raises: caching on, a falsy query, and a results file that loads as `None`. */
  predicate LoadCrashes(inv: Invocation, file: ResultsFile)
  {
    inv.cache && !Truthy(ParseArgv(inv.argv).bareQuery) && file.Blank?
  }

  predicate RequirementsMet(reqs: Requirements)
  {
    reqs.NoRequirementsFile? || reqs.Satisfied?
  }

  /**
   * A run ends without output in exactly three cases: info.plist cannot be
   * read (outside the `try`), the cache check raises (outside the `try`),
   * or the callback raises a `WorkflowError` (whose handler raises again on
   * `e.arg`). Every other run prints a payload.
   */
  lemma CrashesExactly(inv: Invocation, file: ResultsFile, reqs: Requirements, cb: Callback, uid: string, uids: nat -> string)
    ensures Lifecycle(inv, file, reqs, cb, uid, uids).outcome.Crashed? <==>
      || inv.manifest.None?
      || LoadCrashes(inv, file)
      || (RequirementsMet(reqs) && cb.ending.Raises? && cb.ending.error.WorkflowError?)
    ensures var o := Lifecycle(inv, file, reqs, cb, uid, uids).outcome;
      o.Crashed? ==> (o.crash == ManifestUnreadable <==> inv.manifest.None?)
  {
    if inv.manifest.Some? && !LoadCrashes(inv, file) {
      LoadRaisesIffBlank(ParseArgv(inv.argv).bareQuery, file);
    }
  }

  /**
   * The cache check never short-circuits: apart from the case where it
   * raises, turning caching on changes nothing that is emitted. The callback
   * always runs.
   */
  lemma CacheNeverShortCircuits(inv: Invocation, file: ResultsFile, reqs: Requirements, cb: Callback, uid: string, uids: nat -> string)
    requires !LoadCrashes(inv, file)
    ensures Lifecycle(inv, file, reqs, cb, uid, uids).outcome == Lifecycle(inv.(cache := false), file, reqs, cb, uid, uids).outcome
  {
    var bareQuery := ParseArgv(inv.argv).bareQuery;
    LoadNeverHits(bareQuery, file);
    LoadRaisesIffBlank(bareQuery, file);
  }

  /** The results file changes only in a run whose callback returned with caching on, and then it holds that run's output under the raw argument. */
  lemma FileWrittenOnlyOnCachedSuccess(inv: Invocation, file: ResultsFile, reqs: Requirements, cb: Callback, uid: string, uids: nat -> string)
    ensures var r := Lifecycle(inv, file, reqs, cb, uid, uids);
      || r.file == file
      || (&& inv.cache && RequirementsMet(reqs) && cb.ending.Returned? && r.outcome.Emitted?
          && r.file == Store(file, ParseArgv(inv.argv).bareQuery, r.outcome.items))
  {
  }

  /**
   * A callback that returns: with caching on, the list it built is stored
   * under `bare_query` (the `+` characters included) before emission; the
   * emitted list is exactly the callback's.
   */
  lemma SuccessCachesThenEmits(inv: Invocation, file: ResultsFile, reqs: Requirements, cb: Callback, uid: string, uids: nat -> string)
    requires inv.manifest.Some? && !LoadCrashes(inv, file) && RequirementsMet(reqs)
    requires cb.ending == Returned
    ensures var r := Lifecycle(inv, file, reqs, cb, uid, uids);
      && r.outcome == Emitted(AddedAll([], cb.calls))
      && r.file == if inv.cache then Store(file, ParseArgv(inv.argv).bareQuery, AddedAll([], cb.calls)) else file
  {
    LoadRaisesIffBlank(ParseArgv(inv.argv).bareQuery, file);
  }

  /** The `try` block when requirements are met and the callback raises `e`: `e` goes to the handler with the callback's list. */
  lemma AttemptRaising(bareQuery: Option<string>, inv: Invocation, file: ResultsFile, reqs: Requirements, cb: Callback, uid: string, e: Raised)
    requires RequirementsMet(reqs) && cb.ending == Raises(e)
    ensures Attempt(bareQuery, inv, file, reqs, cb, uid) == Handle(e, AddedAll([], cb.calls), IconDir(inv.moduleDir), uid, file)
  {
  }

  /** A resolution error from `pkg_resources.require` goes to the handler before the callback runs, with an empty list. */
  lemma AttemptResolutionFailed(bareQuery: Option<string>, inv: Invocation, file: ResultsFile, message: string, trace: string,
                                cb: Callback, uid: string)
    ensures Attempt(bareQuery, inv, file, ResolutionFailed(message, trace), cb, uid)
      == Handle(OtherException(message, trace), [], IconDir(inv.moduleDir), uid, file)
  {
  }

  /** A run that does not crash in the cache check and has info.plist goes on to the `try` block. */
  lemma LifecycleReachesAttempt(inv: Invocation, file: ResultsFile, reqs: Requirements, cb: Callback, uid: string, uids: nat -> string)
    requires inv.manifest.Some? && !LoadCrashes(inv, file)
    ensures Lifecycle(inv, file, reqs, cb, uid, uids) == Attempt(ParseArgv(inv.argv).bareQuery, inv, file, reqs, cb, uid)
  {
    var bareQuery := ParseArgv(inv.argv).bareQuery;
    LoadNeverHits(bareQuery, file);
    LoadRaisesIffBlank(bareQuery, file);
  }

  /**
   * A callback that raises anything but `WorkflowError`: exactly one entry,
   * the error entry for `str(e)` and its trace (see `ExceptionEntryShape`),
   * follows what the callback added. Nothing is cached.
   */
  lemma ExceptionAppendsOneEntry(inv: Invocation, file: ResultsFile, reqs: Requirements, cb: Callback, uid: string, uids: nat -> string,
                                 message: string, trace: string)
    requires inv.manifest.Some? && !LoadCrashes(inv, file) && RequirementsMet(reqs)
    requires cb.ending == Raises(OtherException(message, trace))
    ensures var r := Lifecycle(inv, file, reqs, cb, uid, uids);
      && r.file == file
      && r.outcome == Emitted(AddedAll([], cb.calls) + [ExceptionEntry(message, trace, IconDir(inv.moduleDir), uid)])
  {
    LifecycleReachesAttempt(inv, file, reqs, cb, uid, uids);
    AttemptRaising(ParseArgv(inv.argv).bareQuery, inv, file, reqs, cb, uid, OtherException(message, trace));
  }

  /** A `WorkflowError` from the callback never becomes an entry: the handler's `e.arg` raises and the run dies without output. */
  lemma WorkflowErrorIsUncaught(inv: Invocation, file: ResultsFile, reqs: Requirements, cb: Callback, uid: string, uids: nat -> string,
                                title: string, subtitle: string)
    requires inv.manifest.Some? && !LoadCrashes(inv, file) && RequirementsMet(reqs)
    requires cb.ending == Raises(WorkflowError(title, subtitle))
    ensures Lifecycle(inv, file, reqs, cb, uid, uids) == RunResult(Crashed(WorkflowErrorHasNoArg), file)
  {
    LoadRaisesIffBlank(ParseArgv(inv.argv).bareQuery, file);
  }

  /**
   * Missing distributions: the run emits the single installing entry and
   * never runs the callback, whatever it would have done.
   */
  lemma MissingDistributionSkipsCallback(inv: Invocation, file: ResultsFile, packages: seq<string>, cb: Callback, other: Callback,
                                         uid: string, uids: nat -> string)
    requires inv.manifest.Some? && !LoadCrashes(inv, file)
    ensures var r := Lifecycle(inv, file, DistributionNotFound(packages), cb, uid, uids);
      && r == Lifecycle(inv, file, DistributionNotFound(packages), other, uid, uids)
      && r.file == file
      && r.outcome.Emitted? && |r.outcome.items| == 1
      && var e := r.outcome.items[0];
      && e.arg == Join(" ", InstallCommand(inv.packageDir, packages))
      && e.subtitle == "Executed command: " + e.arg
      && e.icon == Some(Icon(IconDir(inv.moduleDir) + "/download.png"))
  {
    LoadRaisesIffBlank(ParseArgv(inv.argv).bareQuery, file);
  }

  /** Another resolution error from `pkg_resources.require` is reported as the one entry, and the callback does not run. */
  lemma ResolutionFailureIsReported(inv: Invocation, file: ResultsFile, message: string, trace: string, cb: Callback,
                                    uid: string, uids: nat -> string)
    requires inv.manifest.Some? && !LoadCrashes(inv, file)
    ensures Lifecycle(inv, file, ResolutionFailed(message, trace), cb, uid, uids)
      == RunResult(Emitted([ExceptionEntry(message, trace, IconDir(inv.moduleDir), uid)]), file)
  {
    LifecycleReachesAttempt(inv, file, ResolutionFailed(message, trace), cb, uid, uids);
    AttemptResolutionFailed(ParseArgv(inv.argv).bareQuery, inv, file, message, trace, cb, uid);
    var e := ExceptionEntry(message, trace, IconDir(inv.moduleDir), uid);
    assert [] + [e] == [e];
  }

  /** A run with no argument whose callback appends two results emits exactly those two, in insertion order. */
  lemma TwoResultsInOrder(inv: Invocation, file: ResultsFile, c1: AddCall, c2: AddCall, uid: string, uids: nat -> string)
    requires inv.manifest.Some? && |inv.argv| <= 1 && !inv.cache
    requires c1.index.None? && c2.index.None?
    ensures Lifecycle(inv, file, NoRequirementsFile, Callback([c1, c2], Returned), uid, uids).outcome
      == Emitted([Built(c1), Built(c2)])
  {
    var calls := [c1, c2];
    assert calls[..1] == [c1];
    assert calls[..1][..0] == [];
    assert AddedAll([], calls[..1]) == [Built(c1)];
  }

  // ---------------------------------------------------------------------
  // The client object

  class WorkflowClient {
    const bareQuery: Option<string>
    const query: Option<string>
    const pageCount: nat
    const packageDir: string
    const iconDir: string
    const bundleId: string
    var results: seq<Result>
    /** The contents of db/results.yml. */
    var resultsFile: ResultsFile

    /** `__init__` once info.plist has been read: the parsed argument, the directories and an empty list. */
    constructor (argv: seq<string>, packageDir: string, moduleDir: string, bundleId: string, resultsFile: ResultsFile)
      ensures bareQuery == ParseArgv(argv).bareQuery && query == ParseArgv(argv).query
      ensures pageCount == ParseArgv(argv).pageCount
      ensures this.packageDir == packageDir && iconDir == IconDir(moduleDir) && this.bundleId == bundleId
      ensures results == [] && this.resultsFile == resultsFile
    {
      var parsed := ParseArgv(argv);
      bareQuery := parsed.bareQuery;
      pageCount := parsed.pageCount;
      query := parsed.query;
      this.packageDir := packageDir;
      iconDir := IconDir(moduleDir);
      this.bundleId := bundleId;
      this.resultsFile := resultsFile;
      results := [];
    }

    /** `add_result`: builds the icon, then inserts at `index` as `list.insert` does, or appends. */
    method AddResult(title: string, subtitle: string, iconPath: Option<string>, arg: string,
                     downloader: Option<string -> string>, index: Option<int>, uid: string)
      modifies this
      ensures results == Added(old(results), AddCall(title, subtitle, iconPath, arg, downloader, index, uid))
      ensures resultsFile == old(resultsFile)
    {
      var icon: Option<Icon> := None;
      if Truthy(iconPath) {
        var path := iconPath.value;
        if downloader.Some? && Contains(path, "http") {
          path := downloader.value(path);
        }
        icon := Some(Icon(path));
      }
      var r := Result(title, subtitle, uid, arg, None, icon);
      if index.Some? {
        var n := |results|;
        var where := index.value;
        if where < 0 {
          where := where + n;
          if where < 0 {
            where := 0;
          }
        }
        if where > n {
          where := n;
        }
        results := results[..where] + [r] + results[where..];
      } else {
        results := results + [r];
      }
    }

    /** `response_with_results`: the `{"items": [...]}` value it prints decodes back to the result list, which is what the process ends with. */
    method ResponseWithResults() returns (items: seq<Result>)
      ensures items == results
      ensures ResultsFromPayload(Payload(items)) == Some(results)
    {
      items := results;
      PayloadRoundTrip(items);
    }

    /** `error_response`: one more entry, with the default error icon when none is given, then emission. */
    method ErrorResponse(title: string, subtitle: string, iconPath: Option<string>, arg: string, uid: string)
      returns (items: seq<Result>)
      modifies this
      ensures results == Added(old(results), ErrorCall(title, subtitle, iconPath, arg, iconDir, uid))
      ensures items == results && resultsFile == old(resultsFile)
    {
      var path := if Truthy(iconPath) then iconPath.value else iconDir + "/error.png";
      AddResult(title, subtitle, Some(path), arg, None, None, uid);
      items := ResponseWithResults();
    }

    /** `install_requirements`, with the outcome of `pkg_resources.require` given. */
    method InstallRequirements(reqs: Requirements, uid: string) returns (flow: Flow)
      modifies this
      ensures (flow, results) == RequirementsStep(reqs, old(results), packageDir, iconDir, uid)
      ensures resultsFile == old(resultsFile)
    {
      flow := Proceed;
      match reqs {
        case NoRequirementsFile =>
        case Satisfied(_) =>
        case DistributionNotFound(packages) =>
          var c := InstallCall(packageDir, packages, iconDir, uid);
          AddResult(c.title, c.subtitle, c.iconPath, c.arg, None, None, uid);
          flow := Exit;
        case ResolutionFailed(message, trace) =>
          flow := Throw(OtherException(message, trace));
      }
    }

    /** `cache_response`: reads the file (an absent or empty one as `{}`), sets the one key, writes it all back. */
    method CacheResponse()
      modifies this
      ensures resultsFile == Store(old(resultsFile), bareQuery, results)
      ensures results == old(results)
    {
      var data := Existing(resultsFile);
      var entries: seq<CachedEntry> := [];
      var i := 0;
      while i < |results|
        invariant 0 <= i <= |results|
        invariant entries == Entries(results[..i])
      {
        assert results[..i + 1][..i] == results[..i];
        entries := entries + [Entry(results[i])];
        i := i + 1;
      }
      assert results[..i] == results;
      data := data[bareQuery := entries];
      resultsFile := Document(data);
    }

    /** `load_cached_response` as written. */
    method LoadCachedResponse(uids: nat -> string) returns (found: Lookup)
      modifies this
      ensures found == LoadDecision(bareQuery, old(resultsFile))
      ensures results == if found.Hit? then RebuildAll(found.entries, uids) else old(results)
      ensures resultsFile == old(resultsFile)
    {
      if Truthy(bareQuery) {
        return Miss;
      }
      match resultsFile {
        case Missing =>
          found := Miss;
        case Blank =>
          found := NoneHasNoKeys;
        case Document(data) =>
          var stored := if bareQuery in data then Some(data[bareQuery]) else None;
          found := match stored
            case Some(entries) => if Truthy(bareQuery) then Hit(entries) else Miss
            case None => Miss;
      }
      // `self.results = [...]` happens only together with `return True`.
      results := match found
        case Hit(entries) => RebuildAll(entries, uids)
        case _ => results;
    }

    /** `run(func(client))`: the callback's `add_result` calls, in order, then its ending. */
    method AwaitCallback(cb: Callback) returns (flow: Flow)
      modifies this
      ensures results == AddedAll(old(results), cb.calls)
      ensures flow == if cb.ending.Returned? then Proceed else Throw(cb.ending.error)
      ensures resultsFile == old(resultsFile)
    {
      var i := 0;
      while i < |cb.calls|
        invariant 0 <= i <= |cb.calls|
        invariant results == AddedAll(old(results), cb.calls[..i])
        invariant resultsFile == old(resultsFile)
      {
        var c := cb.calls[i];
        assert cb.calls[..i + 1][..i] == cb.calls[..i];
        AddResult(c.title, c.subtitle, c.iconPath, c.arg, c.downloader, c.index, c.uid);
        i := i + 1;
      }
      assert cb.calls[..i] == cb.calls;
      flow := if cb.ending.Returned? then Proceed else Throw(cb.ending.error);
    }
  }

  /** `WorkflowClient.run`, driving a fresh client through the lifecycle. */
  method Run(inv: Invocation, file: ResultsFile, reqs: Requirements, cb: Callback, uid: string, uids: nat -> string)
    returns (r: RunResult)
    ensures r == Lifecycle(inv, file, reqs, cb, uid, uids)
  {
    if inv.manifest.None? {
      return RunResult(Crashed(ManifestUnreadable), file);
    }
    var client := new WorkflowClient(inv.argv, inv.packageDir, inv.moduleDir, inv.manifest.value, file);
    if inv.cache {
      var found := client.LoadCachedResponse(uids);
      match found {
        case NoneHasNoKeys =>
          return RunResult(Crashed(NoneHasNoKeysError), file);
        case Hit(stored) =>
          // `response_with_results` prints the rebuilt list and exits.
          return RunResult(Emitted(RebuildAll(stored, uids)), file);
        case Miss =>
      }
    }
    var flow := client.InstallRequirements(reqs, uid);
    if flow.Proceed? {
      flow := client.AwaitCallback(cb);
      if flow.Proceed? {
        if inv.cache {
          client.CacheResponse();
        }
        var items := client.ResponseWithResults();
        return RunResult(Emitted(items), client.resultsFile);
      }
    }
    if flow.Exit? {
      var items := client.ResponseWithResults();
      return RunResult(Emitted(items), client.resultsFile);
    }
    match flow.error {
      case WorkflowError(_, _) =>
        r := RunResult(Crashed(WorkflowErrorHasNoArg), client.resultsFile);
      case OtherException(message, trace) =>
        var arg := Strip(trace);
        var items := client.ErrorResponse(message, LastLine(arg), None, arg, uid);
        r := RunResult(Emitted(items), client.resultsFile);
    }
  }

}
