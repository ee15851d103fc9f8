/** What each entry point of the preprocessinator does, as a function from the
    store before the call to the result, the store after it and the events it
    emits, together with the properties of those functions. */
module PipelineSpec {
  import opened Model
  import opened Trace
  import opened FreshnessCache

  /** The outcome of one call: its result, the store after it, its events in order. */
  datatype Step<T> = Step(result: Result<T>, store: Store, events: seq<Event>)

  // ---------------------------------------------------------------------------
  // extract_test_build_directives

  function BuildDirectives(c: Collaborators, s: Store, f: Path): (o: Step<seq<Directive>>)
    ensures o.result == Ok(c.collectBuildDirectives(f))
    ensures o.store == s
    ensures forall i :: 0 <= i < |o.events| ==> KindOf(o.events[i]) in {KLogged, KBuildDirectives}
  {
    Step(Ok(c.collectBuildDirectives(f)), s, [Logged(Parsing), BuildDirectivesCollected(f)])
  }

  // ---------------------------------------------------------------------------
  // preprocess_includes: the include-list freshness cache

  /** The cache is consulted when the list file keyed on (f, t) is newer than f. */
  predicate CacheHit(c: Collaborators, s: Store, f: Path, t: Test) {
    Newer(s, c.includesListPath(f, t), f)
  }

  function ResolveIncludes(c: Collaborators, s: Store, f: Path, t: Test, p: CompileParams): (o: Step<seq<Path>>)
    ensures ValidStore(s) ==> ValidStore(o.store)
    ensures CacheHit(c, s, f, t) ==>
      && o.result == Load(s, c.includesListPath(f, t))
      && o.store == s
    ensures !CacheHit(c, s, f, t) ==>
      && o.result == Ok(c.extractIncludes(f, t, p))
      && Load(o.store, c.includesListPath(f, t)) == o.result
      && forall q :: q != c.includesListPath(f, t) ==> Load(o.store, q) == Load(s, q)
  {
    var listFile := c.includesListPath(f, t);
    if Newer(s, listFile, f) then
      Step(Load(s, listFile), s, [Logged(LoadingIncludesList), ListLoaded(listFile)])
    else
      var includes := c.extractIncludes(f, t, p);
      Step(Ok(includes), Write(s, listFile, includes), [IncludesExtracted(f, t, p), ListWritten(listFile, includes)])
  }

  /** preprocess_file_common: a progress message, then the include resolution. */
  function FileCommon(c: Collaborators, s: Store, f: Path, t: Test, p: CompileParams): (o: Step<seq<Path>>)
    ensures var inner := ResolveIncludes(c, s, f, t, p);
      o.result == inner.result && o.store == inner.store && o.events == [Logged(Preprocessing)] + inner.events
  {
    var inner := ResolveIncludes(c, s, f, t, p);
    Step(inner.result, inner.store, [Logged(Preprocessing)] + inner.events)
  }

  // ---------------------------------------------------------------------------
  // extract_testing_context

  function TestingContext(c: Collaborators, useTestPreprocessor: bool, s: Store, f: Path, t: Test, p: CompileParams)
    : (o: Step<seq<Path>>)
    ensures !useTestPreprocessor ==>
      && o.result == Ok(c.collectIncludes(f))
      && o.store == s
      && Count(o.events, KListLoaded) == 0 && Count(o.events, KListWritten) == 0 && Count(o.events, KExtracted) == 0
    ensures useTestPreprocessor ==>
      var inner := ResolveIncludes(c, s, f, t, p);
      && o.store == inner.store
      && (inner.result.Ok? ==> o.result == Ok(c.ingestIncludes(f, inner.result.value)))
      && (inner.result.Err? ==> o.result == inner.result)
  {
    if !useTestPreprocessor then
      Step(Ok(c.collectIncludes(f)), s, [Logged(ParsingIncludes), IncludesCollected(f)])
    else
      var inner := ResolveIncludes(c, s, f, t, p);
      match inner.result
      case Err(e) => Step(Err(e), inner.store, inner.events)
      case Ok(includes) =>
        Step(Ok(c.ingestIncludes(f, includes)), inner.store,
             inner.events + [Logged(ProcessingIncludes), IncludesIngested(f, includes)])
  }

  // ---------------------------------------------------------------------------
  // preprocess_mockable_header_file and preprocess_test_file

  /** The two pipelines share one shape and differ in hooks, hash keys and backend. */
  datatype Pipeline = MockHeader | TestSource

  function PreHook(k: Pipeline): Hook {
    match k
    case MockHeader => PreMockPreprocess
    case TestSource => PreTestPreprocess
  }

  function PostHook(k: Pipeline): Hook {
    match k
    case MockHeader => PostMockPreprocess
    case TestSource => PostTestPreprocess
  }

  function BackendOf(k: Pipeline): Backend {
    match k
    case MockHeader => HeaderBackend
    case TestSource => TestFileBackend
  }

  function RunBackend(c: Collaborators, k: Pipeline, f: Path, target: Path, includes: seq<Path>, p: CompileParams)
    : ShellResult
  {
    match k
    case MockHeader => c.preprocessHeaderFile(f, target, includes, p)
    case TestSource => c.preprocessTestFile(f, target, includes, p)
  }

  /** The plugin argument hash built before the pre-hook. */
  function HookArgs(k: Pipeline, f: Path, target: Path, t: Test, p: CompileParams): HookContext {
    var files := match k
      case MockHeader => map[HeaderFile := Text(f), PreprocessedHeaderFile := Text(target)]
      case TestSource => map[TestFile := Text(f), PreprocessedTestFile := Text(target)];
    files + map[TestName := Text(t), Flags := Texts(p.flags), IncludePaths := Texts(p.includePaths),
                Defines := Texts(p.defines)]
  }

  /** The pre-hook's event: it receives the hash as built. */
  function PreEvent(c: Collaborators, k: Pipeline, f: Path, t: Test, p: CompileParams): Event {
    HookFired(PreHook(k), HookArgs(k, f, c.preprocessedPath(f, t), t, p))
  }

  /** The backend call with the resolved includes, then the post-hook, which
      receives the hash the pre-hook's plugins left behind plus :shell_result. */
  function Closing(c: Collaborators, k: Pipeline, f: Path, t: Test, p: CompileParams, includes: seq<Path>)
    : seq<Event>
  {
    var target := c.preprocessedPath(f, t);
    var shell := RunBackend(c, k, f, target, includes, p);
    [BackendCalled(BackendOf(k), f, target, includes, p, shell),
     HookFired(PostHook(k), c.hook(PreHook(k), HookArgs(k, f, target, t, p))[ShellResultKey := Shell(shell)])]
  }

  function Preprocess(c: Collaborators, k: Pipeline, s: Store, f: Path, t: Test, p: CompileParams): (o: Step<Path>)
    ensures ValidStore(s) ==> ValidStore(o.store)
    ensures o.store == ResolveIncludes(c, s, f, t, p).store
    ensures o.result.Ok? <==> ResolveIncludes(c, s, f, t, p).result.Ok?
    ensures o.result.Ok? ==> o.result.value == c.preprocessedPath(f, t)
  {
    var common := FileCommon(c, s, f, t, p);
    match common.result
    case Err(e) => Step(Err(e), common.store, [PreEvent(c, k, f, t, p)] + common.events)
    case Ok(includes) =>
      Step(Ok(c.preprocessedPath(f, t)), common.store,
           [PreEvent(c, k, f, t, p)] + common.events + Closing(c, k, f, t, p, includes))
  }

  // ---------------------------------------------------------------------------
  // preprocess_file_directives

  function FileDirectives(c: Collaborators, s: Store, f: Path): (o: Step<ShellResult>)
    ensures o.result == Ok(c.preprocessFileDirectives(f, c.shallowIncludes(f)))
    ensures Load(o.store, c.shallowListPath(f)) == Ok(c.shallowIncludes(f))
    ensures forall q :: q != c.shallowListPath(f) ==> Load(o.store, q) == Load(s, q)
    ensures ValidStore(s) ==> ValidStore(o.store)
  {
    var listFile := c.shallowListPath(f);
    var s1 := Write(s, listFile, c.shallowIncludes(f));
    var includes := Load(s1, listFile).value;
    var shell := c.preprocessFileDirectives(f, includes);
    Step(Ok(shell), s1, [ShallowListInvoked(f), ListWritten(listFile, c.shallowIncludes(f)), ListLoaded(listFile),
                         DirectivesBackendCalled(f, includes, shell)])
  }

}
