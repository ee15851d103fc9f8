/** Properties of the preprocessinator's entry points that relate calls to
    each other or count and order the events of a call. */
module PipelineProperties {
  import opened Model
  import opened Trace
  import opened FreshnessCache
  import opened PipelineSpec

  // ---------------------------------------------------------------------------
  // The include-list cache

  /** A hit loads the cached list and neither extracts nor writes. */
  lemma CacheHitLoadsOnly(c: Collaborators, s: Store, f: Path, t: Test, p: CompileParams)
    requires CacheHit(c, s, f, t)
    ensures var o := ResolveIncludes(c, s, f, t, p);
      && o.result == Load(s, c.includesListPath(f, t))
      && o.store == s
      && Count(o.events, KListLoaded) == 1
      && Count(o.events, KExtracted) == 0
      && Count(o.events, KListWritten) == 0
  {
    var o := ResolveIncludes(c, s, f, t, p);
    assert o.events == [Logged(LoadingIncludesList)] + [ListLoaded(c.includesListPath(f, t))];
    TwoEvents(Logged(LoadingIncludesList), ListLoaded(c.includesListPath(f, t)), KListLoaded);
    TwoEvents(Logged(LoadingIncludesList), ListLoaded(c.includesListPath(f, t)), KExtracted);
    TwoEvents(Logged(LoadingIncludesList), ListLoaded(c.includesListPath(f, t)), KListWritten);
  }

  /** A miss extracts exactly once, writes that same list exactly once to the
      list file keyed on (f, t), returns it unchanged, and reads no list. */
  lemma CacheMissExtractsOnce(c: Collaborators, s: Store, f: Path, t: Test, p: CompileParams)
    requires !CacheHit(c, s, f, t)
    ensures var o := ResolveIncludes(c, s, f, t, p);
      && o.result.Ok?
      && Count(o.events, KExtracted) == 1
      && Count(o.events, KListWritten) == 1
      && Count(o.events, KListLoaded) == 0
      && ListWritten(c.includesListPath(f, t), o.result.value) in o.events
      && o.store.lists == s.lists[c.includesListPath(f, t) := o.result.value]
  {
    var o := ResolveIncludes(c, s, f, t, p);
    var listFile := c.includesListPath(f, t);
    var inc := c.extractIncludes(f, t, p);
    assert o.events == [IncludesExtracted(f, t, p)] + [ListWritten(listFile, inc)];
    TwoEvents(IncludesExtracted(f, t, p), ListWritten(listFile, inc), KExtracted);
    TwoEvents(IncludesExtracted(f, t, p), ListWritten(listFile, inc), KListWritten);
    TwoEvents(IncludesExtracted(f, t, p), ListWritten(listFile, inc), KListLoaded);
  }

  /** Asking twice for the same (file, test): the second call is a cache hit that
      returns what the first returned and changes nothing, provided the source
      file exists and is not its own list file. */
  lemma {:induction false} ResolveTwiceHits(c: Collaborators, s: Store, f: Path, t: Test, p: CompileParams)
    requires ValidStore(s) && f in s.stamps && c.includesListPath(f, t) != f
    ensures var first := ResolveIncludes(c, s, f, t, p);
      var second := ResolveIncludes(c, first.store, f, t, p);
      && CacheHit(c, first.store, f, t)
      && second.result == first.result
      && second.store == first.store
      && Count(second.events, KExtracted) == 0
  {
    var first := ResolveIncludes(c, s, f, t, p);
    if !CacheHit(c, s, f, t) {
      var listFile := c.includesListPath(f, t);
      assert first.store == Write(s, listFile, c.extractIncludes(f, t, p));
      assert Newer(first.store, listFile, f);
    }
    CacheHitLoadsOnly(c, first.store, f, t, p);
  }

  /** Once the source file is modified after its list was written, the next call
      recomputes instead of reusing the stale list. */
  lemma TouchedSourceRecomputes(c: Collaborators, s: Store, f: Path, t: Test, p: CompileParams)
    requires ValidStore(s)
    ensures var o := ResolveIncludes(c, Touch(s, f), f, t, p);
      && !CacheHit(c, Touch(s, f), f, t)
      && o.result == Ok(c.extractIncludes(f, t, p))
      && Count(o.events, KExtracted) == 1
  {
    CacheMissExtractsOnce(c, Touch(s, f), f, t, p);
  }

  /** Two requests whose list files differ, and neither of whose list file is the
      other's source, do not see each other: each gets the result it would get
      alone, and the two orders leave the same lists behind. */
  lemma IndependentRequests(c: Collaborators, s: Store, f1: Path, t1: Test, p1: CompileParams,
                            f2: Path, t2: Test, p2: CompileParams)
    requires c.includesListPath(f1, t1) != c.includesListPath(f2, t2)
    requires c.includesListPath(f1, t1) != f2 && c.includesListPath(f2, t2) != f1
    ensures var a1 := ResolveIncludes(c, s, f1, t1, p1);
      var a2 := ResolveIncludes(c, a1.store, f2, t2, p2);
      var b2 := ResolveIncludes(c, s, f2, t2, p2);
      var b1 := ResolveIncludes(c, b2.store, f1, t1, p1);
      && a2.result == b2.result
      && b1.result == a1.result
      && forall q :: Load(a2.store, q) == Load(b1.store, q)
  {
    var l1, l2 := c.includesListPath(f1, t1), c.includesListPath(f2, t2);
    var a1 := ResolveIncludes(c, s, f1, t1, p1);
    var b2 := ResolveIncludes(c, s, f2, t2, p2);
    assert CacheHit(c, a1.store, f2, t2) == CacheHit(c, s, f2, t2) by {
      assert l2 != l1 && f2 != l1;
      if !CacheHit(c, s, f1, t1) {
        assert a1.store.stamps == s.stamps[l1 := s.clock];
      }
    }
    assert CacheHit(c, b2.store, f1, t1) == CacheHit(c, s, f1, t1) by {
      assert l1 != l2 && f1 != l2;
      if !CacheHit(c, s, f2, t2) {
        assert b2.store.stamps == s.stamps[l2 := s.clock];
      }
    }
  }

  // ---------------------------------------------------------------------------
  // The testing context

  /** Exactly one strategy runs: the text scan when the test preprocessor is off;
      otherwise include resolution, then (when it succeeds) one ingestion of the
      resolved list as the last event. */
  lemma TestingContextStrategies(c: Collaborators, useTestPreprocessor: bool, s: Store, f: Path, t: Test,
                                 p: CompileParams)
    ensures var o := TestingContext(c, useTestPreprocessor, s, f, t, p);
      var inner := ResolveIncludes(c, s, f, t, p);
      && Count(o.events, KCollected) == (if useTestPreprocessor then 0 else 1)
      && Count(o.events, KIngested) == (if useTestPreprocessor && inner.result.Ok? then 1 else 0)
      && (useTestPreprocessor ==> |inner.events| <= |o.events| && o.events[..|inner.events|] == inner.events)
      && (useTestPreprocessor && inner.result.Ok? ==>
            o.events[|o.events| - 1] == IncludesIngested(f, inner.result.value))
  {
    var o := TestingContext(c, useTestPreprocessor, s, f, t, p);
    var inner := ResolveIncludes(c, s, f, t, p);
    if !useTestPreprocessor {
      TwoEvents(Logged(ParsingIncludes), IncludesCollected(f), KCollected);
      TwoEvents(Logged(ParsingIncludes), IncludesCollected(f), KIngested);
    } else {
      ResolutionKinds(c, s, f, t, p, KCollected);
      ResolutionKinds(c, s, f, t, p, KIngested);
      if inner.result.Ok? {
        var closing := [Logged(ProcessingIncludes)] + [IncludesIngested(f, inner.result.value)];
        assert o.events == inner.events + closing;
        CountConcat(inner.events, closing, KCollected);
        CountConcat(inner.events, closing, KIngested);
        TwoEvents(Logged(ProcessingIncludes), IncludesIngested(f, inner.result.value), KCollected);
        TwoEvents(Logged(ProcessingIncludes), IncludesIngested(f, inner.result.value), KIngested);
      }
    }
  }

  // ---------------------------------------------------------------------------
  // The two preprocessing pipelines

  /** The hash built before the pre-hook carries the file pair of its pipeline
      and the test and compile parameters, and no shell result yet. */
  lemma HookArgsKeys(k: Pipeline, f: Path, target: Path, t: Test, p: CompileParams)
    ensures var h := HookArgs(k, f, target, t, p);
      && h.Keys == (if k == MockHeader then {HeaderFile, PreprocessedHeaderFile} else {TestFile, PreprocessedTestFile})
                   + {TestName, Flags, IncludePaths, Defines}
      && ShellResultKey !in h
  {
  }

  /** Include resolution emits only progress messages, list loads, extractions
      and list writes. */
  lemma ResolutionKinds(c: Collaborators, s: Store, f: Path, t: Test, p: CompileParams, k: Kind)
    requires k != KLogged && k != KListLoaded && k != KExtracted && k != KListWritten
    ensures Count(ResolveIncludes(c, s, f, t, p).events, k) == 0
  {
    var inner := ResolveIncludes(c, s, f, t, p);
    var listFile := c.includesListPath(f, t);
    if CacheHit(c, s, f, t) {
      assert inner.events == [Logged(LoadingIncludesList)] + [ListLoaded(listFile)];
      TwoEvents(Logged(LoadingIncludesList), ListLoaded(listFile), k);
    } else {
      var inc := c.extractIncludes(f, t, p);
      assert inner.events == [IncludesExtracted(f, t, p)] + [ListWritten(listFile, inc)];
      TwoEvents(IncludesExtracted(f, t, p), ListWritten(listFile, inc), k);
    }
  }

  /** The include resolution between the hooks holds no hook or backend event. */
  lemma NoHookOrBackendBetween(c: Collaborators, s: Store, f: Path, t: Test, p: CompileParams, k: Kind)
    requires k == KBackend || k.KHook?
    ensures Count(FileCommon(c, s, f, t, p).events, k) == 0
  {
    ResolutionKinds(c, s, f, t, p, k);
    CountCons(Logged(Preprocessing), ResolveIncludes(c, s, f, t, p).events, k);
  }

  /** The backend call comes first in the closing events, the post-hook second. */
  lemma ClosingKinds(c: Collaborators, k: Pipeline, f: Path, t: Test, p: CompileParams, includes: seq<Path>)
    ensures var cl := Closing(c, k, f, t, p, includes);
      && cl == [cl[0]] + [cl[1]]
      && KindOf(cl[0]) == KBackend && KindOf(cl[1]) == KHook(PostHook(k))
  {
  }

  /** The pre-hook fires exactly once, before anything else. */
  lemma PreHookFiresFirst(c: Collaborators, k: Pipeline, s: Store, f: Path, t: Test, p: CompileParams)
    ensures var o := Preprocess(c, k, s, f, t, p);
      && FirstOf(o.events, KHook(PreHook(k))) == 0
      && Count(o.events, KHook(PreHook(k))) == 1
  {
    var o := Preprocess(c, k, s, f, t, p);
    var common := FileCommon(c, s, f, t, p);
    var pre := PreEvent(c, k, f, t, p);
    NoHookOrBackendBetween(c, s, f, t, p, KHook(PreHook(k)));
    match common.result
    case Ok(includes) =>
      var cl := Closing(c, k, f, t, p, includes);
      ClosingKinds(c, k, f, t, p, includes);
      CallTrace(pre, common.events, cl[0], cl[1], KHook(PreHook(k)));
    case Err(_) =>
      Framed(pre, common.events, [], KHook(PreHook(k)));
      FirstCons(pre, common.events, KHook(PreHook(k)));
      assert [pre] + common.events + [] == [pre] + common.events;
  }

  /** When the includes resolve, the backend runs exactly once, then the
      post-hook fires exactly once, as the last event. */
  lemma BackendThenPostHook(c: Collaborators, k: Pipeline, s: Store, f: Path, t: Test, p: CompileParams)
    requires Preprocess(c, k, s, f, t, p).result.Ok?
    ensures var o := Preprocess(c, k, s, f, t, p);
      && Count(o.events, KBackend) == 1
      && Count(o.events, KHook(PostHook(k))) == 1
      && 0 < FirstOf(o.events, KBackend) == |o.events| - 2
      && FirstOf(o.events, KHook(PostHook(k))) == |o.events| - 1
  {
    var common := FileCommon(c, s, f, t, p);
    var includes := common.result.value;
    var cl := Closing(c, k, f, t, p, includes);
    ClosingKinds(c, k, f, t, p, includes);
    NoHookOrBackendBetween(c, s, f, t, p, KBackend);
    NoHookOrBackendBetween(c, s, f, t, p, KHook(PostHook(k)));
    CallTrace(PreEvent(c, k, f, t, p), common.events, cl[0], cl[1], KBackend);
    CallTrace(PreEvent(c, k, f, t, p), common.events, cl[0], cl[1], KHook(PostHook(k)));
  }

  /** The common step's events on a miss: a progress message, the extraction,
      the list write. */
  lemma CommonStepOnMiss(c: Collaborators, s: Store, f: Path, t: Test, p: CompileParams)
    requires !CacheHit(c, s, f, t)
    ensures var es := FileCommon(c, s, f, t, p).events;
      |es| == 3 && FirstOf(es, KExtracted) == 1 && FirstOf(es, KListWritten) == 2
  {
    var inner := ResolveIncludes(c, s, f, t, p);
    var a, b := IncludesExtracted(f, t, p), ListWritten(c.includesListPath(f, t), c.extractIncludes(f, t, p));
    assert inner.events == [a] + [b];
    TwoEvents(a, b, KExtracted);
    TwoEvents(a, b, KListWritten);
    FirstCons(Logged(Preprocessing), inner.events, KExtracted);
    FirstCons(Logged(Preprocessing), inner.events, KListWritten);
  }

  /** The common step's events on a hit: two progress messages, then the list load. */
  lemma CommonStepOnHit(c: Collaborators, s: Store, f: Path, t: Test, p: CompileParams)
    requires CacheHit(c, s, f, t)
    ensures var es := FileCommon(c, s, f, t, p).events;
      |es| == 3 && FirstOf(es, KListLoaded) == 2
  {
    var inner := ResolveIncludes(c, s, f, t, p);
    var a, b := Logged(LoadingIncludesList), ListLoaded(c.includesListPath(f, t));
    assert inner.events == [a] + [b];
    TwoEvents(a, b, KListLoaded);
    FirstCons(Logged(Preprocessing), inner.events, KListLoaded);
  }

  /** On a cache miss the extraction and the list write happen after the
      pre-hook and before the backend, which comes before the post-hook. */
  lemma ResolutionBetweenHooksOnMiss(c: Collaborators, k: Pipeline, s: Store, f: Path, t: Test, p: CompileParams)
    requires !CacheHit(c, s, f, t)
    ensures var o := Preprocess(c, k, s, f, t, p);
      && o.result.Ok?
      && 0 < FirstOf(o.events, KExtracted) < FirstOf(o.events, KListWritten) < FirstOf(o.events, KBackend)
         < FirstOf(o.events, KHook(PostHook(k))) < |o.events|
  {
    var common := FileCommon(c, s, f, t, p);
    CommonStepOnMiss(c, s, f, t, p);
    var cl := Closing(c, k, f, t, p, common.result.value);
    FoundAfterLead(PreEvent(c, k, f, t, p), common.events, cl, KExtracted);
    FoundAfterLead(PreEvent(c, k, f, t, p), common.events, cl, KListWritten);
    BackendThenPostHook(c, k, s, f, t, p);
  }

  /** On a cache hit that loads a list, the load happens after the pre-hook and
      before the backend, which comes before the post-hook. */
  lemma ResolutionBetweenHooksOnHit(c: Collaborators, k: Pipeline, s: Store, f: Path, t: Test, p: CompileParams)
    requires CacheHit(c, s, f, t)
    requires Preprocess(c, k, s, f, t, p).result.Ok?
    ensures var o := Preprocess(c, k, s, f, t, p);
      0 < FirstOf(o.events, KListLoaded) < FirstOf(o.events, KBackend) < FirstOf(o.events, KHook(PostHook(k)))
        < |o.events|
  {
    var common := FileCommon(c, s, f, t, p);
    CommonStepOnHit(c, s, f, t, p);
    var cl := Closing(c, k, f, t, p, common.result.value);
    FoundAfterLead(PreEvent(c, k, f, t, p), common.events, cl, KListLoaded);
    BackendThenPostHook(c, k, s, f, t, p);
  }

  /** When the include resolution fails, neither the backend nor the post-hook runs. */
  lemma FailureSkipsBackendAndPostHook(c: Collaborators, k: Pipeline, s: Store, f: Path, t: Test, p: CompileParams)
    requires Preprocess(c, k, s, f, t, p).result.Err?
    ensures var o := Preprocess(c, k, s, f, t, p);
      && Count(o.events, KBackend) == 0
      && Count(o.events, KHook(PostHook(k))) == 0
  {
    var common := FileCommon(c, s, f, t, p);
    NoHookOrBackendBetween(c, s, f, t, p, KBackend);
    NoHookOrBackendBetween(c, s, f, t, p, KHook(PostHook(k)));
    Framed(PreEvent(c, k, f, t, p), common.events, [], KBackend);
    Framed(PreEvent(c, k, f, t, p), common.events, [], KHook(PostHook(k)));
    assert [PreEvent(c, k, f, t, p)] + common.events + [] == [PreEvent(c, k, f, t, p)] + common.events;
  }

  /** The hash the post-hook receives is the hash the pre-hook left behind plus
      :shell_result, whose value is what the backend returned. */
  lemma PostHookSeesPreHookHash(c: Collaborators, k: Pipeline, s: Store, f: Path, t: Test, p: CompileParams)
    requires Preprocess(c, k, s, f, t, p).result.Ok?
    ensures var o := Preprocess(c, k, s, f, t, p);
      var post := o.events[|o.events| - 1];
      var backend := o.events[|o.events| - 2];
      var afterPre := c.hook(PreHook(k), HookArgs(k, f, c.preprocessedPath(f, t), t, p));
      && post.HookFired? && backend.BackendCalled?
      && post.context.Keys == afterPre.Keys + {ShellResultKey}
      && post.context[ShellResultKey] == Shell(backend.result)
      && forall key :: key in afterPre && key != ShellResultKey ==> post.context[key] == afterPre[key]
  {
  }

  /** The backend preprocesses the file into the target path with exactly the
      includes the include resolution returned and the compile parameters given. */
  lemma BackendGetsResolvedIncludes(c: Collaborators, k: Pipeline, s: Store, f: Path, t: Test, p: CompileParams)
    requires Preprocess(c, k, s, f, t, p).result.Ok?
    ensures var o := Preprocess(c, k, s, f, t, p);
      var backend := o.events[|o.events| - 2];
      && backend == BackendCalled(BackendOf(k), f, c.preprocessedPath(f, t), ResolveIncludes(c, s, f, t, p).result.value,
                                  p, backend.result)
      && backend.result == RunBackend(c, k, f, c.preprocessedPath(f, t), backend.includes, p)
  {
  }

  /** With plugins that leave the hash alone, the mock-header post-hook sees
      header_file, preprocessed_header_file, test, flags, include_paths and
      defines as passed, and the backend's result under :shell_result. */
  lemma MockPostHookContents(c: Collaborators, s: Store, f: Path, t: Test, p: CompileParams)
    requires forall h, ctx :: c.hook(h, ctx) == ctx
    requires Preprocess(c, MockHeader, s, f, t, p).result.Ok?
    ensures var o := Preprocess(c, MockHeader, s, f, t, p);
      var post := o.events[|o.events| - 1].context;
      var backend := o.events[|o.events| - 2];
      && post == map[HeaderFile := Text(f), PreprocessedHeaderFile := Text(c.preprocessedPath(f, t)),
                     TestName := Text(t), Flags := Texts(p.flags), IncludePaths := Texts(p.includePaths),
                     Defines := Texts(p.defines), ShellResultKey := Shell(backend.result)]
  {
    var o := Preprocess(c, MockHeader, s, f, t, p);
    var args := HookArgs(MockHeader, f, c.preprocessedPath(f, t), t, p);
    assert c.hook(PreMockPreprocess, args) == args;
  }

  /** Whatever entries the plugins replace in the hash, the backend call, the
      returned path and the store are the same. */
  lemma HooksCannotRedirect(c: Collaborators, g: (Hook, HookContext) -> HookContext, k: Pipeline,
                            s: Store, f: Path, t: Test, p: CompileParams)
    ensures var o := Preprocess(c, k, s, f, t, p);
      var o' := Preprocess(c.(hook := g), k, s, f, t, p);
      && o'.result == o.result
      && o'.store == o.store
      && |o'.events| == |o.events|
      && forall i :: 0 <= i < |o.events| && !o.events[i].HookFired? ==> o'.events[i] == o.events[i]
  {
  }

  /** Header and test pipelines name their artifact by the same convention. */
  lemma PipelinesShareTargetPath(c: Collaborators, s: Store, f: Path, t: Test, p: CompileParams)
    ensures var m := Preprocess(c, MockHeader, s, f, t, p);
      var u := Preprocess(c, TestSource, s, f, t, p);
      && m.result == u.result
      && m.store == u.store
  {
  }

  // ---------------------------------------------------------------------------
  // preprocess_file_directives

  lemma FileDirectivesShape(c: Collaborators, s: Store, f: Path)
    ensures var o := FileDirectives(c, s, f);
      var listFile, includes := c.shallowListPath(f), c.shallowIncludes(f);
      && o.result.Ok?
      && o.events == [ShallowListInvoked(f)] + ([ListWritten(listFile, includes)] + ([ListLoaded(listFile)]
                     + [DirectivesBackendCalled(f, includes, o.result.value)]))
  {
  }

  /** Positions and counts in a trace of four events of four distinct kinds. */
  lemma FourEvents(a: Event, b: Event, d: Event, e: Event)
    requires KindOf(a) == KShallowList && KindOf(b) == KListWritten && KindOf(d) == KListLoaded
    requires KindOf(e) == KDirectivesBackend
    ensures var es := [a] + ([b] + ([d] + [e]));
      && FirstOf(es, KShallowList) == 0 && FirstOf(es, KListLoaded) == 2 && FirstOf(es, KDirectivesBackend) == 3
      && Count(es, KDirectivesBackend) == 1 && Count(es, KExtracted) == 0
  {
    FirstCons(a, [b] + ([d] + [e]), KListLoaded);
    FirstCons(b, [d] + [e], KListLoaded);
    FirstCons(a, [b] + ([d] + [e]), KDirectivesBackend);
    FirstCons(b, [d] + [e], KDirectivesBackend);
    FirstCons(d, [e], KDirectivesBackend);
    CountCons(a, [b] + ([d] + [e]), KDirectivesBackend);
    CountCons(b, [d] + [e], KDirectivesBackend);
    CountCons(d, [e], KDirectivesBackend);
    CountZero([a] + ([b] + ([d] + [e])), KExtracted);
  }

  /** The shallow list is built first, then loaded from the one-argument list
      path, then the backend runs once with the loaded list. */
  lemma FileDirectivesOrder(c: Collaborators, s: Store, f: Path)
    ensures var o := FileDirectives(c, s, f);
      var es := o.events;
      && FirstOf(es, KShallowList) < FirstOf(es, KListLoaded) < FirstOf(es, KDirectivesBackend) < |es|
      && es[FirstOf(es, KListLoaded)] == ListLoaded(c.shallowListPath(f))
      && es[FirstOf(es, KDirectivesBackend)]
         == DirectivesBackendCalled(f, o.store.lists[c.shallowListPath(f)], o.result.value)
      && Count(es, KDirectivesBackend) == 1 && Count(es, KExtracted) == 0
  {
    var o := FileDirectives(c, s, f);
    var listFile, includes := c.shallowListPath(f), c.shallowIncludes(f);
    FileDirectivesShape(c, s, f);
    FourEvents(ShallowListInvoked(f), ListWritten(listFile, includes), ListLoaded(listFile),
               DirectivesBackendCalled(f, includes, o.result.value));
  }

}
