/** The preprocessinator itself: an object wired to its collaborators that
    owns a view of the file store (stamps and include-list files) and records,
    as a ghost trace, every observable step it takes. Each entry point is
    proved to produce the result, store and events its specification function
    in PipelineSpec describes. */
module Preprocessinators {
  import opened Model
  import opened Trace
  import opened FreshnessCache
  import opened PipelineSpec

  class Preprocessinator {
    const collaborators: Collaborators
    /** The configuration switch `project_use_test_preprocessor`. */
    const useTestPreprocessor: bool

    var stamps: map<Path, nat>
    var lists: map<Path, seq<Path>>
    var clock: nat
    ghost var trace: seq<Event>

    function Files(): Store
      reads this
    {
      Store(stamps, lists, clock)
    }

    ghost predicate Valid()
      reads this
    {
      ValidStore(Files())
    }

    constructor (collaborators: Collaborators, useTestPreprocessor: bool, files: Store)
      requires ValidStore(files)
      ensures Valid() && Files() == files && trace == []
      ensures this.collaborators == collaborators && this.useTestPreprocessor == useTestPreprocessor
    {
      this.collaborators := collaborators;
      this.useTestPreprocessor := useTestPreprocessor;
      stamps, lists, clock := files.stamps, files.lists, files.clock;
      trace := [];
    }

    // -------------------------------------------------------------------------
    // Calls into collaborators that touch the file store or the trace

    /** `loginator.log` of a progress message. */
    method Log(note: Note)
      modifies this`trace
      ensures trace == old(trace) + [Logged(note)]
    {
      trace := trace + [Logged(note)];
    }

    /** The `file_wrapper.newer?` query on the current store. */
    method IsNewer(a: Path, b: Path) returns (r: bool)
      ensures r == Newer(Files(), a, b)
    {
      r := Newer(Files(), a, b);
    }

    /** `yaml_wrapper.load` of an include-list file. */
    method LoadList(listFile: Path) returns (r: Result<seq<Path>>)
      modifies this`trace
      ensures r == Load(Files(), listFile)
      ensures trace == old(trace) + [ListLoaded(listFile)]
    {
      if listFile in lists {
        r := Ok(lists[listFile]);
      } else {
        r := Err(Unloadable(listFile));
      }
      trace := trace + [ListLoaded(listFile)];
    }

    /** Writing an include list to its list file, stamped now. */
    method StoreList(listFile: Path, includes: seq<Path>)
      requires Valid()
      modifies this
      ensures Valid()
      ensures Files() == Write(old(Files()), listFile, includes)
      ensures trace == old(trace) + [ListWritten(listFile, includes)]
    {
      stamps := stamps[listFile := clock];
      lists := lists[listFile := includes];
      clock := clock + 1;
      trace := trace + [ListWritten(listFile, includes)];
    }

    /** Dispatching a plugin hook with the argument hash; the plugins may change it. */
    method FireHook(hook: Hook, args: HookContext) returns (args': HookContext)
      modifies this`trace
      ensures args' == collaborators.hook(hook, args)
      ensures trace == old(trace) + [HookFired(hook, args)]
    {
      trace := trace + [HookFired(hook, args)];
      args' := collaborators.hook(hook, args);
    }

    // -------------------------------------------------------------------------
    // Public entry points

    method ExtractTestBuildDirectives(filepath: Path) returns (directives: seq<Directive>)
      modifies this`trace
      ensures var o := BuildDirectives(collaborators, Files(), filepath);
        Ok(directives) == o.result && trace == old(trace) + o.events
    {
      Log(Parsing);
      directives := collaborators.collectBuildDirectives(filepath);
      trace := trace + [BuildDirectivesCollected(filepath)];
    }

    method ExtractTestingContext(filepath: Path, test: Test, params: CompileParams) returns (r: Result<seq<Path>>)
      requires Valid()
      modifies this
      ensures Valid()
      ensures var o := TestingContext(collaborators, useTestPreprocessor, old(Files()), filepath, test, params);
        r == o.result && Files() == o.store && trace == old(trace) + o.events
    {
      if !useTestPreprocessor {
        Log(ParsingIncludes);
        trace := trace + [IncludesCollected(filepath)];
        r := Ok(collaborators.collectIncludes(filepath));
      } else {
        var includes := PreprocessIncludes(filepath, test, params);
        if includes.Err? {
          r := Err(includes.error);
          return;
        }
        Log(ProcessingIncludes);
        trace := trace + [IncludesIngested(filepath, includes.value)];
        r := Ok(collaborators.ingestIncludes(filepath, includes.value));
      }
    }

    method PreprocessMockableHeaderFile(filepath: Path, test: Test, params: CompileParams) returns (r: Result<Path>)
      requires Valid()
      modifies this
      ensures Valid()
      ensures r.Ok? ==> r.value == collaborators.preprocessedPath(filepath, test)
      ensures var o := Preprocess(collaborators, MockHeader, old(Files()), filepath, test, params);
        r == o.result && Files() == o.store && trace == old(trace) + o.events
    {
      var preprocessedFilepath := collaborators.preprocessedPath(filepath, test);
      var pluginArgs := map[
        HeaderFile := Text(filepath),
        PreprocessedHeaderFile := Text(preprocessedFilepath),
        TestName := Text(test),
        Flags := Texts(params.flags),
        IncludePaths := Texts(params.includePaths),
        Defines := Texts(params.defines)];
      ghost var before, common := trace, FileCommon(collaborators, Files(), filepath, test, params);
      assert pluginArgs == HookArgs(MockHeader, filepath, preprocessedFilepath, test, params);
      pluginArgs := FireHook(PreMockPreprocess, pluginArgs);
      var includes := PreprocessFileCommon(filepath, test, params);
      ghost var preEvent := PreEvent(collaborators, MockHeader, filepath, test, params);
      if includes.Err? {
        RegroupShort(before, preEvent, common.events);
        r := Err(includes.error);
        return;
      }
      var shell := collaborators.preprocessHeaderFile(filepath, preprocessedFilepath, includes.value, params);
      ghost var backendEvent := BackendCalled(HeaderBackend, filepath, preprocessedFilepath, includes.value, params, shell);
      trace := trace + [backendEvent];
      pluginArgs := pluginArgs[ShellResultKey := Shell(shell)];
      var _ := FireHook(PostMockPreprocess, pluginArgs);
      RegroupLong(before, preEvent, common.events, backendEvent, HookFired(PostMockPreprocess, pluginArgs));
      r := Ok(preprocessedFilepath);
    }

    method PreprocessTestFile(filepath: Path, test: Test, params: CompileParams) returns (r: Result<Path>)
      requires Valid()
      modifies this
      ensures Valid()
      ensures r.Ok? ==> r.value == collaborators.preprocessedPath(filepath, test)
      ensures var o := Preprocess(collaborators, TestSource, old(Files()), filepath, test, params);
        r == o.result && Files() == o.store && trace == old(trace) + o.events
    {
      var preprocessedFilepath := collaborators.preprocessedPath(filepath, test);
      var pluginArgs := map[
        TestFile := Text(filepath),
        PreprocessedTestFile := Text(preprocessedFilepath),
        TestName := Text(test),
        Flags := Texts(params.flags),
        IncludePaths := Texts(params.includePaths),
        Defines := Texts(params.defines)];
      ghost var before, common := trace, FileCommon(collaborators, Files(), filepath, test, params);
      assert pluginArgs == HookArgs(TestSource, filepath, preprocessedFilepath, test, params);
      pluginArgs := FireHook(PreTestPreprocess, pluginArgs);
      var includes := PreprocessFileCommon(filepath, test, params);
      ghost var preEvent := PreEvent(collaborators, TestSource, filepath, test, params);
      if includes.Err? {
        RegroupShort(before, preEvent, common.events);
        r := Err(includes.error);
        return;
      }
      var shell := collaborators.preprocessTestFile(filepath, preprocessedFilepath, includes.value, params);
      ghost var backendEvent := BackendCalled(TestFileBackend, filepath, preprocessedFilepath, includes.value, params, shell);
      trace := trace + [backendEvent];
      pluginArgs := pluginArgs[ShellResultKey := Shell(shell)];
      var _ := FireHook(PostTestPreprocess, pluginArgs);
      RegroupLong(before, preEvent, common.events, backendEvent, HookFired(PostTestPreprocess, pluginArgs));
      r := Ok(preprocessedFilepath);
    }

    method PreprocessFileDirectives(filepath: Path) returns (r: Result<ShellResult>)
      requires Valid()
      modifies this
      ensures Valid()
      ensures var o := FileDirectives(collaborators, old(Files()), filepath);
        r == o.result && Files() == o.store && trace == old(trace) + o.events
    {
      InvokeShallowIncludesList(filepath);
      var listFile := collaborators.shallowListPath(filepath);
      var loaded := LoadList(listFile);
      var shell := collaborators.preprocessFileDirectives(filepath, loaded.value);
      trace := trace + [DirectivesBackendCalled(filepath, loaded.value, shell)];
      r := Ok(shell);
    }

    // -------------------------------------------------------------------------
    // Private helpers

    /** `includes_handler.invoke_shallow_includes_list`: (re)builds the shallow
        include list of `filepath` at its one-argument list path. */
    method InvokeShallowIncludesList(filepath: Path)
      requires Valid()
      modifies this
      ensures Valid()
      ensures var listFile, includes := collaborators.shallowListPath(filepath), collaborators.shallowIncludes(filepath);
        && Files() == Write(old(Files()), listFile, includes)
        && trace == old(trace) + [ShallowListInvoked(filepath), ListWritten(listFile, includes)]
    {
      trace := trace + [ShallowListInvoked(filepath)];
      StoreList(collaborators.shallowListPath(filepath), collaborators.shallowIncludes(filepath));
    }

    method PreprocessFileCommon(filepath: Path, test: Test, params: CompileParams) returns (r: Result<seq<Path>>)
      requires Valid()
      modifies this
      ensures Valid()
      ensures var o := FileCommon(collaborators, old(Files()), filepath, test, params);
        r == o.result && Files() == o.store && trace == old(trace) + o.events
    {
      Log(Preprocessing);
      r := PreprocessIncludes(filepath, test, params);
    }

    method PreprocessIncludes(filepath: Path, test: Test, params: CompileParams) returns (r: Result<seq<Path>>)
      requires Valid()
      modifies this
      ensures Valid()
      ensures var o := ResolveIncludes(collaborators, old(Files()), filepath, test, params);
        r == o.result && Files() == o.store && trace == old(trace) + o.events
    {
      var listFile := collaborators.includesListPath(filepath, test);
      var listIsNewer := IsNewer(listFile, filepath);
      if listIsNewer {
        Log(LoadingIncludesList);
        r := LoadList(listFile);
      } else {
        var includes := collaborators.extractIncludes(filepath, test, params);
        trace := trace + [IncludesExtracted(filepath, test, params)];
        StoreList(listFile, includes);
        r := Ok(includes);
      }
    }
  }

}
