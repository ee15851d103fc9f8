# Ceedling preprocessinator, modelled in Dafny

Ceedling builds and runs C unit tests. Its `Preprocessinator` decides how each
test file and each mockable header is preprocessed before the build goes on:

- it collects the build directives of a test file;
- it works out a test file's testing context (its `#include` list), either by a
  plain text scan or by running the C preprocessor;
- it preprocesses a mockable header or a test file between a pre-hook and a
  post-hook that plugins observe;
- it preprocesses only the directives of a file.

Running the C preprocessor is expensive. The include list of a (file, test) pair is
therefore cached in a list file, and the list is reused while that list file is
newer than the source.

The model has two layers.

- `PipelineSpec` gives each entry point as a function from the file store before
  the call to a `Step`: the result, the store after the call and the events the
  call emits, in order. Events are log messages, collaborator calls, hook firings,
  list loads and list writes. `PipelineProperties` proves the promised properties
  about these functions: cache hits and misses, the order of the hooks and the
  backend, the contents of the plugin hash, and the shallow-list protocol.
- `Preprocessinators.Preprocessinator` is the object itself. It is a class whose
  fields hold the file store (stamps, list files, a clock), plus a ghost trace of
  events. Each method mirrors one Ruby method statement by statement. Its
  `ensures` ties the new store, the result and the events appended to the trace to
  the specification function.

`Model` holds the values: paths, compile parameters, the plugin argument hash,
backend results, events and the collaborators. `FreshnessCache` holds the file
store with the model's readings of `newer?` and of YAML list loading, and list writing. `Trace` counts events of
a kind and finds the first one.

The collaborators (path forming, the include extractor, the test context
extractor, the file handler's backends, the plugin manager) appear as function
values in a `Collaborators` record. A plugin hook is modelled as its net effect on
the argument hash.

## Model

| member | source | states |
|---|---|---|
| FreshnessCache.Load | lib/ceedling/preprocessinator.rb:191 | loading a list file succeeds exactly when the file holds a list, and yields that list; otherwise the error names the file |
| FreshnessCache.Write | lib/ceedling/preprocessinator.rb:201 | after writing, the list file loads back the written list, every other list file loads as before, the written file is newer than every other stamped file, and other stamps are unchanged |
| PipelineSpec.BuildDirectives | lib/ceedling/preprocessinator.rb:31-36 | build-directive extraction returns exactly what the test context extractor collects and leaves the file store unchanged |
| PipelineSpec.ResolveIncludes | lib/ceedling/preprocessinator.rb:180-205 | when the (file, test) list file is newer than the file, the result is that list file loaded and the store is unchanged; otherwise the result is the extractor's list, the list file then loads back that same list, and no other list file changes |
| PipelineSpec.FileCommon | lib/ceedling/preprocessinator.rb:160-178 | the common step has the result and store of include resolution, preceded by one progress message |
| PipelineSpec.TestingContext | lib/ceedling/preprocessinator.rb:38-61 | without the test preprocessor, the result is the extractor's text scan with no list loaded, written or extracted and the store unchanged; with it, a resolved list is passed to ingest_includes and a resolution error propagates |
| PipelineSpec.Preprocess | lib/ceedling/preprocessinator.rb:63-149 | both pipelines leave the store that include resolution leaves, succeed exactly when it succeeds, and then return the preprocessed file path formed from (file, test) |
| PipelineSpec.FileDirectives | lib/ceedling/preprocessinator.rb:151-155 | directive-only preprocessing returns the backend's result on the shallow include list; the one-argument list file then holds that list, and no other list file changes |
| PipelineProperties.CacheHitLoadsOnly | lib/ceedling/preprocessinator.rb:184-191 | on a cache hit, the list file is loaded exactly once, nothing is extracted or written, and the store is unchanged |
| PipelineProperties.CacheMissExtractsOnce | lib/ceedling/preprocessinator.rb:192-204 | on a miss, extraction happens exactly once, exactly one list is written and none is loaded; the write goes to the (file, test) list file and holds the returned list, and that entry is the only list that changes |
| PipelineProperties.ResolveTwiceHits | lib/ceedling/preprocessinator.rb:180-205 | a second resolution of the same (file, test) is a cache hit that returns the first result, changes nothing and extracts nothing |
| PipelineProperties.TouchedSourceRecomputes | lib/ceedling/preprocessinator.rb:184 | after the source file is modified, its list file is no longer newer, so resolution extracts again |
| PipelineProperties.IndependentRequests | lib/ceedling/preprocessinator.rb:181-204 | resolutions with different list files, neither being the other's source, get the same results and leave the same lists in either order |
| PipelineProperties.HookArgsKeys | lib/ceedling/preprocessinator.rb:66-73 | the plugin hash holds its pipeline's file and preprocessed-file keys plus test, flags, include_paths and defines, and no shell_result yet |
| PipelineProperties.ResolutionKinds | lib/ceedling/preprocessinator.rb:180-205 | include resolution emits nothing but progress messages, list loads, extractions and list writes |
| PipelineProperties.TestingContextStrategies | lib/ceedling/preprocessinator.rb:38-61 | exactly one strategy runs: the text scan once when the test preprocessor is off, never when it is on; when on, the trace starts with the resolution's events and, on success, ends with the single ingestion of the resolved list |
| PipelineProperties.CommonStepOnMiss | lib/ceedling/preprocessinator.rb:160-204 | on a miss the common step emits a progress message, then the extraction, then the list write |
| PipelineProperties.CommonStepOnHit | lib/ceedling/preprocessinator.rb:160-191 | on a hit the common step emits three events, and the list load is the last of them |
| PipelineProperties.ResolutionBetweenHooksOnMiss | lib/ceedling/preprocessinator.rb:63-149 | on a miss the pipeline succeeds, and the extraction, the list write, the backend and the post-hook come in that order, all after the pre-hook |
| PipelineProperties.ResolutionBetweenHooksOnHit | lib/ceedling/preprocessinator.rb:63-149 | on a hit that loads a list, the load, the backend and the post-hook come in that order, all after the pre-hook |
| PipelineProperties.NoHookOrBackendBetween | lib/ceedling/preprocessinator.rb:160-205 | the common step fires no hook and calls no backend |
| PipelineProperties.ClosingKinds | lib/ceedling/preprocessinator.rb:98-102 | after a successful resolution there are two closing events: the backend call, then the post-hook |
| PipelineProperties.PreHookFiresFirst | lib/ceedling/preprocessinator.rb:63-149 | in both pipelines the pre-hook fires exactly once, as the very first event |
| PipelineProperties.BackendThenPostHook | lib/ceedling/preprocessinator.rb:63-149 | when resolution succeeds, the backend runs exactly once, second to last, and the post-hook fires exactly once, last |
| PipelineProperties.FailureSkipsBackendAndPostHook | lib/ceedling/preprocessinator.rb:86-102 | when resolution fails, neither the backend nor the post-hook runs |
| PipelineProperties.PostHookSeesPreHookHash | lib/ceedling/preprocessinator.rb:66-102 | the post-hook receives the hash as the pre-hook's plugins left it, with shell_result added holding the backend's result and every other key unchanged |
| PipelineProperties.BackendGetsResolvedIncludes | lib/ceedling/preprocessinator.rb:86-99 | the backend preprocesses the source into the formed target path, with the includes resolution returned and the given compile parameters |
| PipelineProperties.MockPostHookContents | lib/ceedling/preprocessinator.rb:66-102 | with plugins that leave the hash alone, the mock post-hook sees exactly header_file, preprocessed_header_file, test, flags, include_paths, defines and shell_result |
| PipelineProperties.HooksCannotRedirect | lib/ceedling/preprocessinator.rb:63-149 | whatever entries the plugins replace in the hash, the result, the store and every non-hook event stay the same |
| PipelineProperties.PipelinesShareTargetPath | lib/ceedling/preprocessinator.rb:107-108 | the test pipeline returns the same path and leaves the same store as the header pipeline |
| PipelineProperties.FileDirectivesShape | lib/ceedling/preprocessinator.rb:151-155 | directive-only preprocessing emits, in order: the shallow list build, the list write, the list load, and the backend call on that list |
| PipelineProperties.FileDirectivesOrder | lib/ceedling/preprocessinator.rb:151-155 | the shallow list is built before the one-argument list file is loaded, which happens before the single backend call; that call receives the list now stored, and nothing is extracted |
| Preprocessinators.Preprocessinator.IsNewer | lib/ceedling/preprocessinator.rb:184 | the freshness query on the current store is `Newer`, the predicate `Write` and `TouchedSourceRecomputes` are proved about: a list just written is newer than every other file, and a source touched afterwards makes its list stale |
| Preprocessinators.Preprocessinator.LoadList | lib/ceedling/preprocessinator.rb:191 | a list load returns what the store holds and records the load |
| Preprocessinators.Preprocessinator.Log | lib/ceedling/preprocessinator.rb:34 | a progress message is recorded as which message it is, and nothing else changes |
| Preprocessinators.Preprocessinator.StoreList | lib/ceedling/preprocessinator.rb:201 | writing a list updates the store as `Write` describes and records the write |
| Preprocessinators.Preprocessinator.FireHook | lib/ceedling/preprocessinator.rb:76 | a hook is recorded with the hash it received and returns the hash its plugins leave |
| Preprocessinators.Preprocessinator.ExtractTestBuildDirectives | lib/ceedling/preprocessinator.rb:31-36 | returns what `BuildDirectives` specifies and appends its events |
| Preprocessinators.Preprocessinator.ExtractTestingContext | lib/ceedling/preprocessinator.rb:38-61 | result, new store and appended events are those of `TestingContext` |
| Preprocessinators.Preprocessinator.PreprocessMockableHeaderFile | lib/ceedling/preprocessinator.rb:63-105 | returns the formed preprocessed path on success; result, new store and appended events are those of `Preprocess` for the header pipeline |
| Preprocessinators.Preprocessinator.PreprocessTestFile | lib/ceedling/preprocessinator.rb:107-149 | returns the formed preprocessed path on success; result, new store and appended events are those of `Preprocess` for the test pipeline |
| Preprocessinators.Preprocessinator.PreprocessFileDirectives | lib/ceedling/preprocessinator.rb:151-155 | result, new store and appended events are those of `FileDirectives` |
| Preprocessinators.Preprocessinator.InvokeShallowIncludesList | lib/ceedling/preprocessinator.rb:152 | building the shallow list writes it to the one-argument list file and records both steps |
| Preprocessinators.Preprocessinator.PreprocessFileCommon | lib/ceedling/preprocessinator.rb:160-178 | result, new store and appended events are those of `FileCommon` |
| Preprocessinators.Preprocessinator.PreprocessIncludes | lib/ceedling/preprocessinator.rb:180-205 | result, new store and appended events are those of `ResolveIncludes`, and the store stays well formed |

## Left out

- The command-line front end (`bin/cli.rb`) is not part of this model; it only dispatches to the build.
- The dependency-injected constructor and `setup` (lines 10-29) are only wiring; the model's constructor takes the collaborators and the initial store directly.
- The collaborators' internals (path forming, include extraction, the text scan, the backends, plugin dispatch) are function values. Only how the orchestrator calls them and uses their results is modelled.
- Progress message text, `File.basename` and verbosity levels are left out; a message is recorded only as which message it is.
- Exceptions raised by collaborators are not modelled; backends are total functions that return a shell result. A post-hook that sees a failed or raising backend is not modelled, because the code has no rescue around the backend call.
- Falling back to re-extraction when a cached list cannot be loaded is not modelled, because the code has no such fallback: the load's failure reaches the caller.
- FreshnessCache.Newer: `file_wrapper.newer?` is not part of this model. The model assumes it holds exactly when both files have a stamp and the first stamp is strictly later; what it does when the source file is missing is an assumption.
- FreshnessCache.Load: `yaml_wrapper.load` is not part of this model. The model assumes that loading a file holding no list yields an error naming the file, and that this error propagates like an exception.
- PipelineSpec.Preprocess: plugins change only the argument hash, never the file store. The freshness check runs after the pre-hook, and a plugin that writes or touches files there could change the hit-or-miss decision; that is not modelled.
- FreshnessCache.Write: file modification times are a clock that advances on every write, so a freshly written list file is always strictly newer than its source. Coarse timestamp granularity, where `newer?` could be false right after a write, is not modelled.
- Preprocessinators.Preprocessinator.InvokeShallowIncludesList: the shallow list is taken as a function of the file and written to the one-argument list path; how the includes handler computes it is not modelled.
- The plugin hash is a value that each hook returns after its plugins ran, not a shared mutable Ruby hash; plugins that keep a reference and mutate it later are not modelled.
- PipelineProperties.HooksCannotRedirect: in the source the hash values are the very objects passed to the backend and returned (file path, preprocessed path, flags, include paths, defines); a plugin that mutates one of them in place changes the backend call and the returned path. Such in-place mutation is not modelled, so the lemma covers only plugins that replace entries.
- Concurrency (parallel build tasks sharing list files) and the preprocessed files the backends write are not modelled.
