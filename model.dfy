/** Values that the preprocessing orchestrator handles: file paths, compile
    parameters, the plugin argument hash, the backend's reply, the collaborators
    it calls and the events it leaves behind. */
module Model {

  type Path = string
  type Test = string

  /** An entry reported by the test context extractor's build-directive scan. */
  type Directive = string

  /** The compile parameters every per-test entry point receives. */
  datatype CompileParams = CompileParams(flags: seq<string>, includePaths: seq<Path>, defines: seq<string>)

  /** What the preprocessing backend hands back: exit status and captured output. */
  datatype ShellResult = ShellResult(exitStatus: int, output: string)

  /** The four plugin hooks the pipeline fires. */
  datatype Hook = PreMockPreprocess | PostMockPreprocess | PreTestPreprocess | PostTestPreprocess

  /** The symbol keys of the plugin argument hash. */
  datatype Key =
    | HeaderFile | PreprocessedHeaderFile
    | TestFile | PreprocessedTestFile
    | TestName | Flags | IncludePaths | Defines
    | ShellResultKey

  datatype Value = Text(text: string) | Texts(texts: seq<string>) | Shell(result: ShellResult)

  /** The plugin argument hash, passed through a hook and then extended. */
  type HookContext = map<Key, Value>

  /** The two preprocessing backends of the file handler. */
  datatype Backend = HeaderBackend | TestFileBackend

  /** Progress messages the orchestrator logs; their text is not modelled. */
  datatype Note = Parsing | ParsingIncludes | ProcessingIncludes | Preprocessing | LoadingIncludesList

  /** One observable step of the orchestrator, in the order it happens. */
  datatype Event =
    | Logged(note: Note)
    | BuildDirectivesCollected(file: Path)
    | IncludesCollected(file: Path)
    | IncludesIngested(file: Path, includes: seq<Path>)
    | HookFired(hook: Hook, context: HookContext)
    | ListLoaded(listFile: Path)
    | IncludesExtracted(file: Path, test: Test, params: CompileParams)
    | ListWritten(listFile: Path, includes: seq<Path>)
    | ShallowListInvoked(file: Path)
    | BackendCalled(backend: Backend, source: Path, target: Path, includes: seq<Path>,
                    params: CompileParams, result: ShellResult)
    | DirectivesBackendCalled(file: Path, includes: seq<Path>, result: ShellResult)

  /** The collaborators the orchestrator is wired to, as the values they compute.
      `hook` is the net effect of every plugin registered for a hook on the hash. */
  datatype Collaborators = Collaborators(
    preprocessedPath: (Path, Test) -> Path,
    includesListPath: (Path, Test) -> Path,
    shallowListPath: Path -> Path,
    collectBuildDirectives: Path -> seq<Directive>,
    collectIncludes: Path -> seq<Path>,
    ingestIncludes: (Path, seq<Path>) -> seq<Path>,
    extractIncludes: (Path, Test, CompileParams) -> seq<Path>,
    shallowIncludes: Path -> seq<Path>,
    hook: (Hook, HookContext) -> HookContext,
    preprocessHeaderFile: (Path, Path, seq<Path>, CompileParams) -> ShellResult,
    preprocessTestFile: (Path, Path, seq<Path>, CompileParams) -> ShellResult,
    preprocessFileDirectives: (Path, seq<Path>) -> ShellResult
  )

  datatype Error = Unloadable(listFile: Path)

  datatype Result<T> = Ok(value: T) | Err(error: Error)

}
