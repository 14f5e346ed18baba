/** What the scoring script observes: the learner's project tree, read through
    `read_file` and `file_exists`, and what the container engine's command
    line printed. Evaluating a check yields an `Outcome`. */
module Project {
  import opened Text

  /** What stands at a path of the project tree. */
  datatype Entry =
    | TextFile(text: string)           // a readable UTF-8 file
    | LockedFile                       // a file whose opening raises PermissionError
    | UndecodableFile(error: string)   // a file that is not UTF-8: reading raises UnicodeDecodeError
    | Folder(error: string)            // a directory: not a file, and opening it raises IsADirectoryError

  /** The project tree, by path relative to the project root. */
  type FileSystem = map<string, Entry>

  const ComposePath: string := "docker-compose.yml"
  const DockerfilePath: string := "app/Dockerfile"
  const DockerignorePath: string := "app/.dockerignore"
  const PackagePath: string := "app/package.json"
  const IndexPath: string := "app/src/static/index.html"

  /** What a check evaluator produces: the `(passed, message)` pair it
      returns, or the description of the exception it raises. */
  datatype Outcome =
    | Pass(message: string)
    | Fail(message: string)
    | Fault(error: string)

  /** What `read_file` does: return text, or let an exception through. */
  datatype ReadResult = Read(text: string) | Raised(error: string) {
    predicate IsFailure() {
      Raised?
    }

    function PropagateFailure(): Outcome
      requires Raised?
    {
      Fault(error)
    }

    function Extract(): string
      requires Read?
    {
      text
    }
  }

  /** `read_file`: the text of the file; the empty text when the file is
      missing or unreadable for lack of permission; any other failure to
      open or decode the file escapes as an exception. */
  function ReadFile(fs: FileSystem, path: string): (r: ReadResult)
    ensures path !in fs ==> r == Read("")
    ensures r.Raised? <==> path in fs && (fs[path].UndecodableFile? || fs[path].Folder?)
    ensures path in fs && fs[path].TextFile? ==> r == Read(fs[path].text)
    ensures path in fs && fs[path].LockedFile? ==> r == Read("")
  {
    if path !in fs then Read("")
    else match fs[path]
      case TextFile(t) => Read(t)
      case LockedFile => Read("")
      case UndecodableFile(e) => Raised(e)
      case Folder(e) => Raised(e)
  }

  /** `file_exists`: a regular file stands at the path, readable or not. */
  predicate FileExists(fs: FileSystem, path: string) {
    path in fs && !fs[path].Folder?
  }

  /** A missing file and an empty one read the same; only `file_exists`
      tells them apart. */
  lemma MissingReadsAsEmpty(fs: FileSystem, path: string)
    ensures ReadFile(fs - {path}, path) == ReadFile(fs[path := TextFile("")], path) == Read("")
    ensures !FileExists(fs - {path}, path) && FileExists(fs[path := TextFile("")], path)
  {
  }

  /** What running one `docker` command produced: its exit status and
      captured output, or the exception `subprocess.run` raised because the
      executable is missing, the time limit passed, or anything else. */
  datatype Process =
    | Exited(code: int, stdout: string, stderr: string)
    | NotFound
    | TimedOut
    | Crashed(error: string)

  /** The four engine commands the checks run: `docker build` of the app
      directory, `docker rmi` of the test image, `docker images` and
      `docker volume ls`. */
  datatype Engine = Engine(build: Process, cleanup: Process, images: Process, volumes: Process)

  /** Everything one scoring run observes. */
  datatype Env = Env(fs: FileSystem, engine: Engine)
}
