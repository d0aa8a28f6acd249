/** A per-session execution context: a checked working directory and
    package list, and an interpreter session created on first use and torn
    down when the context ends. */
module Context {
  import opened Wrappers
  import opened Text
  import opened Paths
  import opened Kernel
  import opened PackageSpec

  /** Why a context could not be created. */
  datatype ContextError =
    | DirectoryNotFound(path: Path)
    | NotADirectory(path: Path)
    | UvUnavailable
    | InvalidPackages(invalid: seq<string>)

  /** The message of the exception raised for `e`. */
  function ContextMessage(e: ContextError): string {
    match e
    case DirectoryNotFound(p) => "Working directory not found: " + Render(p)
    case NotADirectory(p) => "Working directory is not a directory: " + Render(p)
    case UvUnavailable =>
      "UV is required for dynamic package mode but not found. " +
      "Install it with: curl -LsSf https://astral.sh/uv/install.sh | sh"
    case InvalidPackages(invalid) =>
      "Invalid package specifications: " + Join(invalid, ", ") + ". " +
      "Expected format: 'package' or 'package>=version'"
  }

  /** The file system as the context sees it: the paths that exist and,
      among them, the directories. */
  datatype FileSystem = FileSystem(existing: set<Path>, directories: set<Path>)

  class ExecutionContext {
    const workingDirectory: Path
    const packages: seq<string>
    var kernel: PythonKernel?

    constructor Init(workingDirectory: Path, packages: seq<string>)
      ensures this.workingDirectory == workingDirectory && this.packages == packages && kernel == null
    {
      this.workingDirectory := workingDirectory;
      this.packages := packages;
      kernel := null;
    }

    /** The package list handed to the session: None when it is empty. */
    function KernelPackages(): (r: Option<seq<string>>)
      ensures r.None? <==> packages == []
      ensures r.Some? ==> r.value == packages
    {
      if packages != [] then Some(packages) else None
    }

    /** get_kernel(): start the session on the first call and return the same
        one afterwards; a failed start leaves no session behind (a later
        call tries again) and is reported as "Failed to start kernel: ...".
        `detail` is the kernel library's message for a failed launch. */
    method GetKernel(env: LaunchEnv, detail: string) returns (r: Result<PythonKernel, string>)
      modifies this
      ensures old(kernel) != null ==> r == Success(old(kernel)) && kernel == old(kernel)
      ensures old(kernel) == null ==> (r.Failure? <==> LaunchFailure(KernelPackages(), env).Some?)
      ensures old(kernel) == null && r.Failure? ==>
        kernel == null &&
        r.error == "Failed to start kernel: " + StartupMessage(StartupError(LaunchFailure(KernelPackages(), env).value), detail)
      ensures old(kernel) == null && r.Success? ==>
        fresh(r.value) && kernel == r.value && kernel.cwd == Some(Render(workingDirectory)) &&
        kernel.withPackages == packages && kernel.processAlive
    {
      if kernel == null {
        var started := StartKernel(Some(Render(workingDirectory)), KernelPackages(), env);
        if started.Failure? {
          return Failure("Failed to start kernel: " + StartupMessage(started.error, detail));
        }
        kernel := started.value;
      }
      return Success(kernel);
    }

    /** shutdown(): stop the session if there is one; the slot is emptied
        whatever happens, so a second call does nothing. */
    method Shutdown(teardown: (bool, bool))
      modifies this, kernel
      ensures kernel == null
      ensures old(kernel) != null ==> old(kernel).manager.None? && !old(kernel).clientOpen
      ensures old(kernel) == null ==> unchanged(this)
    {
      if kernel != null {
        kernel.Shutdown(teardown.0, teardown.1);
        kernel := null;
      }
    }

    /** __exit__: always shut down, and never suppress the exception. */
    method Exit(teardown: (bool, bool)) returns (suppress: bool)
      modifies this, kernel
      ensures !suppress && kernel == null
    {
      Shutdown(teardown);
      return false;
    }

    /** resolve_path(file_path): refuse absolute paths and paths whose
        resolution leaves the working directory. */
    function ResolvePath(filePath: string): (r: Result<Path, string>)
      ensures r.Success? ==> IsPrefix(workingDirectory, r.value)
      ensures IsAbsolute(filePath) ==> r == Failure("Absolute paths not allowed: " + filePath)
      ensures !IsAbsolute(filePath) ==>
        (r.Success? <==> IsPrefix(workingDirectory, Walk(workingDirectory, Segments(filePath))))
      ensures !IsAbsolute(filePath) && r.Failure? ==>
        r.error == "Path '" + filePath + "' escapes working directory. This is a security violation."
    {
      match ResolveUnder(workingDirectory, filePath)
      case Success(p) => Success(p)
      case Failure(AbsolutePath) => Failure("Absolute paths not allowed: " + filePath)
      case Failure(Escapes) => Failure("Path '" + filePath + "' escapes working directory. This is a security violation.")
    }
  }

  /** ExecutionContext(working_directory, packages, validate_packages): resolve
      the directory; then, in order, it must exist, be a directory, have uv
      available when packages are given, and (when validation is on) every
      package specifier must pass the pattern. `cwd` is the process's current
      directory. */
  method NewContext(workingDirectory: string, cwd: Path, packages: Option<seq<string>>, validate: bool,
                    fs: FileSystem, uvOnPath: bool)
    returns (r: Result<ExecutionContext, ContextError>)
    ensures var wd, pkgs := Resolve(cwd, workingDirectory), packages.GetOr([]);
      if wd !in fs.existing then r == Failure(DirectoryNotFound(wd))
      else if wd !in fs.directories then r == Failure(NotADirectory(wd))
      else if pkgs != [] && !uvOnPath then r == Failure(UvUnavailable)
      else if validate && InvalidSpecs(pkgs) != [] then r == Failure(InvalidPackages(InvalidSpecs(pkgs)))
      else r.Success? && fresh(r.value) && r.value.workingDirectory == wd && r.value.packages == pkgs &&
           r.value.kernel == null
  {
    var wd := Resolve(cwd, workingDirectory);
    var pkgs := packages.GetOr([]);
    if wd !in fs.existing {
      return Failure(DirectoryNotFound(wd));
    }
    if wd !in fs.directories {
      return Failure(NotADirectory(wd));
    }
    if pkgs != [] && !uvOnPath {
      return Failure(UvUnavailable);
    }
    if validate && pkgs != [] {
      var invalid := CollectInvalid(pkgs);
      if invalid != [] {
        return Failure(InvalidPackages(invalid));
      }
    }
    var context := new ExecutionContext.Init(wd, pkgs);
    return Success(context);
  }

  /** A session's life in one context: created lazily once, shared by later
      requests, retried after a failed start, and gone after the context
      exits. */
  method ContextScenario(context: ExecutionContext, good: LaunchEnv, bad: LaunchEnv)
    requires context.kernel == null
    requires LaunchFailure(context.KernelPackages(), good).None? && LaunchFailure(context.KernelPackages(), bad).Some?
    modifies context
    ensures context.kernel == null
  {
    var failed := context.GetKernel(bad, "no such kernel");
    assert failed.Failure? && context.kernel == null;
    var first := context.GetKernel(good, "");
    assert first.Success? && context.kernel == first.value;
    var second := context.GetKernel(bad, "no such kernel");
    assert second == first;
    var suppress := context.Exit((true, true));
    assert !suppress && context.kernel == null;
    context.Shutdown((false, false));
    assert context.kernel == null;
  }
}
