/** The agent's tools: JSON responses, the shared working directory, the
    task list, the code-execution tool and the fileless-mode tools, with the
    module-level state they update held in one object. */
module Tools {
  import opened Wrappers
  import opened Text
  import opened Json
  import opened Paths
  import opened Kernel
  import PackageSpec

  // ---------------------------------------------------------------------
  // Responses
  // ---------------------------------------------------------------------

  /** success_response(result, **extra): success true, the result unless it
      is None (null here), then the extra keys, which win on a clash. */
  function SuccessResponse(result: Json, extra: Object): (r: Object)
    ensures r.Keys == {"success"} + (if result != JNull then {"result"} else {}) + extra.Keys
    ensures r["success"] == (if "success" in extra then extra["success"] else JBool(true))
    ensures "result" !in extra && result != JNull ==> r["result"] == result
    ensures forall k :: k in extra ==> r[k] == extra[k]
  {
    var base := map["success" := JBool(true)];
    (if result != JNull then base["result" := result] else base) + extra
  }

  /** error_response(error, **extra): success false and the message, then
      the extra keys, which win on a clash. */
  function ErrorResponse(error: string, extra: Object): (r: Object)
    ensures r.Keys == {"success", "error"} + extra.Keys
    ensures r["success"] == (if "success" in extra then extra["success"] else JBool(false))
    ensures r["error"] == (if "error" in extra then extra["error"] else JStr(error))
    ensures forall k :: k in extra ==> r[k] == extra[k]
  {
    map["success" := JBool(false), "error" := JStr(error)] + extra
  }

  // ---------------------------------------------------------------------
  // The working directory
  // ---------------------------------------------------------------------

  /** The process-wide working directory all tools resolve paths against. */
  class WorkingDirectory {
    var dir: Option<Path>

    constructor ()
      ensures dir == None
    {
      dir := None;
    }

    /** set(path): the resolved path is stored first and its existence
        checked afterwards, so a failed set still replaces the directory.
        `cwd` is the process's current directory; `existing` the paths that
        exist, files as well as directories, since the check is Path.exists(). */
    method Set(path: string, cwd: Path, existing: set<Path>) returns (r: Result<(), string>)
      modifies this
      ensures dir == Some(Resolve(cwd, path))
      ensures r.Success? <==> Resolve(cwd, path) in existing
      ensures r.Failure? ==> r.error == "Directory does not exist: " + path
    {
      dir := Some(Resolve(cwd, path));
      if dir.value !in existing {
        return Failure("Directory does not exist: " + path);
      }
      return Success(());
    }

    /** get(): the stored directory, or the RuntimeError when none is stored. */
    function Get(): (r: Result<Path, string>)
      reads this
      ensures r.Success? <==> dir.Some?
      ensures r.Success? ==> r.value == dir.value
      ensures r.Failure? ==> r.error == "Working directory not set"
    {
      if dir.None? then Failure("Working directory not set") else Success(dir.value)
    }

    /** resolve_path(file_path): refuse absolute paths (checked before the
        directory is looked up), then paths whose resolution leaves the
        working directory. */
    function ResolvePath(filePath: string): (r: Result<Path, string>)
      reads this
      ensures r.Success? ==> dir.Some? && IsPrefix(dir.value, r.value)
      ensures IsAbsolute(filePath) ==> r == Failure("Absolute paths not allowed")
      ensures dir.None? && !IsAbsolute(filePath) ==> r == Failure("Working directory not set")
      ensures dir.Some? && !IsAbsolute(filePath) ==>
        (r.Success? <==> IsPrefix(dir.value, Walk(dir.value, Segments(filePath))))
      ensures dir.Some? && !IsAbsolute(filePath) && r.Failure? ==>
        r.error == "Path " + filePath + " is outside working directory"
    {
      if IsAbsolute(filePath) then Failure("Absolute paths not allowed")
      else if dir.None? then Failure("Working directory not set")
      else
        match ResolveUnder(dir.value, filePath)
        case Success(p) => Success(p)
        case Failure(_) => Failure("Path " + filePath + " is outside working directory")
    }
  }

  // ---------------------------------------------------------------------
  // The todo list
  // ---------------------------------------------------------------------

  /** t.get("status") == "in_progress". */
  predicate InProgress(t: Object) {
    "status" in t && t["status"] == JStr("in_progress")
  }

  /** The number of items in progress. */
  function CountInProgress(todos: seq<Object>): nat {
    if todos == [] then 0
    else CountInProgress(todos[..|todos| - 1]) + (if InProgress(todos[|todos| - 1]) then 1 else 0)
  }

  const Statuses := [JStr("pending"), JStr("in_progress"), JStr("completed")]
  const Priorities := [JStr("high"), JStr("medium"), JStr("low")]

  /** Why a task list was refused. */
  datatype TodoError =
    | TooManyInProgress
    | MissingField
    | BadStatus(status: Json)
    | BadPriority(priority: Json)

  /** The checks on one item, in the source's order. */
  function ItemProblem(t: Object): Option<TodoError> {
    if !("id" in t && "content" in t && "status" in t && "priority" in t) then Some(MissingField)
    else if t["status"] !in Statuses then Some(BadStatus(t["status"]))
    else if t["priority"] !in Priorities then Some(BadPriority(t["priority"]))
    else None
  }

  /** The problem with the first faulty item, if any. */
  function FirstItemProblem(todos: seq<Object>): (r: Option<TodoError>)
    ensures r.None? <==> forall i :: 0 <= i < |todos| ==> ItemProblem(todos[i]).None?
  {
    if todos == [] then None
    else if ItemProblem(todos[0]).Some? then ItemProblem(todos[0])
    else
      var r := FirstItemProblem(todos[1..]);
      assert forall i :: 1 <= i < |todos| ==> todos[i] == todos[1..][i - 1];
      r
  }

  /** The verdict of todo_write: the in-progress count is checked before
      any item is looked at. */
  function CheckTodos(todos: seq<Object>): (r: Option<TodoError>)
    ensures CountInProgress(todos) > 1 ==> r == Some(TooManyInProgress)
    ensures r.None? <==> CountInProgress(todos) <= 1 && forall i :: 0 <= i < |todos| ==> ItemProblem(todos[i]).None?
  {
    if CountInProgress(todos) > 1 then Some(TooManyInProgress) else FirstItemProblem(todos)
  }

  /** A task list todo_write accepts. */
  predicate WellFormedTodos(todos: seq<Object>) {
    CheckTodos(todos).None?
  }

  /** At most one item is in progress iff no two distinct items are. */
  lemma {:induction false} CountInProgressPairs(todos: seq<Object>)
    ensures CountInProgress(todos) <= 1 <==>
      forall i, j :: 0 <= i < j < |todos| && InProgress(todos[i]) ==> !InProgress(todos[j])
  {
    if todos != [] {
      var init := todos[..|todos| - 1];
      var last := |todos| - 1;
      CountInProgressPairs(init);
      CountInProgressZero(init);
      forall i | 0 <= i < |init| ensures init[i] == todos[i] { }
      if CountInProgress(todos) <= 1 {
        forall i, j | 0 <= i < j < |todos| && InProgress(todos[i]) ensures !InProgress(todos[j]) {
          if j < last {
            assert init[i] == todos[i] && init[j] == todos[j];
          } else {
            assert init[i] == todos[i];
          }
        }
      }
    }
  }

  lemma {:induction false} CountInProgressZero(todos: seq<Object>)
    ensures CountInProgress(todos) == 0 <==> forall i :: 0 <= i < |todos| ==> !InProgress(todos[i])
  {
    if todos != [] {
      var init := todos[..|todos| - 1];
      CountInProgressZero(init);
      forall i | 0 <= i < |init| ensures init[i] == todos[i] { }
    }
  }

  function TodoMessage(e: TodoError): string {
    match e
    case TooManyInProgress => "Only one task can be in_progress at a time"
    case MissingField => "Each todo must have id, content, status, and priority"
    case BadStatus(v) => "Invalid status: " + PyStr(v)
    case BadPriority(v) => "Invalid priority: " + PyStr(v)
  }

  /** A status given as a list is shown as Python prints the list: its
      strings quoted, in brackets, e.g. `Invalid status: ['done', 2]`. */
  lemma ListStatusMessage(s: string, n: nat)
    requires forall i :: 0 <= i < |s| ==> Plain(s[i])
    ensures TodoMessage(BadStatus(JArr([JStr(s), JInt(n)]))) == "Invalid status: [" + "'" + s + "', " + NatText(n) + "]"
  {
    StrOfPair(JStr(s), JInt(n));
    QuotePlain(s);
  }

  /** The reply to an accepted list of `n` items. */
  function TodosUpdated(n: nat): (r: Object)
    ensures "success" in r && "count" in r && r["success"] == JBool(true) && r["count"] == JInt(n)
  {
    SuccessResponse(JStr("Updated " + NatText(n) + " todos"), map["count" := JInt(n)])
  }

  // ---------------------------------------------------------------------
  // Module state
  // ---------------------------------------------------------------------

  /** The module-level state of the tools: the todo list, the last saved
      solution, the base name of the task file and the reported issues. */
  class ToolState {
    var todos: seq<Object>
    var solutionCode: Option<string>
    var taskBasename: Option<string>
    var reportedIssues: seq<Object>

    /** The todo list is one todo_write accepted (or the initial empty one). */
    predicate Valid()
      reads this
    {
      WellFormedTodos(todos)
    }

    constructor ()
      ensures todos == [] && solutionCode == None && taskBasename == None && reportedIssues == []
      ensures Valid()
    {
      todos := [];
      solutionCode := None;
      taskBasename := None;
      reportedIssues := [];
    }

    /** todo_write(todos): count the items in progress, then check each item;
        on success replace the list wholesale, on failure keep it. */
    method TodoWrite(newTodos: seq<Object>) returns (response: Object)
      modifies this
      ensures CheckTodos(newTodos).None? ==> todos == newTodos && response == TodosUpdated(|newTodos|)
      ensures CheckTodos(newTodos).Some? ==>
        todos == old(todos) && response == ErrorResponse(TodoMessage(CheckTodos(newTodos).value), map[])
      ensures old(Valid()) ==> Valid()
      ensures solutionCode == old(solutionCode) && taskBasename == old(taskBasename)
      ensures reportedIssues == old(reportedIssues)
    {
      var inProgress := 0;
      for i := 0 to |newTodos|
        invariant inProgress == CountInProgress(newTodos[..i])
      {
        assert newTodos[..i + 1][..i] == newTodos[..i];
        if InProgress(newTodos[i]) {
          inProgress := inProgress + 1;
        }
      }
      assert newTodos[..|newTodos|] == newTodos;
      if inProgress > 1 {
        return ErrorResponse(TodoMessage(TooManyInProgress), map[]);
      }
      for i := 0 to |newTodos|
        invariant FirstItemProblem(newTodos[i..]) == FirstItemProblem(newTodos)
      {
        var problem := ItemProblem(newTodos[i]);
        if problem.Some? {
          assert newTodos[i..][0] == newTodos[i];
          return ErrorResponse(TodoMessage(problem.value), map[]);
        }
        assert newTodos[i..][1..] == newTodos[i + 1..];
      }
      todos := newTodos;
      response := TodosUpdated(|newTodos|);
    }

    /** set_task_basename(basename). */
    method SetTaskBasename(basename: string)
      modifies this
      ensures taskBasename == Some(basename)
      ensures todos == old(todos) && solutionCode == old(solutionCode) && reportedIssues == old(reportedIssues)
    {
      taskBasename := Some(basename);
    }

    /** save_code(code): remember the code first, then write it under the
        working directory. `writeError` is the error writing the file raises,
        if any. */
    method SaveCode(code: string, wd: WorkingDirectory, writeError: Option<string>) returns (response: Object)
      modifies this
      ensures solutionCode == Some(code)
      ensures wd.dir.None? ==> response == ErrorResponse("Error saving code: Working directory not set", map[])
      ensures wd.dir.Some? && writeError.Some? ==> response == ErrorResponse("Error saving code: " + writeError.value, map[])
      ensures wd.dir.Some? && writeError.None? ==>
        response == SuccessResponse(JStr("Code saved to " + CodeFileName(taskBasename)),
                                    map["file_path" := JStr(CodeFileName(taskBasename))])
      ensures todos == old(todos) && taskBasename == old(taskBasename) && reportedIssues == old(reportedIssues)
    {
      solutionCode := Some(code);
      var filename := CodeFileName(taskBasename);
      var dir := wd.Get();
      if dir.Failure? {
        return ErrorResponse("Error saving code: Working directory not set", map[]);
      }
      if writeError.Some? {
        return ErrorResponse("Error saving code: " + writeError.value, map[]);
      }
      return SuccessResponse(JStr("Code saved to " + filename), map["file_path" := JStr(filename)]);
    }

    /** report_issue(text): append one feedback record, keeping earlier ones. */
    method ReportIssue(text: string) returns (response: Object)
      modifies this
      ensures reportedIssues == old(reportedIssues) + [Feedback(text)]
      ensures response == SuccessResponse(JStr("Issue reported and will be included in the log"), map["reported" := JBool(true)])
      ensures todos == old(todos) && solutionCode == old(solutionCode) && taskBasename == old(taskBasename)
    {
      reportedIssues := reportedIssues + [Feedback(text)];
      response := SuccessResponse(JStr("Issue reported and will be included in the log"), map["reported" := JBool(true)]);
    }

    /** get_reported_issues(). */
    function GetReportedIssues(): seq<Object>
      reads this
    {
      reportedIssues
    }
  }

  /** The file save_code writes: "<basename>_code.py", or "code.py" when no
      (or an empty) base name is set. */
  function CodeFileName(basename: Option<string>): (f: string)
    ensures Given(basename) ==> StartsWith(f, basename.value) && EndsWith(f, "_code.py")
    ensures !Given(basename) ==> f == "code.py"
  {
    if Given(basename) then basename.value + "_code.py" else "code.py"
  }

  /** The record report_issue keeps. */
  function Feedback(text: string): (r: Object)
    ensures r.Keys == {"type", "content"} && r["type"] == JStr("agent_feedback") && r["content"] == JStr(text)
  {
    map["type" := JStr("agent_feedback"), "content" := JStr(text)]
  }

  /** Reports accumulate: issues reported one after another are kept in order. */
  method ReportTwice(state: ToolState, first: string, second: string)
    modifies state
    ensures state.GetReportedIssues() == old(state.GetReportedIssues()) + [Feedback(first), Feedback(second)]
  {
    var _ := state.ReportIssue(first);
    var _ := state.ReportIssue(second);
  }

  // ---------------------------------------------------------------------
  // The package list handed to the code-execution tool
  // ---------------------------------------------------------------------

  /** The value the agent stores in CODER_WITH_PACKAGES: the packages joined
      with commas, or nothing when no list was given. */
  function PackagesEnv(withPackages: Option<seq<string>>): Option<string> {
    if withPackages.None? then None else Some(Join(withPackages.value, ","))
  }

  /** python_exec's reading of CODER_WITH_PACKAGES: absent gives None, the
      empty string gives [], anything else is split on commas. */
  function PackagesFromEnv(env: Option<string>): (r: Option<seq<string>>)
    ensures r.None? <==> env.None?
    ensures env == Some("") ==> r == Some([])
    ensures env.Some? && env.value != "" ==> r.Some? && Join(r.value, ",") == env.value
  {
    match env
    case None => None
    case Some(s) =>
      if s == "" then Some([])
      else
        JoinSplit(s, ',');
        Some(Split(s, ','))
  }

  /** The list survives the trip through the environment iff it is empty,
      or no package contains a comma and the list is not the single empty
      string. */
  lemma PackagesRoundTrip(pkgs: seq<string>)
    ensures PackagesFromEnv(PackagesEnv(Some(pkgs))) == Some(pkgs) <==>
      pkgs == [] || (pkgs != [""] && forall i :: 0 <= i < |pkgs| ==> ',' !in pkgs[i])
  {
    var s := Join(pkgs, ",");
    if pkgs == [] || pkgs == [""] {
      return;
    }
    assert s != "" by {
      if |pkgs| >= 2 {
        assert s == pkgs[0] + "," + Join(pkgs[1..], ",");
      }
    }
    if forall i :: 0 <= i < |pkgs| ==> ',' !in pkgs[i] {
      SplitJoin(pkgs, ',');
    } else {
      var j :| 0 <= j < |pkgs| && ',' in pkgs[j];
      SplitJoinGrows(pkgs, ',', j);
    }
  }

  /** A package with comma-separated extras passes validation, yet does not
      survive the trip: it reaches the kernel as two packages. */
  lemma CommaExtrasNotRecovered(name: string, a: string, b: string)
    requires PackageSpec.IsName(name) && PackageSpec.AllIn(a, PackageSpec.ExtraChar) && PackageSpec.AllIn(b, PackageSpec.ExtraChar)
    ensures PackageSpec.IsValidSpec(name + "[" + a + "," + b + "]")
    ensures PackagesFromEnv(PackagesEnv(Some([name + "[" + a + "," + b + "]"]))) != Some([name + "[" + a + "," + b + "]"])
  {
    var spec := name + "[" + a + "," + b + "]";
    PackageSpec.ExtrasWithCommaAccepted(name, a, b);
    assert spec[|name| + 1 + |a|] == ',';
    PackagesRoundTrip([spec]);
  }

  // ---------------------------------------------------------------------
  // Code execution
  // ---------------------------------------------------------------------

  const UvInstallHint := "UV is not installed. To use dynamic package mode, install UV with:\n" +
    "curl -LsSf https://astral.sh/uv/install.sh | sh"

  /** How python_exec reports a RuntimeError with message `msg`. */
  function RuntimeErrorResponse(msg: string): Object {
    if Occurs(UvRequired, msg) then ErrorResponse(UvInstallHint, map[])
    else if Occurs(StartFailedPrefix, msg) then ErrorResponse("Failed to start Python kernel: " + msg, map[])
    else ErrorResponse("Kernel error: " + msg, map[])
  }

  /** A missing uv is reported with the installation hint. */
  lemma UvMissingReported(detail: string)
    ensures RuntimeErrorResponse(StartupMessage(StartupError(UvMissing), detail)) == ErrorResponse(UvInstallHint, map[])
  {
    OccursIn(StartFailedPrefix + ": ", UvRequired, UvMissingText[|UvRequired|..]);
    assert UvRequired + UvMissingText[|UvRequired|..] == UvMissingText;
    assert StartFailedPrefix + ": " + UvRequired + UvMissingText[|UvRequired|..] == StartFailedPrefix + ": " + UvMissingText;
  }

  /** Any other startup failure is reported with the kernel's own message,
      unless that message happens to mention the uv requirement. */
  lemma StartFailureReported(cause: StartCause, detail: string)
    requires !cause.UvMissing? && !Occurs(UvRequired, StartupMessage(StartupError(cause), detail))
    ensures RuntimeErrorResponse(StartupMessage(StartupError(cause), detail)) ==
      ErrorResponse("Failed to start Python kernel: " + StartupMessage(StartupError(cause), detail), map[])
  {
    OccursIn([], StartFailedPrefix, ": " + detail);
    assert [] + StartFailedPrefix + (": " + detail) == StartupMessage(StartupError(cause), detail);
  }

  /** A message that mentions neither "UV is required" nor "Failed to start
      kernel" is reported as a kernel error; a missing working directory is one. */
  lemma OtherRuntimeErrorReported(msg: string)
    requires !Occurs(UvRequired, msg) && !Occurs(StartFailedPrefix, msg)
    ensures RuntimeErrorResponse(msg) == ErrorResponse("Kernel error: " + msg, map[])
  {
  }

  /** Every runtime error becomes an error envelope whose text is one of
      three, chosen by the two phrases in order: the uv one first, then the
      failed start, else the kernel error. */
  lemma RuntimeErrorCases(msg: string)
    ensures RuntimeErrorResponse(msg).Keys == {"success", "error"} && RuntimeErrorResponse(msg)["success"] == JBool(false)
    ensures Occurs(UvRequired, msg) ==> RuntimeErrorResponse(msg)["error"] == JStr(UvInstallHint)
    ensures !Occurs(UvRequired, msg) && Occurs(StartFailedPrefix, msg) ==>
      RuntimeErrorResponse(msg)["error"] == JStr("Failed to start Python kernel: " + msg)
    ensures !Occurs(UvRequired, msg) && !Occurs(StartFailedPrefix, msg) ==>
      RuntimeErrorResponse(msg)["error"] == JStr("Kernel error: " + msg)
  {
  }

  /** python_exec(code): read the package list from the environment, get the
      shared session for the working directory, run the request (its id is
      `msgId`, its replies `iopub`) and format the output; startup errors and
      a missing working directory become error responses. `detail` is the
      kernel library's message for a failed launch. */
  method PythonExec(msgId: MsgId, iopub: seq<Msg>, env: Option<string>, wd: WorkingDirectory,
                    registry: KernelRegistry, launch: LaunchEnv, detail: string, teardown: (bool, bool))
    returns (response: Object)
    modifies registry, registry.kernel
    ensures wd.dir.None? ==>
      response == RuntimeErrorResponse("Working directory not set") && unchanged(registry) &&
      (old(registry.kernel) != null ==> unchanged(old(registry.kernel)))
    ensures wd.dir.Some? && old(Reusable(registry.kernel, Some(Render(wd.dir.value)), PackagesFromEnv(env).GetOr([]))) ==>
      response == FormatOutput(Drain(iopub, msgId, Initial)) &&
      registry.kernel == old(registry.kernel) && registry.started == old(registry.started) &&
      unchanged(old(registry.kernel))
    ensures wd.dir.Some? && !old(Reusable(registry.kernel, Some(Render(wd.dir.value)), PackagesFromEnv(env).GetOr([]))) ==>
      (old(registry.kernel) != null ==> old(registry.kernel).manager.None? && !old(registry.kernel).clientOpen)
    ensures wd.dir.Some? && !old(Reusable(registry.kernel, Some(Render(wd.dir.value)), PackagesFromEnv(env).GetOr([]))) ==>
      match LaunchFailure(PackagesFromEnv(env), launch)
      case None =>
        response == FormatOutput(Drain(iopub, msgId, Initial)) &&
        registry.kernel != null && fresh(registry.kernel) && registry.started == old(registry.started) + 1 &&
        Reusable(registry.kernel, Some(Render(wd.dir.value)), PackagesFromEnv(env).GetOr([]))
      case Some(cause) =>
        response == RuntimeErrorResponse(StartupMessage(StartupError(cause), detail)) &&
        registry.kernel == null && registry.started == old(registry.started)
  {
    var withPackages := PackagesFromEnv(env);
    var dir := wd.Get();
    if dir.Failure? {
      return RuntimeErrorResponse(dir.error);
    }
    var k := registry.GetKernel(Some(Render(dir.value)), withPackages, launch, teardown);
    if k.Failure? {
      return RuntimeErrorResponse(StartupMessage(k.error, detail));
    }
    var output, _ := k.value.Execute(msgId, iopub);
    response := FormatOutput(output);
  }
}
