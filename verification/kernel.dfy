/** The persistent interpreter session: the launch command, the drain loop
    that collects one execution's output from the iopub broadcast channel,
    the single-slot session registry and the output formatter. */
module Kernel {
  import opened Wrappers
  import opened Text
  import opened Json

  // ---------------------------------------------------------------------
  // Messages on the iopub channel
  // ---------------------------------------------------------------------

  type MsgId = string

  /** One poll of the iopub channel. `parent` is parent_header.msg_id (None
      when the header carries no id); `Timeout` stands for a poll that raised
      queue.Empty because nothing arrived within the poll timeout. */
  datatype Msg =
    | Stream(parent: Option<MsgId>, name: string, text: string)
    | ExecuteResult(parent: Option<MsgId>, plain: Option<string>)
    | Error(parent: Option<MsgId>, ename: string, evalue: string, traceback: seq<string>)
    | Status(parent: Option<MsgId>, state: string)
    | Other(parent: Option<MsgId>, msgType: string)
    | Timeout

  /** The message answers the request whose id is `id`. */
  predicate For(m: Msg, id: MsgId) {
    !m.Timeout? && m.parent == Some(id)
  }

  /** The message ends the receive loop: a poll timeout, or the matching
      status message reporting "idle". */
  predicate Ends(m: Msg, id: MsgId) {
    m.Timeout? || (m.Status? && m.parent == Some(id) && m.state == "idle")
  }

  /** What one execution captured; result and error are None until set. */
  datatype ExecOutput = ExecOutput(stdout: string, stderr: string, result: Option<string>, error: Option<string>)

  const Initial := ExecOutput("", "", None, None)

  /** The error text: "ename: evalue", then the traceback lines when there are any. */
  function ErrorText(ename: string, evalue: string, traceback: seq<string>): string {
    ename + ": " + evalue + (if traceback != [] then "\n" + Join(traceback, "\n") else "")
  }

  /** The effect of one matching, non-terminating message on the output. */
  function Absorb(out: ExecOutput, m: Msg): ExecOutput {
    match m
    case Stream(_, name, text) =>
      if name == "stdout" then out.(stdout := out.stdout + text)
      else if name == "stderr" then out.(stderr := out.stderr + text)
      else out
    case ExecuteResult(_, plain) => out.(result := Some(plain.GetOr("")))
    case Error(_, ename, evalue, tb) => out.(error := Some(ErrorText(ename, evalue, tb)))
    case _ => out
  }

  /** The receive loop as a function: from `out`, absorb every message for
      `id` up to the first terminator. */
  function Drain(ms: seq<Msg>, id: MsgId, out: ExecOutput): ExecOutput {
    if ms == [] || Ends(ms[0], id) then out
    else Drain(ms[1..], id, if For(ms[0], id) then Absorb(out, ms[0]) else out)
  }

  /** Number of polls the loop performs: up to and including the terminator;
      running out of queued messages counts as a timeout. */
  function Consumed(ms: seq<Msg>, id: MsgId): (n: nat)
    ensures n <= |ms|
  {
    if ms == [] then 0
    else if Ends(ms[0], id) then 1
    else 1 + Consumed(ms[1..], id)
  }

  // --- an independent description of what Drain collects ----------------

  /** The messages polled before the loop stops. */
  function Window(ms: seq<Msg>, id: MsgId): seq<Msg> {
    if ms == [] || Ends(ms[0], id) then [] else [ms[0]] + Window(ms[1..], id)
  }

  /** The messages that answer `id`, in order. */
  function Matching(ms: seq<Msg>, id: MsgId): seq<Msg> {
    if ms == [] then []
    else (if For(ms[0], id) then [ms[0]] else []) + Matching(ms[1..], id)
  }

  /** The text a message adds to the stream `name`. */
  function Piece(m: Msg, name: string): string {
    if m.Stream? && m.name == name then m.text else ""
  }

  /** The result a message sets, if it is an execute_result. */
  function ResultOf(m: Msg): Option<string> {
    if m.ExecuteResult? then Some(m.plain.GetOr("")) else None
  }

  /** The error a message sets, if it is an error message. */
  function ErrorOf(m: Msg): Option<string> {
    if m.Error? then Some(ErrorText(m.ename, m.evalue, m.traceback)) else None
  }

  /** Concatenation of the texts of the stream messages named `name`. */
  function StreamText(ms: seq<Msg>, name: string): string {
    if ms == [] then "" else Piece(ms[0], name) + StreamText(ms[1..], name)
  }

  /** The text/plain of the last execute_result, if any. */
  function LastResult(ms: seq<Msg>): Option<string> {
    if ms == [] then None
    else
      var later := LastResult(ms[1..]);
      if later.Some? then later else ResultOf(ms[0])
  }

  /** The formatted text of the last error message, if any. */
  function LastError(ms: seq<Msg>): Option<string> {
    if ms == [] then None
    else
      var later := LastError(ms[1..]);
      if later.Some? then later else ErrorOf(ms[0])
  }

  /** Everything a list of matching messages contributes. */
  function Summary(ms: seq<Msg>): ExecOutput {
    ExecOutput(StreamText(ms, "stdout"), StreamText(ms, "stderr"), LastResult(ms), LastError(ms))
  }

  /** Output `out` followed by the contribution `s`: texts concatenate, a
      later result or error replaces an earlier one. */
  function Then(out: ExecOutput, s: ExecOutput): ExecOutput {
    ExecOutput(out.stdout + s.stdout, out.stderr + s.stderr,
               if s.result.Some? then s.result else out.result,
               if s.error.Some? then s.error else out.error)
  }

  lemma SummaryOne(m: Msg)
    ensures Summary([m]) == ExecOutput(Piece(m, "stdout"), Piece(m, "stderr"), ResultOf(m), ErrorOf(m))
  {
    var ms := [m];
    assert ms[0] == m && ms[1..] == [];
    assert StreamText(ms, "stdout") == Piece(m, "stdout") + "";
    assert StreamText(ms, "stderr") == Piece(m, "stderr") + "";
    assert LastResult(ms) == ResultOf(m);
    assert LastError(ms) == ErrorOf(m);
  }

  lemma SummaryCons(m: Msg, rest: seq<Msg>)
    ensures Summary([m] + rest) == Then(Summary([m]), Summary(rest))
  {
    var ms := [m] + rest;
    assert ms != [] && ms[0] == m && ms[1..] == rest;
    assert [m] != [] && [m][0] == m && [m][1..] == [];
    SummaryOne(m);
  }

  lemma AbsorbIsThen(out: ExecOutput, m: Msg)
    requires !m.Timeout?
    ensures Absorb(out, m) == Then(out, Summary([m]))
  {
    assert [m] != [] && [m][0] == m && [m][1..] == [];
    SummaryOne(m);
    assert Piece(m, "stdout") + "" == Piece(m, "stdout");
    assert Piece(m, "stderr") + "" == Piece(m, "stderr");
  }

  lemma ThenAssoc(a: ExecOutput, m: Msg, rest: seq<Msg>)
    ensures Then(Then(a, Summary([m])), Summary(rest)) == Then(a, Summary([m] + rest))
  {
    SummaryCons(m, rest);
    var one, tail := Summary([m]), Summary(rest);
    assert (a.stdout + one.stdout) + tail.stdout == a.stdout + (one.stdout + tail.stdout);
    assert (a.stderr + one.stderr) + tail.stderr == a.stderr + (one.stderr + tail.stderr);
  }

  lemma {:induction false} ThenInitial(s: ExecOutput)
    ensures Then(Initial, s) == s
  {
  }

  /** The drain loop collects exactly the stream texts (in order), the last
      result and the last error of the messages that answer the request and
      arrive before the terminator. */
  lemma {:induction false} DrainIsSummary(ms: seq<Msg>, id: MsgId, out: ExecOutput)
    ensures Drain(ms, id, out) == Then(out, Summary(Matching(Window(ms, id), id)))
  {
    if ms == [] || Ends(ms[0], id) {
      assert Window(ms, id) == [];
      assert Matching([], id) == [];
    } else {
      var m := ms[0];
      var next := if For(m, id) then Absorb(out, m) else out;
      DrainIsSummary(ms[1..], id, next);
      var w := Window(ms[1..], id);
      assert Window(ms, id) == [m] + w;
      var mw := [m] + w;
      assert mw[0] == m && mw[1..] == w;
      if For(m, id) {
        assert Matching(mw, id) == [m] + Matching(w, id);
        AbsorbIsThen(out, m);
        ThenAssoc(out, m, Matching(w, id));
      } else {
        assert Matching(mw, id) == Matching(w, id);
      }
    }
  }

  /** The result of a request reads only messages that answer it: dropping a
      message for another request (but not a poll timeout) changes nothing. */
  lemma {:induction false} ForeignIgnored(pre: seq<Msg>, m: Msg, post: seq<Msg>, id: MsgId, out: ExecOutput)
    requires !For(m, id) && !m.Timeout?
    ensures Drain(pre + [m] + post, id, out) == Drain(pre + post, id, out)
  {
    var a := pre + [m] + post;
    var b := pre + post;
    if pre == [] {
      assert a[0] == m && a[1..] == post && b == post;
      assert !Ends(m, id);
    } else {
      assert a[0] == pre[0] == b[0];
      assert a[1..] == pre[1..] + [m] + post;
      assert b[1..] == pre[1..] + post;
      if !Ends(pre[0], id) {
        ForeignIgnored(pre[1..], m, post, id, if For(pre[0], id) then Absorb(out, pre[0]) else out);
      }
    }
  }

  /** A poll timeout or the idle status ends the loop: whatever follows it is
      not read, and what was accumulated before it is returned as it is. */
  lemma {:induction false} StopsAtTerminator(pre: seq<Msg>, t: Msg, post: seq<Msg>, id: MsgId, out: ExecOutput)
    requires Ends(t, id)
    ensures Drain(pre + [t] + post, id, out) == Drain(pre, id, out)
  {
    var a := pre + [t] + post;
    if pre == [] {
      assert a[0] == t;
    } else {
      assert a[0] == pre[0];
      assert a[1..] == pre[1..] + [t] + post;
      if !Ends(pre[0], id) {
        StopsAtTerminator(pre[1..], t, post, id, if For(pre[0], id) then Absorb(out, pre[0]) else out);
      }
    }
  }

  /** A status other than idle does not end the loop. */
  lemma {:induction false} BusyStatusContinues(st: string, post: seq<Msg>, id: MsgId, out: ExecOutput)
    requires st != "idle"
    ensures Drain([Status(Some(id), st)] + post, id, out) == Drain(post, id, out)
  {
    var a := [Status(Some(id), st)] + post;
    assert a[0] == Status(Some(id), st) && a[1..] == post;
  }

  // ---------------------------------------------------------------------
  // Output formatting
  // ---------------------------------------------------------------------

  /** The sparse record returned to the tool caller: success is set iff no
      error was captured, trailing whitespace is trimmed from the streams, an
      empty or literal "None" result is dropped, and no key holds null. */
  function FormatOutput(out: ExecOutput): (r: Object)
    ensures "success" in r && r["success"] == JBool(out.error.None?)
  {
    var success := map["success" := JBool(out.error.None?)];
    var withStdout := if out.stdout != "" then success["stdout" := JStr(RStrip(out.stdout))] else success;
    var withResult :=
      if out.result.Some? && out.result.value != "" && out.result.value != "None"
      then withStdout["result" := JStr(out.result.value)] else withStdout;
    var withStderr := if out.stderr != "" then withResult["stderr" := JStr(RStrip(out.stderr))] else withResult;
    if out.error.Some? && out.error.value != "" then withStderr["error" := JStr(out.error.value)] else withStderr
  }

  /** The five keys of the reply are different strings. */
  lemma ReplyKeysDistinct()
    ensures "success" != "stdout" && "success" != "result" && "success" != "stderr" && "success" != "error"
    ensures "stdout" != "result" && "stdout" != "stderr" && "stdout" != "error"
    ensures "result" != "stderr" && "result" != "error" && "stderr" != "error"
  {
    assert "success"[1] != "stdout"[1] && |"success"| != |"result"| && |"success"| != |"error"|;
    assert "stdout"[0] != "result"[0] && "stdout"[3] != "stderr"[3] && |"stdout"| != |"error"|;
    assert "result"[0] != "stderr"[0] && |"result"| != |"error"| && |"stderr"| != |"error"|;
  }

  /** Each stream is reported iff it is non-empty, right-stripped. */
  lemma FormatStreams(out: ExecOutput)
    ensures var r := FormatOutput(out);
      ("stdout" in r <==> out.stdout != "") && ("stdout" in r ==> r["stdout"] == JStr(RStrip(out.stdout))) &&
      ("stderr" in r <==> out.stderr != "") && ("stderr" in r ==> r["stderr"] == JStr(RStrip(out.stderr)))
  {
    ReplyKeysDistinct();
  }

  /** The result is reported iff it is given, non-empty and not "None"; the
      error iff it is given and non-empty. */
  lemma FormatResultAndError(out: ExecOutput)
    ensures var r := FormatOutput(out);
      ("result" in r <==> out.result.Some? && out.result.value != "" && out.result.value != "None") &&
      ("result" in r ==> r["result"] == JStr(out.result.value)) &&
      ("error" in r <==> out.error.Some? && out.error.value != "") &&
      ("error" in r ==> r["error"] == JStr(out.error.value))
  {
    ReplyKeysDistinct();
  }

  /** No other key appears, and no key holds null. */
  lemma FormatKeys(out: ExecOutput)
    ensures var r := FormatOutput(out);
      r.Keys <= {"success", "stdout", "result", "stderr", "error"} && forall k :: k in r ==> r[k] != JNull
  {
  }

  /** An execution that produced no output, result or error reports only
      {"success": true}. */
  lemma SilentExecutionIsSparse(ms: seq<Msg>, id: MsgId)
    requires forall m :: m in Matching(Window(ms, id), id) ==> m.Status? || m.Other?
    ensures FormatOutput(Drain(ms, id, Initial)) == map["success" := JBool(true)]
  {
    var w := Matching(Window(ms, id), id);
    DrainIsSummary(ms, id, Initial);
    NothingCaptured(w);
  }

  lemma {:induction false} NothingCaptured(ms: seq<Msg>)
    requires forall m :: m in ms ==> m.Status? || m.Other?
    ensures Summary(ms) == Initial
  {
    if ms != [] {
      assert ms[0] in ms;
      forall m | m in ms[1..] ensures m.Status? || m.Other? { assert m in ms; }
      NothingCaptured(ms[1..]);
    }
  }

  /** Output made only of whitespace is still reported, as an empty string. */
  lemma WhitespaceStdoutKept(out: ExecOutput)
    requires out.stdout != "" && AllSpace(out.stdout)
    ensures "stdout" in FormatOutput(out) && FormatOutput(out)["stdout"] == JStr("")
  {
  }

  // ---------------------------------------------------------------------
  // Launch command
  // ---------------------------------------------------------------------

  /** The kernel manager a session uses: the plain one when no package list
      was given (None), the uv-wrapping one otherwise (even for []). */
  datatype Manager = PlainManager | UvManager(withPackages: seq<string>, uvCwd: Option<string>)

  function ManagerFor(cwd: Option<string>, withPackages: Option<seq<string>>): Manager {
    if withPackages.Some? then UvManager(withPackages.value, cwd) else PlainManager
  }

  /** ["--with", p] for each package, in order. */
  function WithFlags(pkgs: seq<string>): seq<string> {
    if pkgs == [] then [] else WithFlags(pkgs[..|pkgs| - 1]) + ["--with", pkgs[|pkgs| - 1]]
  }

  /** The uv prefix before the per-package flags. */
  function UvHead(uvCwd: Option<string>): seq<string> {
    ["uv", "run"] + (if Given(uvCwd) then ["--directory", uvCwd.value] else []) + ["--no-project"]
  }

  /** The kernel command with a first element ending in "python3" renamed "python". */
  function UvPython(cmd: seq<string>): seq<string> {
    if cmd != [] && EndsWith(cmd[0], "python3") then ["python"] + cmd[1..] else cmd
  }

  /** The command the uv manager launches, for the parent's command `cmd`. */
  function UvCommand(pkgs: seq<string>, uvCwd: Option<string>, cmd: seq<string>): seq<string> {
    if pkgs == [] then cmd
    else UvHead(uvCwd) + WithFlags(pkgs) + ["--with", "ipykernel"] + UvPython(cmd)
  }

  /** The command a manager launches, for the parent's command `cmd`. */
  function LaunchCommand(m: Manager, cmd: seq<string>): seq<string> {
    match m
    case PlainManager => cmd
    case UvManager(pkgs, uvCwd) => UvCommand(pkgs, uvCwd, cmd)
  }

  /** Every requested package appears, in order, right after a "--with". */
  lemma {:induction false} WithFlagsAt(pkgs: seq<string>, i: nat)
    requires i < |pkgs|
    ensures |WithFlags(pkgs)| == 2 * |pkgs|
    ensures WithFlags(pkgs)[2 * i] == "--with" && WithFlags(pkgs)[2 * i + 1] == pkgs[i]
  {
    var init := pkgs[..|pkgs| - 1];
    WithFlagsLength(init);
    if i < |pkgs| - 1 {
      WithFlagsAt(init, i);
    }
  }

  lemma {:induction false} WithFlagsLength(pkgs: seq<string>)
    ensures |WithFlags(pkgs)| == 2 * |pkgs|
  {
    if pkgs != [] { WithFlagsLength(pkgs[..|pkgs| - 1]); }
  }

  /** The uv prefix has 3 elements, or 5 with a working directory. */
  lemma UvHeadShape(uvCwd: Option<string>)
    ensures var h := UvHead(uvCwd);
      |h| == (if Given(uvCwd) then 5 else 3) && h[0] == "uv" && h[1] == "run" && h[|h| - 1] == "--no-project" &&
      (Given(uvCwd) ==> h[2] == "--directory" && h[3] == uvCwd.value)
  {
  }

  /** In a wrapped command, package i sits right after a "--with", at the
      position given by its order in the list. */
  lemma UvCommandPackageAt(pkgs: seq<string>, uvCwd: Option<string>, cmd: seq<string>, i: nat)
    requires i < |pkgs|
    ensures var w, o := UvCommand(pkgs, uvCwd, cmd), |UvHead(uvCwd)|;
      o + 2 * i + 1 < |w| && w[o + 2 * i] == "--with" && w[o + 2 * i + 1] == pkgs[i]
  {
    WithFlagsAt(pkgs, i);
    var head, flags := UvHead(uvCwd), WithFlags(pkgs);
    var tail := ["--with", "ipykernel"] + UvPython(cmd);
    var w := UvCommand(pkgs, uvCwd, cmd);
    assert w == head + (flags + tail);
    assert w[|head| + 2 * i] == (flags + tail)[2 * i] == flags[2 * i];
    assert w[|head| + 2 * i + 1] == (flags + tail)[2 * i + 1] == flags[2 * i + 1];
  }

  /** A wrapped command ends with "--with ipykernel" and then the kernel
      command, with the interpreter renamed to "python". */
  lemma UvCommandEnd(pkgs: seq<string>, uvCwd: Option<string>, cmd: seq<string>)
    requires pkgs != []
    ensures var w, o := UvCommand(pkgs, uvCwd, cmd), |UvHead(uvCwd)| + 2 * |pkgs|;
      |w| == o + 2 + |UvPython(cmd)| && w[o] == "--with" && w[o + 1] == "ipykernel" && w[o + 2..] == UvPython(cmd)
  {
    WithFlagsLength(pkgs);
    var prefix := UvHead(uvCwd) + WithFlags(pkgs);
    var rest := ["--with", "ipykernel"] + UvPython(cmd);
    var w := UvCommand(pkgs, uvCwd, cmd);
    assert w == prefix + rest;
    assert |prefix| == |UvHead(uvCwd)| + 2 * |pkgs|;
    assert w[|prefix|] == rest[0] && w[|prefix| + 1] == rest[1];
    assert w[|prefix| + 2..] == rest[2..] == UvPython(cmd);
  }

  /** A plain manager and a uv manager with an empty list launch the same,
      unwrapped command. */
  lemma EmptyPackagesNotWrapped(cwd: Option<string>, cmd: seq<string>)
    ensures LaunchCommand(ManagerFor(cwd, Some([])), cmd) == cmd == LaunchCommand(ManagerFor(cwd, None), cmd)
  {
  }

  /** UVKernelManager.format_kernel_cmd: build the uv prefix step by step and
      wrap the parent's command, or return it unchanged for no packages. */
  method FormatKernelCmd(withPackages: seq<string>, uvCwd: Option<string>, cmd: seq<string>)
    returns (wrapped: seq<string>)
    ensures wrapped == UvCommand(withPackages, uvCwd, cmd)
  {
    if withPackages == [] {
      return cmd;
    }
    var prefix := ["uv", "run"];
    if Given(uvCwd) {
      prefix := prefix + ["--directory", uvCwd.value];
    }
    prefix := prefix + ["--no-project"];
    var i := 0;
    while i < |withPackages|
      invariant 0 <= i <= |withPackages|
      invariant prefix == UvHead(uvCwd) + WithFlags(withPackages[..i])
    {
      assert withPackages[..i + 1][..i] == withPackages[..i];
      prefix := prefix + ["--with", withPackages[i]];
      i := i + 1;
    }
    assert withPackages[..i] == withPackages;
    prefix := prefix + ["--with", "ipykernel"];
    var kernelCmd := cmd;
    if kernelCmd != [] && EndsWith(kernelCmd[0], "python3") {
      kernelCmd := ["python"] + kernelCmd[1..];
    }
    wrapped := prefix + kernelCmd;
  }

  // ---------------------------------------------------------------------
  // Sessions
  // ---------------------------------------------------------------------

  /** Why a session could not be started. */
  datatype StartCause = UvMissing | LaunchFailed | ReadinessTimeout

  /** The RuntimeError "Failed to start kernel: ..." raised by the constructor. */
  datatype KernelError = StartupError(cause: StartCause)

  const UvRequired := "UV is required"
  const UvMissingText := UvRequired + " for dynamic package mode but not found in PATH. " +
    "Install it with: curl -LsSf https://astral.sh/uv/install.sh | sh"
  const StartFailedPrefix := "Failed to start kernel"

  /** The text of the startup error. The launch and readiness failures come
      from the kernel library, whose own message is `detail`. */
  function StartupMessage(e: KernelError, detail: string): (msg: string)
    ensures StartsWith(msg, StartFailedPrefix + ": ")
  {
    var inner := if e.cause.UvMissing? then UvMissingText else detail;
    assert (StartFailedPrefix + ": " + inner)[..|StartFailedPrefix + ": "|] == StartFailedPrefix + ": ";
    StartFailedPrefix + ": " + inner
  }

  /** What the host environment does when a session is launched: whether uv is
      on PATH, whether the process starts, and whether the readiness handshake
      completes within its timeout. */
  datatype LaunchEnv = LaunchEnv(uvOnPath: bool, starts: bool, becomesReady: bool, baseCmd: seq<string>)

  /** The cause of a failed launch, checked in the source's order. */
  function LaunchFailure(withPackages: Option<seq<string>>, env: LaunchEnv): Option<StartCause> {
    if withPackages.Some? && withPackages.value != [] && !env.uvOnPath then Some(UvMissing)
    else if !env.starts then Some(LaunchFailed)
    else if !env.becomesReady then Some(ReadinessTimeout)
    else None
  }

  function ToSet(s: seq<string>): set<string> {
    set x | x in s
  }

  /** A live interpreter session. `manager` is None once the session was shut
      down (km cleared); `clientOpen` is whether the channel client is held
      (kc not None); `processAlive` is the process state as the manager
      reports it, which the environment may change. */
  class PythonKernel {
    const cwd: Option<string>
    const withPackages: seq<string>
    const launchCommand: seq<string>
    var manager: Option<Manager>
    var clientOpen: bool
    var processAlive: bool

    /** A session whose launch and readiness handshake succeeded. */
    constructor Started(cwd: Option<string>, withPackages: Option<seq<string>>, baseCmd: seq<string>)
      ensures this.cwd == cwd && this.withPackages == withPackages.GetOr([])
      ensures manager == Some(ManagerFor(cwd, withPackages))
      ensures launchCommand == LaunchCommand(ManagerFor(cwd, withPackages), baseCmd)
      ensures clientOpen && processAlive
    {
      this.cwd := cwd;
      this.withPackages := withPackages.GetOr([]);
      var m := ManagerFor(cwd, withPackages);
      var command := baseCmd;
      if m.UvManager? {
        command := FormatKernelCmd(m.withPackages, m.uvCwd, baseCmd);
      }
      this.launchCommand := command;
      this.manager := Some(m);
      this.clientOpen := true;
      this.processAlive := true;
    }

    /** Send one request (its id is `msgId`) and drain the iopub queue `iopub`
        until the matching idle status or the first poll timeout. Returns the
        captured output and the messages still queued afterwards. */
    method Execute(msgId: MsgId, iopub: seq<Msg>) returns (output: ExecOutput, rest: seq<Msg>)
      ensures output == Drain(iopub, msgId, Initial)
      ensures rest == iopub[Consumed(iopub, msgId)..]
    {
      output := Initial;
      var state := "busy";
      var i := 0;
      while state != "idle"
        invariant 0 <= i <= |iopub|
        invariant state != "idle" ==> Drain(iopub[i..], msgId, output) == Drain(iopub, msgId, Initial)
        invariant state != "idle" ==> Consumed(iopub, msgId) == i + Consumed(iopub[i..], msgId)
        invariant state == "idle" ==> output == Drain(iopub, msgId, Initial) && Consumed(iopub, msgId) == i
        decreases |iopub| - i, if state == "idle" then 0 else 1
      {
        if i == |iopub| || iopub[i].Timeout? {
          // queue.Empty: return what was collected so far
          if i < |iopub| {
            i := i + 1;
          }
          break;
        }
        var msg := iopub[i];
        ghost var before := output;
        assert iopub[i..][0] == msg && iopub[i..][1..] == iopub[i + 1..];
        i := i + 1;
        if msg.parent != Some(msgId) {
          continue;
        }
        match msg {
          case Stream(_, name, text) =>
            if name == "stdout" {
              output := output.(stdout := output.stdout + text);
            } else if name == "stderr" {
              output := output.(stderr := output.stderr + text);
            }
          case ExecuteResult(_, plain) =>
            output := output.(result := Some(plain.GetOr("")));
          case Error(_, ename, evalue, tb) =>
            var text := ename + ": " + evalue;
            if tb != [] {
              text := text + ("\n" + Join(tb, "\n"));
            } else {
              assert text == text + "";
            }
            output := output.(error := Some(text));
          case Status(_, st) =>
            state := st;
          case Other(_, _) =>
        }
        assert output == Absorb(before, msg);
      }
      rest := iopub[i..];
    }

    /** Best-effort teardown: close the channels, stop the process if the
        manager reports it alive, and drop both references. A failing step
        (`stopFails`, `killFails`) is swallowed and does not skip the rest; a
        failed kill leaves the process running. Nothing is raised. */
    method Shutdown(stopFails: bool, killFails: bool)
      modifies this
      ensures manager.None? && !clientOpen
      ensures processAlive == (old(processAlive) && (old(manager).None? || killFails))
    {
      if clientOpen {
        // stop_channels(); a failure is swallowed
        clientOpen := false;
      }
      if manager.Some? {
        if processAlive && !killFails {
          processAlive := false;
        }
        manager := None;
      }
    }

    /** The environment: the session's process exits on its own. */
    method ProcessExits()
      modifies this
      ensures !processAlive
      ensures manager == old(manager) && clientOpen == old(clientOpen)
    {
      processAlive := false;
    }
  }

  /** kernel.PythonKernel(cwd, with_packages): start a session, or report why
      it could not be started (no half-built session escapes). */
  method StartKernel(cwd: Option<string>, withPackages: Option<seq<string>>, env: LaunchEnv)
    returns (r: Result<PythonKernel, KernelError>)
    ensures r.Failure? <==> LaunchFailure(withPackages, env).Some?
    ensures r.Failure? ==> r.error == StartupError(LaunchFailure(withPackages, env).value)
    ensures r.Success? ==> fresh(r.value) && r.value.cwd == cwd && r.value.withPackages == withPackages.GetOr([])
    ensures r.Success? ==> r.value.manager == Some(ManagerFor(cwd, withPackages)) && r.value.clientOpen && r.value.processAlive
    ensures r.Success? ==> r.value.launchCommand == LaunchCommand(ManagerFor(cwd, withPackages), env.baseCmd)
  {
    var failure := LaunchFailure(withPackages, env);
    if failure.Some? {
      return Failure(StartupError(failure.value));
    }
    var k := new PythonKernel.Started(cwd, withPackages, env.baseCmd);
    return Success(k);
  }

  /** A session can be reused for (cwd, requested) iff its process is alive,
      its directory is equal and its package set equals the requested set. */
  predicate Reusable(k: PythonKernel?, cwd: Option<string>, requested: seq<string>)
    reads k
  {
    k != null && k.processAlive && k.cwd == cwd && ToSet(k.withPackages) == ToSet(requested)
  }

  /** The process-wide single slot holding at most one session. `started`
      counts the sessions this registry has launched. */
  class KernelRegistry {
    var kernel: PythonKernel?
    ghost var started: nat

    constructor ()
      ensures kernel == null && started == 0
    {
      kernel := null;
      started := 0;
    }

    /** get_kernel: reuse the session when it is alive and configured as
        requested (packages compared as sets, None the same as []);
        otherwise shut the old one down and start a new one. A failed start
        leaves the slot empty. */
    method GetKernel(cwd: Option<string>, withPackages: Option<seq<string>>, env: LaunchEnv, teardown: (bool, bool))
      returns (r: Result<PythonKernel, KernelError>)
      modifies this, kernel
      ensures old(Reusable(kernel, cwd, withPackages.GetOr([]))) ==>
        r == Success(old(kernel)) && kernel == old(kernel) && started == old(started) &&
        unchanged(old(kernel))
      ensures !old(Reusable(kernel, cwd, withPackages.GetOr([]))) ==>
        (old(kernel) != null ==> old(kernel).manager.None? && !old(kernel).clientOpen) &&
        (r.Failure? <==> LaunchFailure(withPackages, env).Some?) &&
        (r.Failure? ==> kernel == null && started == old(started) &&
                        r.error == StartupError(LaunchFailure(withPackages, env).value)) &&
        (r.Success? ==> fresh(r.value) && kernel == r.value && started == old(started) + 1 &&
                        Reusable(kernel, cwd, withPackages.GetOr([])) && kernel.clientOpen)
    {
      var requested := withPackages.GetOr([]);
      var stale := false;
      if kernel == null {
        stale := true;
      } else if !kernel.processAlive {
        stale := true;
      } else if kernel.cwd != cwd {
        stale := true;
      } else if ToSet(kernel.withPackages) != ToSet(requested) {
        stale := true;
      }
      if !stale {
        return Success(kernel);
      }
      if kernel != null {
        kernel.Shutdown(teardown.0, teardown.1);
      }
      r := StartKernel(cwd, withPackages, env);
      if r.Success? {
        kernel := r.value;
        started := started + 1;
      } else {
        kernel := null;
      }
    }

    /** shutdown_kernel: shut the session down, if there is one, and empty the
        slot; with an empty slot it changes nothing. */
    method ShutdownKernel(teardown: (bool, bool))
      modifies this, kernel
      ensures kernel == null && started == old(started)
      ensures old(kernel) != null ==> old(kernel).manager.None? && !old(kernel).clientOpen
      ensures old(kernel) == null ==> unchanged(this)
    {
      if kernel != null {
        kernel.Shutdown(teardown.0, teardown.1);
        kernel := null;
      }
    }
  }

  /** Successive requests with one configuration share one session until its
      process dies; a changed configuration or a dead process restarts it;
      shutting down twice is harmless. */
  method RegistryScenario(env: LaunchEnv, cmd: seq<string>)
    requires env.starts && env.becomesReady
  {
    var registry := new KernelRegistry();
    var first := registry.GetKernel(Some("/w"), Some(["numpy", "pandas"]), env.(uvOnPath := true), (false, false));
    assert first.Success? && registry.started == 1;
    var k := first.value;
    var again := registry.GetKernel(Some("/w"), Some(["pandas", "numpy", "numpy"]), env, (false, false));
    assert ToSet(["pandas", "numpy", "numpy"]) == ToSet(["numpy", "pandas"]);
    assert again == Success(k) && registry.started == 1;
    k.ProcessExits();
    var revived := registry.GetKernel(Some("/w"), Some(["numpy", "pandas"]), env.(uvOnPath := true), (false, true));
    assert revived.Success? && revived.value != k && registry.started == 2;
    var moved := registry.GetKernel(Some("/v"), None, env, (true, false));
    assert moved.Success? && registry.started == 3;
    var plain := registry.GetKernel(Some("/v"), Some([]), env, (false, false));
    assert plain == moved;
    registry.ShutdownKernel((false, false));
    registry.ShutdownKernel((false, false));
    assert registry.kernel == null && registry.started == 3;
  }
}
