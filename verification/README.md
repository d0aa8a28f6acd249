# agentic-python-coder, modelled in Dafny

agentic-python-coder is a command-line coding agent. A language model drives a small set of tools, and the main tool runs Python code in a persistent interpreter session (a Jupyter kernel). This project models the parts of the system that decide what happens. Each part has its own module:

- **Kernel**: launching a session, directly or wrapped in `uv run --with ...` when extra packages are requested. It also models the drain loop, which collects one execution's output from the iopub broadcast channel; the single process-wide session slot, which reuses or replaces its session; and how the output is formatted into a JSON object.
- **Tools**: the tool layer:
  - the working-directory singleton and its path containment check;
  - the JSON success and error envelopes;
  - the todo list with its "at most one task in progress" rule;
  - `python_exec`, which reads the package list from the environment variable `CODER_WITH_PACKAGES` and turns runtime errors into error responses;
  - `save_code` and `report_issue`.
- **Context**: the execution context. It checks the working directory, uv and the package specifications. It starts a session lazily and holds its own path resolution.
- **PackageSpec**: the package-specification pattern, proved equal to a declarative reading of the regular expression.
- **Paths**: lexical path resolution ("`..`" and "`.`") and containment.
- **ProjectMd**: the project file. This covers the fenced `packages` block at its head, the parser, the round trip from rendering to parsing, and the project prompt with its available and unavailable package sections.
- **Agent**: the agent run:
  - picking the final response;
  - tool-usage counting and token accounting, with both message formats;
  - the combined prompt, the tool list and the step limit.
- **ConversationLog**: the JSONL conversation log, as the sequence of events it writes.
- **Llm**: model resolution from aliases or full paths, API-key lookup, and the keyword arguments built for the chat client.
- **Cli**: the checks both front ends run before a task, and the cumulative statistics of the interactive mode.

Effects are either parameters or left out:

- **Session messages.** Everything the kernel sends arrives as a sequence of `Msg` values; a poll timeout is the value `Timeout`.
- **Environment.** The file system, environment variables and launch outcomes are given to the model as plain values.
- **JSON decoding.** In the log writer, decoding is a function parameter.

The older front end carries copies of two of these pieces: coder/src/coder/project_md.py (the parser and the prompt) and the log writer in coder/src/coder/cli.py. They behave the same as the newer copies, so the same members model them. As written, the older front end cannot be imported at all: coder/src/coder/cli.py:21 imports `MODEL_REGISTRY`, which coder/src/coder/llm.py does not define.

Objects whose fields the source updates in place are classes: `PythonKernel`, `KernelRegistry`, `WorkingDirectory`, `ToolState`, `ExecutionContext`, `RunStats` and `CumulativeStats`. Each method states its whole new state. Pure logic is written as functions, with lemmas that relate them.

## Model

| member | source | states |
|---|---|---|
| Kernel.DrainIsSummary | coder/src/agentic_python_coder/kernel.py:194-225 | The drain loop's output is the initial output extended by a summary of the messages that answer the request. Those are the messages before the first poll timeout or the first `idle` status for the request. |
| Kernel.ForeignIgnored | coder/src/agentic_python_coder/kernel.py:205-206 | A message whose parent id is not the request's id changes nothing, wherever it sits in the stream. |
| Kernel.StopsAtTerminator | coder/src/agentic_python_coder/kernel.py:197-198 | Nothing after the request's `idle` status, or after a poll timeout, is collected. |
| Kernel.BusyStatusContinues | coder/src/agentic_python_coder/kernel.py:220-221 | A status other than `idle` for the request is consumed without ending the loop and without adding output. |
| Kernel.SummaryOne | coder/src/agentic_python_coder/kernel.py:208-219 | A single message contributes exactly its own pieces: stdout text, stderr text, the plain-text result, and the error with its traceback. |
| Kernel.ThenAssoc | coder/src/agentic_python_coder/kernel.py:208-219 | Combining outputs step by step equals combining them all at once. Later results and errors replace earlier ones; stream texts concatenate. |
| Kernel.PythonKernel.Execute | coder/src/agentic_python_coder/kernel.py:180-225 | The returned output equals the drain of the iopub stream for this message id, starting from empty stdout and stderr and no result or error. The unread rest of the stream is returned. |
| Kernel.FormatOutput | coder/src/agentic_python_coder/kernel.py:319-323 | `success` is always present, and is true exactly when no error was captured. |
| Kernel.FormatStreams | coder/src/agentic_python_coder/kernel.py:324-328 | Each of `stdout` and `stderr` is present iff that stream is non-empty, and holds it right-stripped. |
| Kernel.FormatResultAndError | coder/src/agentic_python_coder/kernel.py:325-329 | `result` is present iff it is given, non-empty and not `"None"`. `error` is present iff it is given and non-empty. Each holds the captured text unchanged. |
| Kernel.FormatKeys | coder/src/agentic_python_coder/kernel.py:322-333 | No key other than the five appears, and no value is null. |
| Kernel.SilentExecutionIsSparse | coder/src/agentic_python_coder/kernel.py:319-335 | An execution that sends only status and other messages formats to `{"success": true}`. |
| Kernel.WhitespaceStdoutKept | coder/src/agentic_python_coder/kernel.py:324 | Stdout made only of whitespace is still reported, as an empty string. |
| Kernel.UvHeadShape | coder/src/agentic_python_coder/kernel.py:71-85 | The uv prefix is `uv run`, then `--directory <cwd>` when a directory is given, then `--no-project`. |
| Kernel.UvCommandPackageAt | coder/src/agentic_python_coder/kernel.py:80-82 | Every requested package appears, in order, right after its own `--with` flag. |
| Kernel.UvCommandEnd | coder/src/agentic_python_coder/kernel.py:84-93 | A wrapped command ends with `--with ipykernel` and then the kernel command, whose interpreter is renamed to `python`. |
| Kernel.EmptyPackagesNotWrapped | coder/src/agentic_python_coder/kernel.py:67-68 | An empty package list launches the same, unwrapped command as the plain manager. |
| Kernel.FormatKernelCmd | coder/src/agentic_python_coder/kernel.py:61-98 | The command built step by step equals the uv-wrapped command specified by `UvCommand`. |
| Kernel.StartupMessage | coder/src/agentic_python_coder/kernel.py:163-167 | Every startup failure is reported with the "Failed to start kernel: " prefix. |
| Kernel.PythonKernel.Started | coder/src/agentic_python_coder/kernel.py:104-167 | A new session records its directory and its package list (None becomes empty), uses the uv manager iff a package list (possibly empty) was given, launches that manager's command, and is alive with an open client. |
| Kernel.PythonKernel.Shutdown | coder/src/agentic_python_coder/kernel.py:227-245 | After shutdown the manager and the client are cleared. The process survives only if the manager was already cleared or the kill failed. |
| Kernel.PythonKernel.ProcessExits | coder/src/agentic_python_coder/kernel.py:277 | A process that dies is no longer alive; the handles are untouched. |
| Kernel.StartKernel | coder/src/agentic_python_coder/kernel.py:104-167 | Starting fails iff one of these holds, in the source's order: uv is missing while packages are requested, the launch fails, or the session never becomes ready. The error names that cause; otherwise the session is fresh and configured as requested. |
| Kernel.KernelRegistry.GetKernel | coder/src/agentic_python_coder/kernel.py:248-306 | A live session with an equal directory and an equal package set is returned unchanged. Otherwise the old session is shut down and replaced by a fresh one that is reusable for the request. If that launch fails, the slot is left empty and the cause is reported. |
| Kernel.KernelRegistry.ShutdownKernel | coder/src/agentic_python_coder/kernel.py:309-316 | The slot is emptied after its session is shut down. With an empty slot nothing changes. |
| Kernel.KernelRegistry.constructor | coder/src/agentic_python_coder/kernel.py:23-25 | The registry starts with no session. |
| Paths.ResolveUnder | coder/src/coder/tools.py:34-48 | An absolute path is refused. A relative path is accepted iff its lexical resolution stays under the working directory, and an accepted path lies under it. |
| Paths.ContainedPathAccepted | coder/src/coder/tools.py:34-48 | A relative path whose `..` steps never climb above its start is accepted, and it resolves below the working directory. |
| Paths.PlainPathAccepted | coder/src/coder/tools.py:34-48 | A relative path without `..` resolves to the working directory followed by its segments. |
| Paths.SiblingRefused | coder/src/coder/tools.py:42-46 | `../<sibling>` escapes and is refused. |
| Paths.ReenteringAccepted | coder/src/coder/tools.py:42-46 | `../<own name>` comes back to the working directory itself and is accepted. |
| Paths.AbsoluteRefused | coder/src/coder/tools.py:38-39 | An absolute path is refused even when it names the working directory. |
| Paths.AcceptedIsResolved | coder/src/coder/tools.py:40-41 | An accepted path contains no `.`, `..` or empty segment. |
| Tools.SuccessResponse | coder/src/coder/tools.py:56-62 | `success` is true unless the extra fields override it; `result` is present iff it is not null; every extra field is kept. |
| Tools.ErrorResponse | coder/src/coder/tools.py:65-69 | `success` is false and `error` holds the message unless the extra fields override them; every extra field is kept. |
| Tools.WorkingDirectory.Set | coder/src/coder/tools.py:22-26 | The directory is recorded resolved against the current directory. It is an error iff that directory does not exist, and it is recorded either way. |
| Tools.WorkingDirectory.Get | coder/src/coder/tools.py:28-32 | Returns the directory iff one was set, otherwise the "Working directory not set" error. |
| Tools.WorkingDirectory.ResolvePath | coder/src/coder/tools.py:34-48 | An absolute path is refused first, whether or not a directory is set. A relative path gives the missing-directory error when no directory is set. Otherwise it is accepted iff it resolves under the directory, and is refused with the outside-directory message when it does not. |
| Tools.CheckTodos | coder/src/coder/tools.py:197-211 | A list is accepted iff at most one item is in progress and every item has its required fields with allowed values. More than one item in progress is reported first. |
| Tools.FirstItemProblem | coder/src/coder/tools.py:203-211 | No problem is found iff every item is well formed. |
| Tools.CountInProgressPairs | coder/src/coder/tools.py:198-200 | At most one item in progress is the same as: no two items are both in progress. |
| Tools.CountInProgressZero | coder/src/coder/tools.py:198-200 | The count is zero iff no item is in progress. |
| Tools.TodosUpdated | coder/src/coder/tools.py:213-215 | The success reply carries the number of stored items. |
| Tools.ToolState.constructor | coder/src/coder/tools.py:177-330 | The todo list, the saved code, the task-file name and the reported issues all start empty. |
| Tools.ToolState.TodoWrite | coder/src/coder/tools.py:181-217 | An accepted list replaces the todo list and is acknowledged with its count. A rejected list leaves everything unchanged and returns the matching error. The well-formedness invariant is kept; no other state changes. |
| Tools.ListStatusMessage | coder/src/coder/tools.py:207-211 | A status given as a list is reported as Python prints the list: each string quoted, elements separated by ", ", in brackets. |
| Json.StrOfPair | coder/src/coder/tools.py:207-211 | A two-element list prints as the repr of each element, separated by ", ", between brackets. |
| Json.StrOfPlainStrings | coder/src/coder/tools.py:207-211 | A list of strings without quotes, backslashes or whitespace controls prints as each string in single quotes, separated by ", ", between brackets. |
| Json.QuotePlain | coder/src/coder/tools.py:207-211 | The repr of such a string is the string in single quotes. |
| Json.UnescapeEscaped | coder/src/coder/tools.py:207-211 | The escaped body of a string repr reads back as the original text. |
| Json.EscapedQuotes | coder/src/coder/tools.py:207-211 | Every quote character inside the escaped body is preceded by a backslash, so the literal ends at its closing quote; the quote is `"` exactly when the text holds `'` and no `"`, as Python's repr chooses. |
| Tools.ToolState.SetTaskBasename | coder/src/coder/tools.py:292-295 | Records the task-file name; nothing else changes. |
| Tools.ToolState.SaveCode | coder/src/coder/tools.py:299-327 | The code is stored in every case. Without a working directory, or when the write fails, the reply is an error. Otherwise it names the file the code was saved to. |
| Tools.CodeFileName | coder/src/coder/tools.py:316-319 | With a task name, the file is `<name>_code.py`; without one it is `code.py`. |
| Tools.ToolState.ReportIssue | coder/src/coder/tools.py:334-363 | Exactly one feedback record with the issue text is appended, and the reply confirms it. |
| Tools.Feedback | coder/src/coder/tools.py:357 | A feedback record has exactly a `type` of `agent_feedback` and the issue text as its content. |
| Tools.ReportTwice | coder/src/coder/tools.py:357-369 | Two reports leave two records in order, as `get_reported_issues` returns them. |
| Tools.PackagesFromEnv | coder/src/coder/tools.py:254-257 | An unset variable means no packages and an empty value means an empty list. Otherwise the parts joined by commas give back the value. |
| Tools.PackagesRoundTrip | coder/src/agentic_python_coder/agent.py:69-72 | Writing a package list to the environment and reading it back returns the list iff no entry contains a comma (the list `[""]` aside). |
| Tools.CommaExtrasNotRecovered | coder/src/coder/tools.py:254-257 | A valid specification with two extras, such as `pkg[a,b]`, does not survive that round trip. |
| Tools.UvMissingReported | coder/src/coder/tools.py:269-273 | A missing uv is answered with the install hint. |
| Tools.StartFailureReported | coder/src/coder/tools.py:274-277 | Any other startup failure is reported as "Failed to start Python kernel: " followed by the startup message. |
| Tools.OtherRuntimeErrorReported | coder/src/coder/tools.py:278-280 | A runtime error whose message contains neither "UV is required" nor "Failed to start kernel" (a missing working directory, a failed connection) is reported as "Kernel error: " followed by its message. |
| Tools.RuntimeErrorCases | coder/src/coder/tools.py:270-280 | Every runtime error becomes an error envelope with exactly the keys success (false) and error; the uv phrase is tested first, then the failed start, else the kernel error. |
| Tools.PythonExec | coder/src/coder/tools.py:222-284 | With no working directory set, the reply is the runtime error and the session slot is untouched. A reusable session is kept, unchanged, and answers with the formatted drain of the stream. Otherwise the old session is shut down, and either a new session, configured as requested, fills the slot and answers the same way, or the launch fails, the slot is empty and the reply is the runtime error for the startup message. |
| Context.ExecutionContext.Init | coder/src/coder/context.py:24-64 | A new context holds the resolved directory and the packages, and no session. |
| Context.NewContext | coder/src/coder/context.py:24-64 | Four errors are checked in the source's order: the directory is missing, it is not a directory, uv is missing while packages are requested, or a specification is invalid when validation is on. The last error lists every invalid one. Otherwise a fresh context without a session is returned. |
| Context.ExecutionContext.KernelPackages | coder/src/coder/context.py:111-114 | An empty package list is passed as None; a non-empty list is passed unchanged. |
| Context.ExecutionContext.GetKernel | coder/src/coder/context.py:96-120 | An existing session is returned as is. Otherwise a session is started in the context's directory with its packages, and the context keeps it. A startup failure leaves no session and is reported with the source's message. |
| Context.ExecutionContext.ResolvePath | coder/src/coder/context.py:122-152 | An absolute path and a path that escapes the directory are refused with the source's messages. An accepted path lies under the working directory. |
| Context.ExecutionContext.Shutdown | coder/src/coder/context.py:154-169 | The session, if any, is shut down and dropped. With no session nothing changes. |
| Context.ExecutionContext.Exit | coder/src/coder/context.py:175-178 | Leaving the `with` block shuts down and does not suppress the exception. |
| PackageSpec.IsValidSpec | coder/src/coder/context.py:79-83 | The character scanner accepts exactly the strings that the three-part pattern (name, optional extras, optional version) matches, including the one trailing newline that `$` allows. |
| PackageSpec.NameIsPep508 | coder/src/coder/context.py:80 | The name part of the pattern accepts exactly the names the PEP 508 grammar generates: a letter or digit followed by identifier_end pieces, each a run of `-`, `_` and `.` ending in a letter or digit. |
| PackageSpec.EndsSound | coder/src/coder/context.py:80 | A run of identifier_end pieces is empty, or is made of name characters and ends in a letter or digit. |
| PackageSpec.EndsComplete | coder/src/coder/context.py:80 | Conversely, every such text splits into identifier_end pieces. |
| PackageSpec.ValidSpecCharacters | coder/src/coder/context.py:79-83 | Every character of an accepted specification, except a final newline, belongs to the pattern's character classes. |
| PackageSpec.ShellMetacharactersRefused | coder/src/coder/context.py:79-83 | A space, `;`, `\|`, `&` or `$` anywhere makes a specification invalid. |
| PackageSpec.LooseOperatorAccepted | coder/src/coder/context.py:82 | The operator class accepts any run of operator characters, such as `=<>`. |
| PackageSpec.TrailingNewlineAccepted | coder/src/coder/context.py:82 | `pandas` followed by a newline is accepted. |
| PackageSpec.NameWithExtrasAccepted | coder/src/coder/context.py:81 | A valid name with a bracketed, non-empty extras list is accepted. |
| PackageSpec.ExtrasWithCommaAccepted | coder/src/coder/context.py:81 | Extras separated by a comma are accepted. |
| PackageSpec.InvalidSpecsMembers | coder/src/coder/context.py:85-88 | The invalid list holds exactly the input specifications that fail the pattern. |
| PackageSpec.InvalidSpecsEmpty | coder/src/coder/context.py:90-94 | Validation passes iff every specification matches. |
| PackageSpec.InvalidSpecsAppend | coder/src/coder/context.py:85-88 | Invalid specifications are collected in input order. |
| PackageSpec.CollectInvalid | coder/src/coder/context.py:85-88 | The loop collects exactly the invalid specifications, in order. |
| ProjectMd.FindBlockSound | coder/src/agentic_python_coder/project_md.py:27-28 | A block found in the content really is a fenced `packages` block at the start. |
| ProjectMd.FindBlockFirst | coder/src/agentic_python_coder/project_md.py:27-28 | When the pattern can match, the matcher finds it, and picks the match the regular expression picks (shortest body, then greedy trailing whitespace). |
| ProjectMd.NoMatchNoBlock | coder/src/agentic_python_coder/project_md.py:27-28 | When the pattern cannot match, no block is found. |
| ProjectMd.ParseProjectFile | coder/src/agentic_python_coder/project_md.py:20-41 | Without a block the content is returned whole with no packages. With one, the packages are the clean lines of the block body between the fences and the rest is the text after the match; that rest is always a suffix of the content, and every package is a stripped, non-empty line. |
| ProjectMd.BlockOnlyAtStart | coder/src/agentic_python_coder/project_md.py:27-28 | A block that does not open the file is not read. |
| ProjectMd.ParseSplitsContent | coder/src/agentic_python_coder/project_md.py:31-39 | The block and the remaining text make up the whole content. |
| ProjectMd.RenderParse | coder/src/agentic_python_coder/project_md.py:20-41 | A rendered project file with plain package names parses back to those packages and that body. |
| ProjectMd.CleanLines | coder/src/agentic_python_coder/project_md.py:35-36 | Every kept line is stripped and non-empty, and no more lines come out than went in. |
| ProjectMd.CleanLinesSpec | coder/src/agentic_python_coder/project_md.py:35-36 | The kept lines are, in order, the stripped forms of exactly the non-blank lines: one per such line, taken at strictly increasing positions. |
| ProjectMd.CleanLinesCompact | coder/src/agentic_python_coder/project_md.py:35-36 | Cleaning is stripping every line and then keeping the non-empty results. |
| ProjectMd.AvailableMembers | coder/src/agentic_python_coder/project_md.py:87-89 | A package is listed as available iff it is requested and not unavailable. |
| ProjectMd.AvailableAll | coder/src/agentic_python_coder/project_md.py:87-89 | With no unavailable packages every requested package is listed as available. |
| ProjectMd.PromptFrame | coder/src/agentic_python_coder/project_md.py:80-107 | The prompt opens with the header and ends with the file's content. The package status section appears iff packages were requested, and is then followed by an empty line. |
| ProjectMd.PromptListsAvailable | coder/src/agentic_python_coder/project_md.py:84-93 | When some requested package is available, the prompt lines are: the header, the status title, the available title, one bullet per available package in order, the unavailable section, an empty line and the content. |
| ProjectMd.PromptListsUnavailable | coder/src/agentic_python_coder/project_md.py:84-105 | When some package is unavailable, the prompt lines are: the header, the status title, the available section, the unavailable title, one bullet per unavailable package in order, the warning, an empty line and the content. |
| ProjectMd.BulletsEach | coder/src/agentic_python_coder/project_md.py:92-93 | The i-th bullet line is the i-th package in backticks after `- `. |
| ProjectMd.NoPackagesPrompt | coder/src/agentic_python_coder/project_md.py:83 | Without packages the prompt is the header, a newline and the content. |
| ProjectMd.PromptEnds | coder/src/agentic_python_coder/project_md.py:109 | The joined prompt starts with the header and ends with the content. |
| ProjectMd.CreateProjectPrompt | coder/src/agentic_python_coder/project_md.py:64-109 | The lines built step by step, joined with newlines, equal the specified prompt. |
| ProjectMd.AvailablePackages | coder/src/agentic_python_coder/project_md.py:87-89 | The filtering loop yields exactly the available packages, in order. |
| Agent.FinalResponseIsLastReply | coder/src/agentic_python_coder/agent.py:327-367 | The final response is the content of the last AI message that has content and no tool calls. |
| Agent.NoReplyNoResponse | coder/src/agentic_python_coder/agent.py:336-367 | Without such a message there is no final response. |
| Agent.ResponseIsReply | coder/src/agentic_python_coder/agent.py:327-367 | A final response always comes from such a message, and no later message qualifies. |
| Agent.ToolCallsSkipped | coder/src/agentic_python_coder/agent.py:337-351 | Appending a message with tool calls does not change the final response. |
| Agent.TallyCounts | coder/src/agentic_python_coder/agent.py:191-203 | Each non-empty tool name's count grows by its number of occurrences, and every other count stays. A key appears iff it was there or a call used it. |
| Agent.TallyAppend | coder/src/agentic_python_coder/agent.py:189-224 | Counting two batches equals counting their concatenation. |
| Agent.NamelessUncounted | coder/src/agentic_python_coder/agent.py:200-203 | Calls without a name are not counted. |
| Agent.RawCallsRecordNames | coder/src/agentic_python_coder/agent.py:212-218 | An id recorded from the raw format is mapped to a name, unless it was already recorded. |
| Agent.CountCalls | coder/src/agentic_python_coder/agent.py:191-203 | The loop over structured tool calls tallies their names and records their ids. |
| Agent.CountRawCalls | coder/src/agentic_python_coder/agent.py:211-223 | The loop over raw tool calls tallies the function names and records their ids. |
| Agent.RunStats.constructor | coder/src/agentic_python_coder/agent.py:292-296 | Statistics start with no tool usage and zero tokens. |
| Agent.RunStats.ProcessToolCalls | coder/src/agentic_python_coder/agent.py:189-224 | Structured calls are used when present, raw calls otherwise. Usage grows by the message's tool names, the ids are recorded and the tokens are unchanged. |
| Agent.RunStats.UpdateTokenStats | coder/src/agentic_python_coder/agent.py:237-257 | Each token counter grows by the count in the response's usage record plus the count in the usage metadata; a message carrying both is counted twice, as in the source. Tool usage is unchanged. |
| Agent.RunStats.Collect | coder/src/agentic_python_coder/agent.py:303-320 | After a run, usage is the tally of every message's tool names and each token counter is the sum over all messages. |
| Agent.RunCountsCalls | coder/src/agentic_python_coder/agent.py:303-320 | After a run, a tool's count is its old count plus the number of calls to it. |
| Agent.PromptOrder | coder/src/agentic_python_coder/agent.py:88-106 | An explicit system prompt wins over a prompt file, which wins over the default. The project prompt follows the system prompt, and the user's request comes last, wrapped in `<task>` tags. |
| Agent.CombinedPrompt | coder/src/agentic_python_coder/agent.py:23-28 | A missing prompt file gives "Prompt file not found". Otherwise the prompt parts are joined by blank lines. |
| Agent.ToolList | coder/src/agentic_python_coder/agent.py:82-85 | The execute, save and report tools are always present; the todo tool is present iff requested, so the list has four tools with it and three without. |
| Agent.StepLimit | coder/src/agentic_python_coder/agent.py:285 | Without a limit the default of 200 steps applies; a given limit is used as is. |
| ConversationLog.LogFileName | coder/src/agentic_python_coder/runner.py:55-58 | The log is `<basename>.jsonl` when a basename is given, else `log.jsonl`. |
| ConversationLog.SolveTaskLogName | coder/src/agentic_python_coder/runner.py:273-275 | A log is written iff logging is on, and then under that name. |
| ConversationLog.Status | coder/src/agentic_python_coder/runner.py:179-190 | The run is a success iff no issue was reported; otherwise it is `success_with_issues`. |
| ConversationLog.TaskSummaries | coder/src/agentic_python_coder/runner.py:78-92 | Every todo item is logged as its content and status, with empty text for a missing field. |
| ConversationLog.CallEvent | coder/src/agentic_python_coder/runner.py:67-129 | Each known tool has its own event kind, and any other name, "unknown" when missing, is logged as a generic call. Code lengths and todo counts are recorded, and an issue is cut to its first 200 characters. |
| ConversationLog.ToolEventsEach | coder/src/agentic_python_coder/runner.py:67-129 | One event per tool call, in order. |
| ConversationLog.ResponseEvent | coder/src/agentic_python_coder/runner.py:131-149 | Any message whose content is a string is logged iff that text decodes to an object with `success`. The error is null when `success` is truthy, and otherwise the decoded error. |
| ConversationLog.AllMessageEventsAppend | coder/src/agentic_python_coder/runner.py:66-149 | The events of two message runs are the events of each, concatenated. |
| ConversationLog.StatsEvents | coder/src/agentic_python_coder/runner.py:152-163 | A statistics event is written iff statistics are present. |
| ConversationLog.FeedbackEvents | coder/src/agentic_python_coder/runner.py:165-177 | One feedback event per reported issue, in order. |
| ConversationLog.SaveConversationLog | coder/src/agentic_python_coder/runner.py:38-192 | The file name and the events written equal the specified log. |
| ConversationLog.WriteMessage | coder/src/agentic_python_coder/runner.py:66-149 | One message appends exactly its events. |
| ConversationLog.WriteFeedback | coder/src/agentic_python_coder/runner.py:165-177 | The loop appends exactly the feedback events. |
| ConversationLog.LogStartsAndCompletes | coder/src/agentic_python_coder/runner.py:62-190 | The log opens with the start event and closes with the completion event, whose status is success iff there are no issues. No event in between is a start or a completion. |
| ConversationLog.LogTail | coder/src/agentic_python_coder/runner.py:152-177 | The message events come first, then the statistics event if any, then the feedback events in order. |
| Llm.ResolveModel | coder/src/agentic_python_coder/llm.py:156-169 | A name containing `/` is used verbatim and a registered alias maps to its path. Every other name fails with the sorted list of aliases. |
| Llm.GrokUsesDefault | coder/src/agentic_python_coder/llm.py:166-169 | A model without its own configuration uses the default one. |
| Llm.ApiKey | coder/src/agentic_python_coder/llm.py:107-131 | An explicit key wins over the environment. Without either, the error names `OPENROUTER_API_KEY`. |
| Llm.BuildKwargs | coder/src/agentic_python_coder/llm.py:189-226 | GPT-5 gets no sampling parameters. Every other model gets the override temperature, else the configured one, else 0.0, and exactly the configured optional parameters. The timeout and streaming flag come from the configuration. |
| Llm.AddSampling | coder/src/agentic_python_coder/llm.py:207-222 | Only the keys present in the configuration are set, and the temperature always is. |
| Llm.OpenRouterKwargs | coder/src/agentic_python_coder/llm.py:134-231 | Resolution errors come first, then a missing key. Success is guaranteed once both succeed, and then the arguments carry the resolved model and key. |
| Llm.OnlyGptReachesGpt5 | coder/src/agentic_python_coder/llm.py:156-169 | Exactly two model arguments resolve to GPT-5, the one path built without a temperature (llm.py:202-205): the `gpt` alias and the path `openai/gpt-5` itself. |
| Cli.ValidatePackages | coder/src/agentic_python_coder/cli.py:162-177 | The front end exits with status 1 iff some specification is invalid, listing the invalid ones. |
| Cli.ValidateModel | coder/src/agentic_python_coder/cli.py:180-188 | The front end exits iff the model is neither a registered alias nor a full path. |
| Cli.ValidatedModelsResolve | coder/src/agentic_python_coder/llm.py:156-169 | A non-empty model passes the front-end check iff it resolves. The empty model is never resolved, because the agent replaces it with `default` first (coder/src/agentic_python_coder/agent.py:76). |
| Cli.ListedAliasesAreRegistry | coder/src/agentic_python_coder/cli.py:183 | The aliases the error lists are the registry's keys other than `default`, in strictly increasing order. |
| Cli.CheckTask | coder/src/agentic_python_coder/cli.py:348-354 | Without a task the front end exits, unless it is interactive. |
| Cli.TaskContent | coder/src/agentic_python_coder/cli.py:338-342 | A task file wins over the inline task. |
| Cli.ReadTaskFile | coder/src/agentic_python_coder/cli.py:319-324 | A `--task` naming a missing file exits with status 1 and "Error: Task file not found: " plus the path; otherwise the task text is the file's content, or absent without `--task`. The older front end does the same at coder/src/coder/cli.py:135-140. |
| Cli.MainChecks | coder/src/agentic_python_coder/cli.py:319-354 | The task file is read first; then the checks run in the order packages, model, task, and the first failure decides the exit, always with status 1. |
| Cli.MissingTaskFileFirst | coder/src/agentic_python_coder/cli.py:319-346 | A missing task file ends the run before the packages or the model are looked at, whatever they are. |
| Cli.CoderCheckPackages | coder/src/coder/cli.py:163-190 | The older front end rejects exactly the same specifications, with its own message. |
| Cli.CoderCheckModel | coder/src/coder/cli.py:192-210 | The older front end rejects a model iff it is neither in its registry nor a full path. |
| Cli.CoderCheckTask | coder/src/coder/cli.py:212-218 | The older front end always requires a task. |
| Cli.InteractiveExemption | coder/src/agentic_python_coder/cli.py:348-354 | The current task check is the older one (coder/src/coder/cli.py:212-218) plus an exemption for interactive mode: they agree when interactive mode is off, and with it on the current check never fails. |
| Cli.AddCounts | coder/src/coder/cli.py:597-600 | The merged tool counts are the per-tool sums over both maps. |
| Cli.CumulativeStats.constructor | coder/src/coder/cli.py:575-579 | The running totals start at zero. |
| Cli.CumulativeStats.AddTurn | coder/src/coder/cli.py:597-611 | One turn adds its tool counts to the totals and its token counts to the token totals. |
| Cli.CumulativeStats.AddTurns | coder/src/coder/cli.py:581-618 | After any number of turns the totals are the sums over all turns. |
| Cli.AfterTurnsSums | coder/src/coder/cli.py:597-611 | Applying the turns one by one adds, for each tool and each token counter, the sum of that count over all turns. |
| Cli.AddCountsAssoc | coder/src/coder/cli.py:597-600 | Merging is associative. |
| Cli.SumCountsTotals | coder/src/coder/cli.py:597-600 | The merged count of a tool is its total over the turns. |
| Cli.CumulativeIsSum | coder/src/coder/cli.py:597-600 | A tool's cumulative count is the sum of its per-turn counts. |

## Left out

- The transport to the interpreter (ZeroMQ channels, the readiness handshake, process spawning) is not modelled. Its outcomes arrive as `LaunchEnv` values and as the message sequence.
- Locks and the `atexit` hook are left out; the model is sequential.
- Statistics are always whole numbers, and execution time (a float) is left out.
- `load_prompt`, `read_file`, `write_file`, `list_files` and `delete_file` are left out as file I/O; only the missing-prompt-file error is modelled.
- `check_packages_available` runs an installer subprocess, so its result is a parameter (`unavailable`).
- The startup code the session runs is left out.
- Display, printing and progress output are left out.
- `reset_global_state` and dotenv loading are left out.
- The output formatter returns the JSON object; `json.dumps` text layout is not modelled.
- Paths are resolved lexically; symbolic links are not followed.
- The construction of the chat client object is left out. `Llm.BuildKwargs` returns its arguments as a record.
- Decimal configuration values (temperature, top_p) are kept as their literal text.
- coder/src/coder/cli.py:21 imports `MODEL_REGISTRY` from coder/src/coder/llm.py, which does not define it, so importing the older front end fails before any of its checks can run. `Cli.CoderCheckModel` models the check as if the import succeeded, with the registry as a parameter.
- ConversationLog.ResponseEvent: the source crashes when a tool reply decodes to a JSON array or string containing `success`. The model logs no event for such replies.
- Tools.ToolState.TodoWrite: a status or priority given as a dictionary is reported as `{...}`, not as Python prints it, because a JSON object is modelled as an unordered map and Python prints a dictionary's entries in insertion order. Inside a quoted string, characters other than the backslash, the quote and `\n`, `\r`, `\t` are kept as they are; Python's repr also escapes non-printable characters.
- Tools.PackagesEnv: when no package list is given, the agent leaves `CODER_WITH_PACKAGES` as it was (coder/src/agentic_python_coder/agent.py:69-72), so a value set by an earlier run in the same process still reaches `python_exec`. The model reads None as an unset variable.
- Agent.CombinedPrompt: the missing-file message shows the path as given; Python formats the `Path` object, which normalises it (a trailing `/` or a `./` prefix disappears).
- `parse_project_file` raises `FileNotFoundError` for a missing file before reading it. Reading is file I/O, so the model starts from the file's text.
- ConversationLog.LogFileName: a basename containing `/` would write into a sub-directory; the model keeps the name as text.
- The agent's message stream (LangGraph chunks and nodes) is flattened into the sequence of messages it delivers, and the step limit is only computed, not enforced.
- Tool arguments arrive already typed; argument validation by LangChain is not modelled.
- coder/src/coder/agent.py is not part of this model.
- The agentic_python_coder copy of the tools module is not part of this model. The `coder` copy is modelled.
