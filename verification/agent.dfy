/** The agent driver: the messages it exchanges, the statistics it keeps
    while the agent runs, the choice of the final response, and the prompt
    and tool list it assembles. */
module Agent {
  import opened Wrappers
  import opened Text
  import opened Json

  // ---------------------------------------------------------------------
  // Messages
  // ---------------------------------------------------------------------

  /** The arguments of a tool call, by the names the tools declare:
      `code` (python_exec, save_code), `text` (report_issue) and `todos`
      (todo_write); None when the call does not carry the argument. */
  datatype Args = Args(code: Option<string>, text: Option<string>, todos: Option<seq<Object>>)

  /** An entry of a message's tool_calls list: its id, its "name", the name
      under an OpenAI-style "function" entry, and its arguments. */
  datatype ToolCall = ToolCall(id: Option<string>, name: Option<string>, functionName: Option<string>, args: Args)

  /** An entry of additional_kwargs["tool_calls"]: its id and function name. */
  datatype RawToolCall = RawToolCall(id: Option<string>, functionName: Option<string>)

  /** Message content: a string, or a list of content blocks. */
  datatype Content = Text(text: string) | Blocks(blocks: seq<Json>)

  /** Python truthiness of the content. */
  predicate Filled(c: Content) {
    match c
    case Text(s) => s != ""
    case Blocks(b) => b != []
  }

  /** A message as the agent sees it, whether a message object or a plain
      dict: its type ("ai", "tool", "human", ...), its role, its content, its
      tool calls in both places they may appear, and the token counts in
      response_metadata["usage"] and in usage_metadata (empty when absent). */
  datatype Message = Message(
    kind: Option<string>,
    role: Option<string>,
    content: Content,
    toolCalls: seq<ToolCall>,
    rawToolCalls: seq<RawToolCall>,
    usage: map<string, nat>,
    usageMetadata: map<string, nat>)

  /** Whether the message carries tool calls, in either place. */
  predicate HasToolCalls(m: Message) {
    m.toolCalls != [] || m.rawToolCalls != []
  }

  // ---------------------------------------------------------------------
  // The final response
  // ---------------------------------------------------------------------

  /** A message get_final_response may return: no tool calls, non-empty
      content, and written by the assistant. */
  predicate Reply(m: Message) {
    !HasToolCalls(m) && Filled(m.content) && (m.kind == Some("ai") || m.role == Some("assistant"))
  }

  /** get_final_response: scan from the last message backwards and return
      the content of the first reply met. */
  function FinalResponse(messages: seq<Message>): Option<Content>
    decreases |messages|
  {
    if messages == [] then None
    else if Reply(messages[|messages| - 1]) then Some(messages[|messages| - 1].content)
    else FinalResponse(messages[..|messages| - 1])
  }

  /** The response is the content of the last reply. */
  lemma {:induction false} FinalResponseIsLastReply(messages: seq<Message>, i: nat)
    requires i < |messages| && Reply(messages[i])
    requires forall j :: i < j < |messages| ==> !Reply(messages[j])
    ensures FinalResponse(messages) == Some(messages[i].content)
    decreases |messages|
  {
    if i < |messages| - 1 {
      var init := messages[..|messages| - 1];
      assert init[i] == messages[i];
      forall j | i < j < |init| ensures !Reply(init[j]) {
        assert init[j] == messages[j];
      }
      FinalResponseIsLastReply(init, i);
    }
  }

  /** Without any reply there is no response. */
  lemma {:induction false} NoReplyNoResponse(messages: seq<Message>)
    requires forall j :: 0 <= j < |messages| ==> !Reply(messages[j])
    ensures FinalResponse(messages) == None
    decreases |messages|
  {
    if messages != [] {
      var init := messages[..|messages| - 1];
      forall j | 0 <= j < |init| ensures !Reply(init[j]) {
        assert init[j] == messages[j];
      }
      NoReplyNoResponse(init);
    }
  }

  /** Whatever is returned is the content of a reply that no later reply follows. */
  lemma {:induction false} ResponseIsReply(messages: seq<Message>)
    requires FinalResponse(messages).Some?
    ensures exists i :: (0 <= i < |messages| && Reply(messages[i]) &&
      FinalResponse(messages) == Some(messages[i].content) &&
      forall j :: i < j < |messages| ==> !Reply(messages[j]))
    decreases |messages|
  {
    var n := |messages|;
    if !Reply(messages[n - 1]) {
      var init := messages[..n - 1];
      ResponseIsReply(init);
      var i :| 0 <= i < |init| && Reply(init[i]) && FinalResponse(init) == Some(init[i].content) &&
        forall j :: i < j < |init| ==> !Reply(init[j]);
      assert init[i] == messages[i];
      forall j | i < j < n ensures !Reply(messages[j]) {
        if j < n - 1 { assert init[j] == messages[j]; }
      }
    }
  }

  /** A trailing message with tool calls is never the response: the scan
      passes over it. */
  lemma ToolCallsSkipped(messages: seq<Message>, m: Message)
    requires HasToolCalls(m)
    ensures FinalResponse(messages + [m]) == FinalResponse(messages)
  {
    assert (messages + [m])[..|messages|] == messages;
  }

  // ---------------------------------------------------------------------
  // Tool usage
  // ---------------------------------------------------------------------

  /** The name _process_tool_calls takes for a tool_calls entry: its "name",
      or failing that the function's name. */
  function CallName(tc: ToolCall): Option<string> {
    if Given(tc.name) then tc.name else tc.functionName
  }

  /** The names of the calls a message makes, in order: from tool_calls when
      it has any, otherwise from additional_kwargs. */
  function CallNames(m: Message): (r: seq<Option<string>>)
    ensures |r| == if m.toolCalls != [] then |m.toolCalls| else |m.rawToolCalls|
  {
    if m.toolCalls != [] then Names(m.toolCalls) else RawNames(m.rawToolCalls)
  }

  function Names(calls: seq<ToolCall>): (r: seq<Option<string>>)
    ensures |r| == |calls| && forall i :: 0 <= i < |calls| ==> r[i] == CallName(calls[i])
  {
    seq(|calls|, i requires 0 <= i < |calls| => CallName(calls[i]))
  }

  function RawNames(calls: seq<RawToolCall>): (r: seq<Option<string>>)
    ensures |r| == |calls| && forall i :: 0 <= i < |calls| ==> r[i] == calls[i].functionName
  {
    seq(|calls|, i requires 0 <= i < |calls| => calls[i].functionName)
  }

  /** A counter's value, 0 when absent (dict.get(k, 0)). */
  function Get(counts: map<string, nat>, k: string): nat {
    if k in counts then counts[k] else 0
  }

  /** One call counted: only a truthy name counts. */
  function Bump(usage: map<string, nat>, name: Option<string>): map<string, nat> {
    if Given(name) then usage[name.value := Get(usage, name.value) + 1] else usage
  }

  /** The usage after counting `names` in order. */
  function Tally(usage: map<string, nat>, names: seq<Option<string>>): map<string, nat>
    decreases |names|
  {
    if names == [] then usage else Bump(Tally(usage, names[..|names| - 1]), names[|names| - 1])
  }

  /** How often `x` occurs as a name. */
  function Occurrences(names: seq<Option<string>>, x: string): nat
    decreases |names|
  {
    if names == [] then 0
    else Occurrences(names[..|names| - 1], x) + (if names[|names| - 1] == Some(x) then 1 else 0)
  }

  /** Each tool's count grows by exactly the number of its calls; the empty
      name is never counted, and no other key appears. */
  lemma {:induction false} TallyCounts(usage: map<string, nat>, names: seq<Option<string>>, x: string)
    ensures Get(Tally(usage, names), x) == Get(usage, x) + (if x != "" then Occurrences(names, x) else 0)
    ensures x in Tally(usage, names) <==> x in usage || (x != "" && Occurrences(names, x) > 0)
    decreases |names|
  {
    if names != [] {
      TallyCounts(usage, names[..|names| - 1], x);
    }
  }

  /** Counting two runs of calls one after the other counts them all. */
  lemma {:induction false} TallyAppend(usage: map<string, nat>, a: seq<Option<string>>, b: seq<Option<string>>)
    ensures Tally(usage, a + b) == Tally(Tally(usage, a), b)
    decreases |b|
  {
    if b == [] {
      assert a + b == a;
    } else {
      assert (a + b)[..|a + b| - 1] == a + b[..|b| - 1];
      TallyAppend(usage, a, b[..|b| - 1]);
    }
  }

  /** Calls without a name leave the usage as it was. */
  lemma {:induction false} NamelessUncounted(usage: map<string, nat>, names: seq<Option<string>>)
    requires forall i :: 0 <= i < |names| ==> !Given(names[i])
    ensures Tally(usage, names) == usage
    decreases |names|
  {
    if names != [] {
      NamelessUncounted(usage, names[..|names| - 1]);
    }
  }

  /** current_tools after one tool_calls entry: a truthy id is mapped to the
      call's name, whatever it is. */
  function NoteCall(current: map<string, Option<string>>, tc: ToolCall): map<string, Option<string>> {
    if Given(tc.id) then current[tc.id.value := CallName(tc)] else current
  }

  /** current_tools after one additional_kwargs entry: recorded only when
      both the id and the name are truthy. */
  function NoteRawCall(current: map<string, Option<string>>, rc: RawToolCall): map<string, Option<string>> {
    if Given(rc.id) && Given(rc.functionName) then current[rc.id.value := rc.functionName] else current
  }

  /** current_tools after all of a message's calls. */
  function NoteCalls(current: map<string, Option<string>>, m: Message): map<string, Option<string>> {
    if m.toolCalls != [] then NoteCallSeq(current, m.toolCalls) else NoteRawSeq(current, m.rawToolCalls)
  }

  function NoteCallSeq(current: map<string, Option<string>>, calls: seq<ToolCall>): map<string, Option<string>>
    decreases |calls|
  {
    if calls == [] then current else NoteCall(NoteCallSeq(current, calls[..|calls| - 1]), calls[|calls| - 1])
  }

  function NoteRawSeq(current: map<string, Option<string>>, calls: seq<RawToolCall>): map<string, Option<string>>
    decreases |calls|
  {
    if calls == [] then current else NoteRawCall(NoteRawSeq(current, calls[..|calls| - 1]), calls[|calls| - 1])
  }

  /** The additional_kwargs branch records only named calls: every entry it
      adds or overwrites holds a truthy name. */
  lemma {:induction false} RawCallsRecordNames(current: map<string, Option<string>>, calls: seq<RawToolCall>, k: string)
    requires k in NoteRawSeq(current, calls)
    ensures (k in current && NoteRawSeq(current, calls)[k] == current[k]) || Given(NoteRawSeq(current, calls)[k])
    decreases |calls|
  {
    if calls != [] {
      var before := NoteRawSeq(current, calls[..|calls| - 1]);
      var rc := calls[|calls| - 1];
      if !(Given(rc.id) && Given(rc.functionName) && k == rc.id.value) {
        RawCallsRecordNames(current, calls[..|calls| - 1], k);
      }
    }
  }

  /** The sum of a token counter over both usage records of a message. */
  function Added(m: Message, usageKey: string, metadataKey: string): nat {
    Get(m.usage, usageKey) + Get(m.usageMetadata, metadataKey)
  }

  /** The counts of a sequence of messages, in order. */
  function AllNames(messages: seq<Message>): seq<Option<string>>
    decreases |messages|
  {
    if messages == [] then [] else AllNames(messages[..|messages| - 1]) + CallNames(messages[|messages| - 1])
  }

  function SumAdded(messages: seq<Message>, usageKey: string, metadataKey: string): nat
    decreases |messages|
  {
    if messages == [] then 0
    else SumAdded(messages[..|messages| - 1], usageKey, metadataKey) + Added(messages[|messages| - 1], usageKey, metadataKey)
  }

  /** The tool_calls branch of _process_tool_calls: tally every truthy
      name and note every truthy id. */
  method CountCalls(usage0: map<string, nat>, current0: map<string, Option<string>>, calls: seq<ToolCall>)
    returns (usage: map<string, nat>, current: map<string, Option<string>>)
    ensures usage == Tally(usage0, Names(calls))
    ensures current == NoteCallSeq(current0, calls)
  {
    ghost var names := Names(calls);
    usage, current := usage0, current0;
    for i := 0 to |calls|
      invariant usage == Tally(usage0, names[..i])
      invariant current == NoteCallSeq(current0, calls[..i])
    {
      var name := CallName(calls[i]);
      if Given(calls[i].id) {
        current := current[calls[i].id.value := name];
      }
      if Given(name) {
        usage := usage[name.value := Get(usage, name.value) + 1];
      }
      assert names[..i + 1][..i] == names[..i];
      assert calls[..i + 1][..i] == calls[..i];
    }
    assert names[..|calls|] == names;
    assert calls[..|calls|] == calls;
  }

  /** The additional_kwargs branch of _process_tool_calls: tally every
      truthy name and note an id only when it and the name are truthy. */
  method CountRawCalls(usage0: map<string, nat>, current0: map<string, Option<string>>, calls: seq<RawToolCall>)
    returns (usage: map<string, nat>, current: map<string, Option<string>>)
    ensures usage == Tally(usage0, RawNames(calls))
    ensures current == NoteRawSeq(current0, calls)
  {
    ghost var names := RawNames(calls);
    usage, current := usage0, current0;
    for i := 0 to |calls|
      invariant usage == Tally(usage0, names[..i])
      invariant current == NoteRawSeq(current0, calls[..i])
    {
      var name := calls[i].functionName;
      if Given(calls[i].id) && Given(name) {
        current := current[calls[i].id.value := name];
      }
      if Given(name) {
        usage := usage[name.value := Get(usage, name.value) + 1];
      }
      assert names[..i + 1][..i] == names[..i];
      assert calls[..i + 1][..i] == calls[..i];
    }
    assert names[..|calls|] == names;
    assert calls[..|calls|] == calls;
  }

  /** The statistics a run keeps: calls per tool, the three token counters,
      and the tool name recorded for each call id. */
  class RunStats {
    var toolUsage: map<string, nat>
    var inputTokens: nat
    var outputTokens: nat
    var totalTokens: nat
    var currentTools: map<string, Option<string>>

    constructor ()
      ensures toolUsage == map[] && currentTools == map[]
      ensures inputTokens == 0 && outputTokens == 0 && totalTokens == 0
    {
      toolUsage := map[];
      inputTokens, outputTokens, totalTokens := 0, 0, 0;
      currentTools := map[];
    }

    /** _process_tool_calls: count each named call and note each call's id. */
    method ProcessToolCalls(m: Message)
      modifies this
      ensures toolUsage == Tally(old(toolUsage), CallNames(m))
      ensures currentTools == NoteCalls(old(currentTools), m)
      ensures inputTokens == old(inputTokens) && outputTokens == old(outputTokens) && totalTokens == old(totalTokens)
    {
      var usage, current;
      if m.toolCalls != [] {
        usage, current := CountCalls(toolUsage, currentTools, m.toolCalls);
      } else {
        usage, current := CountRawCalls(toolUsage, currentTools, m.rawToolCalls);
      }
      toolUsage, currentTools := usage, current;
    }

    /** _update_token_stats: add the usage from response_metadata and, on
      top of it, the usage_metadata, so a message reporting both is counted
      twice. */
    method UpdateTokenStats(m: Message)
      modifies this
      ensures inputTokens == old(inputTokens) + Added(m, "prompt_tokens", "input_tokens")
      ensures outputTokens == old(outputTokens) + Added(m, "completion_tokens", "output_tokens")
      ensures totalTokens == old(totalTokens) + Added(m, "total_tokens", "total_tokens")
      ensures toolUsage == old(toolUsage) && currentTools == old(currentTools)
    {
      if m.usage != map[] {
        inputTokens := inputTokens + Get(m.usage, "prompt_tokens");
        outputTokens := outputTokens + Get(m.usage, "completion_tokens");
        totalTokens := totalTokens + Get(m.usage, "total_tokens");
      }
      if m.usageMetadata != map[] {
        inputTokens := inputTokens + Get(m.usageMetadata, "input_tokens");
        outputTokens := outputTokens + Get(m.usageMetadata, "output_tokens");
        totalTokens := totalTokens + Get(m.usageMetadata, "total_tokens");
      }
    }

    /** The per-message work of run_agent over the streamed messages: each
      message's calls are counted and its tokens added. */
    method Collect(messages: seq<Message>)
      modifies this
      ensures toolUsage == Tally(old(toolUsage), AllNames(messages))
      ensures inputTokens == old(inputTokens) + SumAdded(messages, "prompt_tokens", "input_tokens")
      ensures outputTokens == old(outputTokens) + SumAdded(messages, "completion_tokens", "output_tokens")
      ensures totalTokens == old(totalTokens) + SumAdded(messages, "total_tokens", "total_tokens")
    {
      for i := 0 to |messages|
        invariant toolUsage == Tally(old(toolUsage), AllNames(messages[..i]))
        invariant inputTokens == old(inputTokens) + SumAdded(messages[..i], "prompt_tokens", "input_tokens")
        invariant outputTokens == old(outputTokens) + SumAdded(messages[..i], "completion_tokens", "output_tokens")
        invariant totalTokens == old(totalTokens) + SumAdded(messages[..i], "total_tokens", "total_tokens")
      {
        ProcessToolCalls(messages[i]);
        UpdateTokenStats(messages[i]);
        assert messages[..i + 1][..i] == messages[..i];
        TallyAppend(old(toolUsage), AllNames(messages[..i]), CallNames(messages[i]));
      }
      assert messages[..|messages|] == messages;
    }
  }

  /** A run counts each tool exactly as often as the messages name it. */
  lemma RunCountsCalls(usage: map<string, nat>, messages: seq<Message>, x: string)
    requires x != ""
    ensures Get(Tally(usage, AllNames(messages)), x) == Get(usage, x) + Occurrences(AllNames(messages), x)
  {
    TallyCounts(usage, AllNames(messages), x);
  }

  // ---------------------------------------------------------------------
  // Prompt, tools and step limit
  // ---------------------------------------------------------------------

  const DefaultSystemPrompt := "You are a Python coding assistant with file and execution tools."

  /** The user's request, wrapped in <task> tags. */
  function TaskPart(task: string): string {
    "<task>\n" + task + "\n</task>"
  }

  /** The prompt parts in order: the system prompt (the string when given,
      else the file's text, else the default), the project prompt when
      given, and the wrapped task when given. `fileText` is the system
      prompt file's text; it is read only when the file is used. */
  function PromptParts(systemPrompt: Option<string>, systemPromptPath: Option<string>, fileText: string,
                       projectPrompt: Option<string>, task: Option<string>): seq<string> {
    [if Given(systemPrompt) then systemPrompt.value else if Given(systemPromptPath) then fileText else DefaultSystemPrompt] +
    (if Given(projectPrompt) then [projectPrompt.value] else []) +
    (if Given(task) then [TaskPart(task.value)] else [])
  }

  /** The system prompt comes first and is chosen by precedence; the user's
      request, when given, comes last; the project prompt is present iff given. */
  lemma PromptOrder(systemPrompt: Option<string>, systemPromptPath: Option<string>, fileText: string,
                    projectPrompt: Option<string>, task: Option<string>)
    ensures var parts := PromptParts(systemPrompt, systemPromptPath, fileText, projectPrompt, task);
      |parts| == 1 + (if Given(projectPrompt) then 1 else 0) + (if Given(task) then 1 else 0) &&
      (Given(systemPrompt) ==> parts[0] == systemPrompt.value) &&
      (!Given(systemPrompt) && Given(systemPromptPath) ==> parts[0] == fileText) &&
      (!Given(systemPrompt) && !Given(systemPromptPath) ==> parts[0] == DefaultSystemPrompt) &&
      (Given(projectPrompt) ==> parts[1] == projectPrompt.value) &&
      (Given(task) ==> parts[|parts| - 1] == TaskPart(task.value))
  {
  }

  /** The prompt assembly of create_coding_agent: append the parts, then
      join them with blank lines. A system prompt file that does not exist
      is an error; `fileText` is None then. */
  method CombinedPrompt(systemPrompt: Option<string>, systemPromptPath: Option<string>, fileText: Option<string>,
                        projectPrompt: Option<string>, task: Option<string>)
    returns (r: Result<string, string>)
    ensures !Given(systemPrompt) && Given(systemPromptPath) && fileText.None? ==>
      r == Failure("Prompt file not found: " + systemPromptPath.value)
    ensures !(!Given(systemPrompt) && Given(systemPromptPath) && fileText.None?) ==>
      r == Success(Join(PromptParts(systemPrompt, systemPromptPath, fileText.GetOr(""), projectPrompt, task), "\n\n"))
  {
    var prompts: seq<string> := [];
    if Given(systemPrompt) {
      prompts := prompts + [systemPrompt.value];
    } else if Given(systemPromptPath) {
      if fileText.None? {
        return Failure("Prompt file not found: " + systemPromptPath.value);
      }
      prompts := prompts + [fileText.value];
    } else {
      prompts := prompts + [DefaultSystemPrompt];
    }
    if Given(projectPrompt) {
      prompts := prompts + [projectPrompt.value];
    }
    if Given(task) {
      prompts := prompts + [TaskPart(task.value)];
    }
    assert prompts == PromptParts(systemPrompt, systemPromptPath, fileText.GetOr(""), projectPrompt, task);
    return Success(Join(prompts, "\n\n"));
  }

  /** The tools handed to the agent. */
  function ToolList(todo: bool): (r: seq<string>)
    ensures "python_exec" in r && "save_code" in r && "report_issue" in r
    ensures "todo_write" in r <==> todo
    ensures |r| == (if todo then 4 else 3)
  {
    ["python_exec", "save_code", "report_issue"] + (if todo then ["todo_write"] else [])
  }

  const DefaultStepLimit := 200

  /** run_agent's recursion limit: the given step limit, else 200. */
  function StepLimit(stepLimit: Option<int>): (r: int)
    ensures stepLimit.None? ==> r == DefaultStepLimit
    ensures stepLimit.Some? ==> r == stepLimit.value
  {
    stepLimit.GetOr(DefaultStepLimit)
  }
}
