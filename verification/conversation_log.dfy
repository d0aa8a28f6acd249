/** The JSON Lines conversation log written after a run: one event per line,
    a start event, one event per tool call and per tool response, the
    statistics, the agent's feedback, and a completion event. Each line is
    modelled as an `Event` record; the JSON text of a line is not modelled. */
module ConversationLog {
  import opened Wrappers
  import opened Text
  import opened Json
  import opened Agent

  datatype Event =
    | Start(task: string)
    | TodoUpdate(count: nat, tasks: seq<(Json, Json)>)
    | PythonExecEvent(codeLength: nat)
    | SaveCodeEvent(codeLength: nat)
    | ReportIssueEvent(issue: string)
    | ToolCallEvent(tool: string)
    | ToolResponse(success: Json, error: Json)
    | Statistics(toolUsage: Json, tokens: Json, executionTime: Json)
    | AgentFeedback(content: Json)
    | Complete(status: string)

  /** The longest issue text a report_issue event carries. */
  const IssueLimit := 200

  /** dict.get(key, default) on a JSON object. */
  function FieldOr(o: Object, key: string, default: Json): Json {
    if key in o then o[key] else default
  }

  /** The log's file name: "<basename>.jsonl", or "log.jsonl" without a basename. */
  function LogFileName(basename: Option<string>): (r: string)
    ensures EndsWith(r, ".jsonl")
    ensures Given(basename) ==> r[..|r| - 6] == basename.value
    ensures !Given(basename) ==> r == "log.jsonl"
  {
    if Given(basename) then basename.value + ".jsonl" else "log.jsonl"
  }

  /** solve_task: the log's file name, or None when no log is saved. */
  function SolveTaskLogName(saveLog: bool, basename: Option<string>): (r: Option<string>)
    ensures r.None? <==> !saveLog
    ensures r.Some? ==> r.value == LogFileName(basename)
  {
    if saveLog then Some(LogFileName(basename)) else None
  }

  /** The label the start event carries: the basename, or "inline". */
  function TaskLabel(basename: Option<string>): string {
    if Given(basename) then basename.value else "inline"
  }

  /** The completion status: plain success iff nobody reported an issue. */
  function Status(issues: seq<Object>): (r: string)
    ensures r == "success" <==> issues == []
    ensures r == "success" || r == "success_with_issues"
  {
    if issues == [] then "success" else "success_with_issues"
  }

  /** The tools whose calls get their own kind of event. */
  const KnownTools: set<string> := {"todo_write", "python_exec", "save_code", "report_issue"}

  /** The content and status of each todo item, "" where missing. */
  function TaskSummaries(todos: seq<Object>): (r: seq<(Json, Json)>)
    ensures |r| == |todos|
    ensures forall i :: 0 <= i < |todos| ==>
      r[i] == (FieldOr(todos[i], "content", JStr("")), FieldOr(todos[i], "status", JStr("")))
  {
    seq(|todos|, i requires 0 <= i < |todos| => (FieldOr(todos[i], "content", JStr("")), FieldOr(todos[i], "status", JStr(""))))
  }

  /** The event for one tool call, chosen by the call's name ("unknown" when
      it has none). */
  function CallEvent(tc: ToolCall): (r: Event)
    ensures var name := tc.name.GetOr("unknown");
      (r.TodoUpdate? <==> name == "todo_write") &&
      (r.PythonExecEvent? <==> name == "python_exec") &&
      (r.SaveCodeEvent? <==> name == "save_code") &&
      (r.ReportIssueEvent? <==> name == "report_issue") &&
      (r.ToolCallEvent? <==> name !in KnownTools) &&
      (r.ToolCallEvent? ==> r.tool == name)
    ensures r.TodoUpdate? ==> r.count == |r.tasks| == |tc.args.todos.GetOr([])|
    ensures r.PythonExecEvent? || r.SaveCodeEvent? ==> r.codeLength == |tc.args.code.GetOr("")|
    ensures r.ReportIssueEvent? ==>
      var text := tc.args.text.GetOr("");
      |r.issue| <= IssueLimit && StartsWith(text, r.issue) && (|text| <= IssueLimit ==> r.issue == text)
  {
    var name := tc.name.GetOr("unknown");
    if name == "todo_write" then
      var todos := tc.args.todos.GetOr([]);
      TodoUpdate(|todos|, TaskSummaries(todos))
    else if name == "python_exec" then PythonExecEvent(|tc.args.code.GetOr("")|)
    else if name == "save_code" then SaveCodeEvent(|tc.args.code.GetOr("")|)
    else if name == "report_issue" then ReportIssueEvent(Take(tc.args.text.GetOr(""), IssueLimit))
    else ToolCallEvent(name)
  }

  /** The events of a message's tool calls, in order. */
  function ToolEvents(calls: seq<ToolCall>): seq<Event>
    decreases |calls|
  {
    if calls == [] then [] else ToolEvents(calls[..|calls| - 1]) + [CallEvent(calls[|calls| - 1])]
  }

  /** Exactly one event per tool call, in the order of the calls. */
  lemma {:induction false} ToolEventsEach(calls: seq<ToolCall>)
    ensures |ToolEvents(calls)| == |calls|
    ensures forall i :: 0 <= i < |calls| ==> ToolEvents(calls)[i] == CallEvent(calls[i])
    decreases |calls|
  {
    if calls != [] {
      var init := calls[..|calls| - 1];
      ToolEventsEach(init);
      forall i | 0 <= i < |init| ensures ToolEvents(calls)[i] == CallEvent(calls[i]) {
        assert init[i] == calls[i];
      }
    }
  }

  /** The tool_response event for a message's content, if any: only string
      content that decodes to a JSON object holding "success" has one.
      `decode` stands for json.loads, None when the text is not JSON. */
  function ResponseEvent(content: Content, decode: string -> Option<Json>): (r: Option<Event>)
    ensures r.Some? <==> (content.Text? && decode(content.text).Some? && decode(content.text).value.JObj? &&
      "success" in decode(content.text).value.fields)
    ensures r.Some? ==> r.value.ToolResponse? && r.value.success == decode(content.text).value.fields["success"]
    ensures r.Some? && Truthy(r.value.success) ==> r.value.error == JNull
    ensures r.Some? && !Truthy(r.value.success) ==>
      r.value.error == FieldOr(decode(content.text).value.fields, "error", JNull)
  {
    if content.Text? then
      match decode(content.text)
      case Some(JObj(fields)) =>
        if "success" in fields then
          var success := fields["success"];
          Some(ToolResponse(success, if !Truthy(success) then FieldOr(fields, "error", JNull) else JNull))
        else None
      case _ => None
    else None
  }

  function OptionEvents(e: Option<Event>): seq<Event> {
    if e.Some? then [e.value] else []
  }

  /** The events of one message: its tool calls, then its tool response. */
  function MessageEvents(m: Message, decode: string -> Option<Json>): seq<Event> {
    ToolEvents(m.toolCalls) + OptionEvents(ResponseEvent(m.content, decode))
  }

  /** The events of all messages, in message order. */
  function AllMessageEvents(messages: seq<Message>, decode: string -> Option<Json>): seq<Event>
    decreases |messages|
  {
    if messages == [] then []
    else AllMessageEvents(messages[..|messages| - 1], decode) + MessageEvents(messages[|messages| - 1], decode)
  }

  /** The messages' events compose: the events of two runs of messages are
      those of the first followed by those of the second. */
  lemma {:induction false} AllMessageEventsAppend(a: seq<Message>, b: seq<Message>, decode: string -> Option<Json>)
    ensures AllMessageEvents(a + b, decode) == AllMessageEvents(a, decode) + AllMessageEvents(b, decode)
    decreases |b|
  {
    if b == [] {
      assert a + b == a;
    } else {
      assert (a + b)[..|a + b| - 1] == a + b[..|b| - 1];
      AllMessageEventsAppend(a, b[..|b| - 1], decode);
    }
  }

  /** The statistics event, written iff the statistics are non-empty. */
  function StatsEvents(stats: Object): (r: seq<Event>)
    ensures |r| == if stats != map[] then 1 else 0
  {
    if stats != map[] then
      [Statistics(FieldOr(stats, "tool_usage", JObj(map[])),
                  FieldOr(stats, "token_consumption", JObj(map[])),
                  FieldOr(stats, "execution_time_seconds", JInt(0)))]
    else []
  }

  /** One feedback event per reported issue, in order. */
  function FeedbackEvents(issues: seq<Object>): (r: seq<Event>)
    ensures |r| == |issues|
    ensures forall k :: 0 <= k < |issues| ==> r[k] == AgentFeedback(FieldOr(issues[k], "content", JStr("")))
  {
    seq(|issues|, k requires 0 <= k < |issues| => AgentFeedback(FieldOr(issues[k], "content", JStr(""))))
  }

  /** The whole log, event by event. */
  function LogEvents(basename: Option<string>, messages: seq<Message>, decode: string -> Option<Json>,
                     stats: Object, issues: seq<Object>): seq<Event> {
    [Start(TaskLabel(basename))] + AllMessageEvents(messages, decode) + StatsEvents(stats) +
    FeedbackEvents(issues) + [Complete(Status(issues))]
  }

  /** save_conversation_log: write the start event, then for each message
      its tool-call events and its tool-response event, then the
      statistics, the feedback and the completion event. Returns the log's
      file name and the lines written. */
  method SaveConversationLog(basename: Option<string>, messages: seq<Message>, decode: string -> Option<Json>,
                             stats: Object, issues: seq<Object>)
    returns (name: string, log: seq<Event>)
    ensures name == LogFileName(basename)
    ensures log == LogEvents(basename, messages, decode, stats, issues)
  {
    name := LogFileName(basename);
    log := WriteMessages([Start(TaskLabel(basename))], messages, decode);
    log := log + StatsEvents(stats);
    log := WriteFeedback(log, issues);
    log := log + [Complete(Status(issues))];
  }

  /** The lines written for the messages, message by message. */
  method WriteMessages(log0: seq<Event>, messages: seq<Message>, decode: string -> Option<Json>)
    returns (log: seq<Event>)
    ensures log == log0 + AllMessageEvents(messages, decode)
  {
    log := log0;
    for i := 0 to |messages|
      invariant log == log0 + AllMessageEvents(messages[..i], decode)
    {
      log := WriteMessage(log, messages[i], decode);
      assert messages[..i + 1][..i] == messages[..i];
    }
    assert messages[..|messages|] == messages;
  }

  /** The lines written for one message. */
  method WriteMessage(log0: seq<Event>, m: Message, decode: string -> Option<Json>) returns (log: seq<Event>)
    ensures log == log0 + MessageEvents(m, decode)
  {
    log := log0;
    for j := 0 to |m.toolCalls|
      invariant log == log0 + ToolEvents(m.toolCalls[..j])
    {
      log := log + [CallEvent(m.toolCalls[j])];
      assert m.toolCalls[..j + 1][..j] == m.toolCalls[..j];
    }
    assert m.toolCalls[..|m.toolCalls|] == m.toolCalls;
    var response := ResponseEvent(m.content, decode);
    if response.Some? {
      log := log + [response.value];
    }
  }

  /** The feedback lines, one per reported issue. */
  method WriteFeedback(log0: seq<Event>, issues: seq<Object>) returns (log: seq<Event>)
    ensures log == log0 + FeedbackEvents(issues)
  {
    log := log0;
    for k := 0 to |issues|
      invariant log == log0 + FeedbackEvents(issues[..k])
    {
      log := log + [AgentFeedback(FieldOr(issues[k], "content", JStr("")))];
      assert FeedbackEvents(issues[..k + 1]) == FeedbackEvents(issues[..k]) + [AgentFeedback(FieldOr(issues[k], "content", JStr("")))];
    }
    assert issues[..|issues|] == issues;
  }

  /** Neither a start nor a completion event. */
  predicate Inner(e: Event) {
    !e.Start? && !e.Complete?
  }

  lemma {:induction false} ToolEventsInner(calls: seq<ToolCall>)
    ensures forall i :: 0 <= i < |ToolEvents(calls)| ==> Inner(ToolEvents(calls)[i])
  {
    ToolEventsEach(calls);
  }

  /** Message events are never start or completion events. */
  lemma {:induction false} MessageEventsInner(messages: seq<Message>, decode: string -> Option<Json>)
    ensures forall i :: 0 <= i < |AllMessageEvents(messages, decode)| ==> Inner(AllMessageEvents(messages, decode)[i])
    decreases |messages|
  {
    if messages != [] {
      MessageEventsInner(messages[..|messages| - 1], decode);
      ToolEventsInner(messages[|messages| - 1].toolCalls);
    }
  }

  /** The log opens with the start event carrying its label and closes with
      the completion event, and no other line is either; the status is plain
      success iff no issue was reported. */
  lemma LogStartsAndCompletes(basename: Option<string>, messages: seq<Message>, decode: string -> Option<Json>,
                              stats: Object, issues: seq<Object>)
    ensures var log := LogEvents(basename, messages, decode, stats, issues);
      |log| >= 2 && log[0] == Start(TaskLabel(basename)) && log[|log| - 1] == Complete(Status(issues)) &&
      (log[|log| - 1].status == "success" <==> issues == []) &&
      forall i :: 0 < i < |log| - 1 ==> Inner(log[i])
  {
    MessageEventsInner(messages, decode);
    var log := LogEvents(basename, messages, decode, stats, issues);
    var n := |AllMessageEvents(messages, decode)|;
    var s := |StatsEvents(stats)|;
    forall i | 0 < i < |log| - 1 ensures Inner(log[i]) {
      if i <= n {
        assert log[i] == AllMessageEvents(messages, decode)[i - 1];
      } else if i <= n + s {
        assert log[i] == StatsEvents(stats)[i - 1 - n];
      } else {
        assert log[i] == FeedbackEvents(issues)[i - 1 - n - s];
      }
    }
  }

  /** After the message events comes the statistics event, present iff the
      statistics are non-empty, and then one feedback event per reported
      issue, in order. */
  lemma LogTail(basename: Option<string>, messages: seq<Message>, decode: string -> Option<Json>,
                stats: Object, issues: seq<Object>)
    ensures var log, n := LogEvents(basename, messages, decode, stats, issues), |AllMessageEvents(messages, decode)|;
      var s := if stats != map[] then 1 else 0;
      |log| == n + s + |issues| + 2 &&
      log[1..n + 1] == AllMessageEvents(messages, decode) &&
      (stats != map[] ==> (log[n + 1].Statistics? &&
        log[n + 1].toolUsage == FieldOr(stats, "tool_usage", JObj(map[])) &&
        log[n + 1].tokens == FieldOr(stats, "token_consumption", JObj(map[])))) &&
      (forall k :: 0 <= k < |issues| ==> log[n + 1 + s + k] == AgentFeedback(FieldOr(issues[k], "content", JStr(""))))
  {
    FramedLayout(Start(TaskLabel(basename)), AllMessageEvents(messages, decode), StatsEvents(stats),
                 FeedbackEvents(issues), Complete(Status(issues)));
  }

  /** Where the parts of [first] + a + b + c + [last] sit. */
  lemma FramedLayout(first: Event, a: seq<Event>, b: seq<Event>, c: seq<Event>, last: Event)
    ensures var log := [first] + a + b + c + [last];
      |log| == |a| + |b| + |c| + 2 && log[1..|a| + 1] == a &&
      (b != [] ==> log[|a| + 1] == b[0]) &&
      forall k :: 0 <= k < |c| ==> log[|a| + 1 + |b| + k] == c[k]
  {
  }
}
