/** The command-line front ends' argument checks, which end the program
    with status 1, and the interactive mode's running totals. Two front ends
    are covered: the current one and the older `coder` one, which checks
    inline and without the interactive exemption. */
module Cli {
  import opened Wrappers
  import opened Text
  import opened PackageSpec
  import opened Agent
  import Llm

  /** sys.exit(status) after printing `message` (the first line printed;
      the usage lines after it are not modelled). */
  datatype Exit = Exit(status: int, message: string)

  // ---------------------------------------------------------------------
  // The current front end
  // ---------------------------------------------------------------------

  /** validate_packages: nothing to check without packages; otherwise exit
      when some specifier fails the pattern, naming all that fail. */
  function ValidatePackages(packages: Option<seq<string>>): (r: Option<Exit>)
    ensures r.None? <==> packages.None? || forall i :: 0 <= i < |packages.value| ==> IsValidSpec(packages.value[i])
    ensures r.Some? ==> (r.value.status == 1 &&
      r.value.message == "Error: Invalid package specifications: " + Join(InvalidSpecs(packages.value), ", "))
  {
    if packages.None? || packages.value == [] then None
    else
      var invalid := InvalidSpecs(packages.value);
      InvalidSpecsEmpty(packages.value);
      if invalid != [] then Some(Exit(1, "Error: Invalid package specifications: " + Join(invalid, ", ")))
      else None
  }

  /** The accepted aliases as the error lists them: sorted, without "default". */
  const ListedAliases := ["deepseek", "gemini", "gpt", "grok", "opus", "qwen", "sonnet"]

  /** validate_model: a missing or empty model, a registry alias and any
      string with a "/" pass; anything else exits. */
  function ValidateModel(model: Option<string>): (r: Option<Exit>)
    ensures r.None? <==> !Given(model) || model.value in Llm.ModelRegistry || Contains(model.value, '/')
    ensures r.Some? ==> r.value == Exit(1, "Error: Unknown model: '" + model.value + "'")
  {
    if Given(model) && model.value !in Llm.ModelRegistry && !Contains(model.value, '/') then
      Some(Exit(1, "Error: Unknown model: '" + model.value + "'"))
    else None
  }

  /** The front end lets through exactly the models the chat-model factory
      can resolve, so a run never fails later on an unknown alias. The empty
      model is not asked about: run_agent passes `model or "default"` on
      (coder/src/agentic_python_coder/agent.py:76), so it never reaches the
      factory. */
  lemma ValidatedModelsResolve(model: string)
    requires model != ""
    ensures ValidateModel(Some(model)).None? <==> Llm.ResolveModel(model).Success?
  {
  }

  /** The aliases the error lists are sorted([m for m in MODEL_REGISTRY if
      m != "default"]): exactly the registry's keys other than "default", in
      strictly increasing order. */
  lemma ListedAliasesAreRegistry()
    ensures forall a :: a in ListedAliases <==> a in Llm.ModelRegistry && a != "default"
    ensures forall i :: 0 <= i < |ListedAliases| - 1 ==> Llm.LexLess(ListedAliases[i], ListedAliases[i + 1])
  {
  }

  /** main's first check: without a request to work on, only interactive mode may go on. */
  function CheckTask(taskContent: Option<string>, interactive: bool): (r: Option<Exit>)
    ensures r.None? <==> Given(taskContent) || interactive
    ensures r.Some? ==> r.value == Exit(1, "Error: No task provided")
  {
    if !Given(taskContent) && !interactive then Some(Exit(1, "Error: No task provided")) else None
  }

  /** Reading --task before anything else: a named file that does not exist
      ends the program; otherwise its text, if a file was named. `fileText`
      is the named file's text, None when it does not exist. Both front ends
      do this first. */
  function ReadTaskFile(taskFile: Option<string>, fileText: Option<string>): (r: Result<Option<string>, Exit>)
    ensures r.Failure? <==> Given(taskFile) && fileText.None?
    ensures r.Failure? ==> r.error == Exit(1, "Error: Task file not found: " + taskFile.value)
    ensures r.Success? ==> r.value == (if Given(taskFile) then fileText else None)
  {
    if !Given(taskFile) then Success(None)
    else if fileText.None? then Failure(Exit(1, "Error: Task file not found: " + taskFile.value))
    else Success(fileText)
  }

  /** What main works on: a task file's text wins over the positional argument. */
  function TaskContent(taskFileText: Option<string>, taskInput: Option<string>): (r: Option<string>)
    ensures taskFileText.Some? ==> r == taskFileText
    ensures taskFileText.None? && Given(taskInput) ==> r == taskInput
    ensures taskFileText.None? && !Given(taskInput) ==> r.None?
  {
    if taskFileText.Some? then taskFileText else if Given(taskInput) then taskInput else None
  }

  /** main's exits in order: a missing task file, then packages, then model,
      then task; the first that fails ends the program. */
  function MainChecks(taskFile: Option<string>, fileText: Option<string>, taskInput: Option<string>,
                      packages: Option<seq<string>>, model: Option<string>, interactive: bool): (r: Option<Exit>)
    ensures ReadTaskFile(taskFile, fileText).Failure? ==> r == Some(ReadTaskFile(taskFile, fileText).error)
    ensures ReadTaskFile(taskFile, fileText).Success? ==>
      (r.None? <==> ValidatePackages(packages).None? && ValidateModel(model).None? &&
                    CheckTask(TaskContent(ReadTaskFile(taskFile, fileText).value, taskInput), interactive).None?)
    ensures ReadTaskFile(taskFile, fileText).Success? && ValidatePackages(packages).Some? ==> r == ValidatePackages(packages)
    ensures ReadTaskFile(taskFile, fileText).Success? && ValidatePackages(packages).None? && ValidateModel(model).Some? ==>
      r == ValidateModel(model)
    ensures r.Some? ==> r.value.status == 1
  {
    match ReadTaskFile(taskFile, fileText)
    case Failure(e) => Some(e)
    case Success(text) =>
      if ValidatePackages(packages).Some? then ValidatePackages(packages)
      else if ValidateModel(model).Some? then ValidateModel(model)
      else CheckTask(TaskContent(text, taskInput), interactive)
  }

  /** A missing task file ends the program even when the packages and the
      model are invalid too. */
  lemma MissingTaskFileFirst(taskFile: Option<string>, taskInput: Option<string>,
                             packages: Option<seq<string>>, model: Option<string>, interactive: bool)
    requires Given(taskFile)
    ensures MainChecks(taskFile, None, taskInput, packages, model, interactive) ==
      Some(Exit(1, "Error: Task file not found: " + taskFile.value))
  {
  }

  // ---------------------------------------------------------------------
  // The older front end
  // ---------------------------------------------------------------------

  /** The inline package check: collect the failing specifiers in a loop and
      exit if there are any. */
  method CoderCheckPackages(packages: Option<seq<string>>) returns (r: Option<Exit>)
    ensures r.None? <==> ValidatePackages(packages).None?
    ensures r.Some? ==> (r.value.status == 1 &&
      r.value.message == "\U{274C} Error: Invalid package specifications: " + Join(InvalidSpecs(packages.value), ", "))
  {
    if packages.None? || packages.value == [] {
      return None;
    }
    var invalid := CollectInvalid(packages.value);
    if invalid != [] {
      return Some(Exit(1, "\U{274C} Error: Invalid package specifications: " + Join(invalid, ", ")));
    }
    return None;
  }

  /** The inline model check. The older front end imports its alias registry
      from a module that does not define one, so the registry is a parameter
      here. */
  function CoderCheckModel(model: Option<string>, registry: set<string>): (r: Option<Exit>)
    ensures r.None? <==> !Given(model) || model.value in registry || Contains(model.value, '/')
    ensures r.Some? ==> r.value == Exit(1, "\U{274C} Error: Unknown model: '" + model.value + "'")
  {
    if Given(model) && model.value !in registry && !Contains(model.value, '/') then
      Some(Exit(1, "\U{274C} Error: Unknown model: '" + model.value + "'"))
    else None
  }

  /** The older task check has no interactive exemption. */
  function CoderCheckTask(taskContent: Option<string>): (r: Option<Exit>)
    ensures r.None? <==> Given(taskContent)
    ensures r.Some? ==> r.value == Exit(1, "Error: No task provided")
  {
    if !Given(taskContent) then Some(Exit(1, "Error: No task provided")) else None
  }

  /** The current task check is the older one with an exemption for
      interactive mode: they agree whenever interactive mode is off, and
      with it on the current one never fails. */
  lemma InteractiveExemption(taskContent: Option<string>, interactive: bool)
    ensures !interactive ==> CheckTask(taskContent, interactive) == CoderCheckTask(taskContent)
    ensures interactive ==> CheckTask(taskContent, interactive).None?
    ensures CoderCheckTask(taskContent).None? ==> CheckTask(taskContent, interactive).None?
  {
  }

  // ---------------------------------------------------------------------
  // Running totals of the older interactive mode
  // ---------------------------------------------------------------------

  /** Two sets of counts added key by key. */
  function AddCounts(a: map<string, nat>, b: map<string, nat>): (r: map<string, nat>)
    ensures r.Keys == a.Keys + b.Keys
    ensures forall k :: Get(r, k) == Get(a, k) + Get(b, k)
  {
    map k | k in a.Keys + b.Keys :: Get(a, k) + Get(b, k)
  }

  /** The per-tool counts of every turn, added up. */
  function SumCounts(turns: seq<map<string, nat>>): map<string, nat>
    decreases |turns|
  {
    if turns == [] then map[] else AddCounts(SumCounts(turns[..|turns| - 1]), turns[|turns| - 1])
  }

  /** A tool's total over the turns. */
  function TotalFor(turns: seq<map<string, nat>>, k: string): nat
    decreases |turns|
  {
    if turns == [] then 0 else TotalFor(turns[..|turns| - 1], k) + Get(turns[|turns| - 1], k)
  }

  /** The summed counts give each tool its total over all turns. */
  lemma {:induction false} SumCountsTotals(turns: seq<map<string, nat>>, k: string)
    ensures Get(SumCounts(turns), k) == TotalFor(turns, k)
    decreases |turns|
  {
    if turns != [] {
      SumCountsTotals(turns[..|turns| - 1], k);
    }
  }

  /** The running totals of an interactive session. */
  class CumulativeStats {
    var toolUsage: map<string, nat>
    var inputTokens: nat
    var outputTokens: nat
    var totalTokens: nat

    constructor ()
      ensures toolUsage == map[] && inputTokens == 0 && outputTokens == 0 && totalTokens == 0
    {
      toolUsage := map[];
      inputTokens, outputTokens, totalTokens := 0, 0, 0;
    }

    /** Add one turn's statistics: each tool's count, key by key, and the
        three token counters (0 where the turn has none). */
    method AddTurn(turnUsage: map<string, nat>, turnTokens: map<string, nat>)
      modifies this
      ensures toolUsage == AddCounts(old(toolUsage), turnUsage)
      ensures inputTokens == old(inputTokens) + Get(turnTokens, "input_tokens")
      ensures outputTokens == old(outputTokens) + Get(turnTokens, "output_tokens")
      ensures totalTokens == old(totalTokens) + Get(turnTokens, "total_tokens")
    {
      MergeUsage(turnUsage);
      inputTokens := inputTokens + Get(turnTokens, "input_tokens");
      outputTokens := outputTokens + Get(turnTokens, "output_tokens");
      totalTokens := totalTokens + Get(turnTokens, "total_tokens");
    }

    /** The tool counts of one turn, added tool by tool. */
    method MergeUsage(turnUsage: map<string, nat>)
      modifies this
      ensures toolUsage == AddCounts(old(toolUsage), turnUsage)
      ensures inputTokens == old(inputTokens) && outputTokens == old(outputTokens) && totalTokens == old(totalTokens)
    {
      ghost var before := toolUsage;
      var pending := turnUsage.Keys;
      while pending != {}
        invariant pending <= turnUsage.Keys
        invariant toolUsage.Keys == before.Keys + (turnUsage.Keys - pending)
        invariant forall k :: k in turnUsage.Keys - pending ==> Get(toolUsage, k) == Get(before, k) + Get(turnUsage, k)
        invariant forall k :: k !in turnUsage.Keys - pending ==> Get(toolUsage, k) == Get(before, k)
        invariant inputTokens == old(inputTokens) && outputTokens == old(outputTokens) && totalTokens == old(totalTokens)
        decreases pending
      {
        var tool :| tool in pending;
        toolUsage := toolUsage[tool := Get(toolUsage, tool) + turnUsage[tool]];
        pending := pending - {tool};
      }
      MapsAgree(toolUsage, AddCounts(before, turnUsage));
    }

    /** The four running totals, as a value. */
    function Snapshot(): Totals
      reads this
    {
      Totals(toolUsage, inputTokens, outputTokens, totalTokens)
    }

    /** A session's turns, one after the other. */
    method AddTurns(turns: seq<(map<string, nat>, map<string, nat>)>)
      modifies this
      ensures toolUsage == AddCounts(old(toolUsage), SumCounts(Usages(turns)))
      ensures inputTokens == old(inputTokens) + TotalFor(Tokens(turns), "input_tokens")
      ensures outputTokens == old(outputTokens) + TotalFor(Tokens(turns), "output_tokens")
      ensures totalTokens == old(totalTokens) + TotalFor(Tokens(turns), "total_tokens")
    {
      ghost var t0 := Snapshot();
      for i := 0 to |turns|
        invariant Snapshot() == AfterTurns(t0, turns[..i])
      {
        AddTurn(turns[i].0, turns[i].1);
        assert turns[..i + 1][..i] == turns[..i];
      }
      assert turns[..|turns|] == turns;
      AfterTurnsSums(t0, turns);
    }
  }

  /** The running totals as a value: tool counts and the three token counters. */
  datatype Totals = Totals(tools: map<string, nat>, input: nat, output: nat, total: nat)

  /** The totals after one more turn. */
  function AfterTurn(t: Totals, usage: map<string, nat>, tokens: map<string, nat>): Totals {
    Totals(AddCounts(t.tools, usage), t.input + Get(tokens, "input_tokens"),
           t.output + Get(tokens, "output_tokens"), t.total + Get(tokens, "total_tokens"))
  }

  /** The totals after the turns, in order. */
  function AfterTurns(t: Totals, turns: seq<(map<string, nat>, map<string, nat>)>): Totals
    decreases |turns|
  {
    if turns == [] then t
    else AfterTurn(AfterTurns(t, turns[..|turns| - 1]), turns[|turns| - 1].0, turns[|turns| - 1].1)
  }

  /** Turn after turn, the totals grow by the sums over all turns. */
  lemma AfterTurnsSums(t: Totals, turns: seq<(map<string, nat>, map<string, nat>)>)
    ensures AfterTurns(t, turns) ==
      Totals(AddCounts(t.tools, SumCounts(Usages(turns))), t.input + TotalFor(Tokens(turns), "input_tokens"),
             t.output + TotalFor(Tokens(turns), "output_tokens"), t.total + TotalFor(Tokens(turns), "total_tokens"))
  {
    ToolsAfterTurns(t, turns);
    TokensAfterTurns(t, turns);
  }

  lemma {:induction false} ToolsAfterTurns(t: Totals, turns: seq<(map<string, nat>, map<string, nat>)>)
    ensures AfterTurns(t, turns).tools == AddCounts(t.tools, SumCounts(Usages(turns)))
    decreases |turns|
  {
    if turns == [] {
      assert Usages(turns) == [];
      MapsAgree(AddCounts(t.tools, map[]), t.tools);
    } else {
      var i := |turns| - 1;
      ToolsAfterTurns(t, turns[..i]);
      var u := Usages(turns);
      assert u[..i] == Usages(turns[..i]);
      assert SumCounts(u) == AddCounts(SumCounts(Usages(turns[..i])), turns[i].0);
      AddCountsAssoc(t.tools, SumCounts(Usages(turns[..i])), turns[i].0);
    }
  }

  lemma {:induction false} TokensAfterTurns(t: Totals, turns: seq<(map<string, nat>, map<string, nat>)>)
    ensures var r := AfterTurns(t, turns);
      r.input == t.input + TotalFor(Tokens(turns), "input_tokens") &&
      r.output == t.output + TotalFor(Tokens(turns), "output_tokens") &&
      r.total == t.total + TotalFor(Tokens(turns), "total_tokens")
    decreases |turns|
  {
    if turns != [] {
      var i := |turns| - 1;
      TokensAfterTurns(t, turns[..i]);
      var u := Tokens(turns);
      assert u[..i] == Tokens(turns[..i]);
    }
  }

  /** Count maps with the same keys and the same counts are equal. */
  lemma MapsAgree(a: map<string, nat>, b: map<string, nat>)
    requires a.Keys == b.Keys
    requires forall k :: Get(a, k) == Get(b, k)
    ensures a == b
  {
    forall k | k in a ensures a[k] == b[k] {
      assert Get(a, k) == Get(b, k);
    }
  }

  /** Adding counts is associative. */
  lemma AddCountsAssoc(a: map<string, nat>, b: map<string, nat>, c: map<string, nat>)
    ensures AddCounts(AddCounts(a, b), c) == AddCounts(a, AddCounts(b, c))
  {
    MapsAgree(AddCounts(AddCounts(a, b), c), AddCounts(a, AddCounts(b, c)));
  }

  function Usages(turns: seq<(map<string, nat>, map<string, nat>)>): (r: seq<map<string, nat>>)
    ensures |r| == |turns| && forall i :: 0 <= i < |turns| ==> r[i] == turns[i].0
  {
    seq(|turns|, i requires 0 <= i < |turns| => turns[i].0)
  }

  function Tokens(turns: seq<(map<string, nat>, map<string, nat>)>): (r: seq<map<string, nat>>)
    ensures |r| == |turns| && forall i :: 0 <= i < |turns| ==> r[i] == turns[i].1
  {
    seq(|turns|, i requires 0 <= i < |turns| => turns[i].1)
  }

  /** From fresh totals, each tool's cumulative count is the sum of its
      per-turn counts, and each token counter the sum of the per-turn values. */
  lemma CumulativeIsSum(turns: seq<(map<string, nat>, map<string, nat>)>, tool: string)
    ensures Get(AddCounts(map[], SumCounts(Usages(turns))), tool) == TotalFor(Usages(turns), tool)
  {
    SumCountsTotals(Usages(turns), tool);
  }
}
