/** `runExecutionForAutomation` and its prompt template
    (server/workflow/execution-step.ts). The language model is a function
    from the prompt and the tool servers to the complete list of messages it
    emits, or `None` when the message stream errors. The current time is a
    parameter. */
module ExecutionStep {
  import opened Common
  import opened Text
  import opened Store
  import opened Llm

  type LanguageModel = (string, seq<ToolServer>) -> Option<seq<Message>>

  /** `lines` joined, each followed by a line break: the text a template
      literal spells out line by line. */
  function Lines(lines: seq<string>): string
  {
    if |lines| == 0 then "" else lines[0] + "\n" + Lines(lines[1..])
  }

  lemma {:induction false} LinesAppend(a: seq<string>, b: seq<string>)
    ensures Lines(a + b) == Lines(a) + Lines(b)
  {
    if |a| == 0 {
      assert a + b == b;
    } else {
      assert (a + b)[1..] == a[1..] + b;
      LinesAppend(a[1..], b);
      calc {
        Lines(a + b);
        a[0] + "\n" + Lines(a[1..] + b);
        a[0] + "\n" + (Lines(a[1..]) + Lines(b));
        Lines(a) + Lines(b);
      }
    }
  }

  lemma SplitThree<T>(xs: seq<T>, i: nat, j: nat)
    requires i <= j <= |xs|
    ensures xs == (xs[..i] + xs[i..j]) + xs[j..]
  {
    assert xs[..j] == xs[..i] + xs[i..j];
    assert xs == xs[..j] + xs[j..];
  }

  /** The text of any run of consecutive lines occurs in the whole text. */
  lemma LinesIncludeRun(xs: seq<string>, i: nat, j: nat)
    requires i <= j <= |xs|
    ensures Includes(Lines(xs), Lines(xs[i..j]))
  {
    var a, b, c := xs[..i], xs[i..j], xs[j..];
    SplitThree(xs, i, j);
    LinesAppend(a + b, c);
    LinesAppend(a, b);
    IncludesMiddle(Lines(a), Lines(b), Lines(c));
  }

  /** The lines of the prompt before the execution context. */
  const TaskLines: seq<string> := [
    "",
    "<task>",
    "You are an AI automation executor for Home Assistant. Your job is to execute appropriate actions based on the automation instructions when triggered. You have full context of the home environment and can make intelligent decisions about how to respond to events.",
    "</task>",
    ""]

  /** The lines of the prompt after the automation. */
  const InstructionLines: seq<string> := [
    "<instructions>",
    "Follow these steps to execute this automation intelligently:",
    "",
    "1. Analyze why the automation was triggered:",
    "   - For time-based triggers: Consider the current time and day",
    "   - For state-based triggers: Consider what state changed and its significance",
    "   - For other triggers: Analyze the context of the trigger",
    "",
    "2. Determine if action needs to be taken based on:",
    "   - The automation instructions",
    "   - Current conditions in the home",
    "   - Historical patterns",
    "   - User preferences mentioned in the instructions",
    "   - Safety and comfort priorities",
    "",
    "3. If action is needed:",
    "   - Decide which Home Assistant services to call",
    "   - Execute them in the appropriate sequence",
    "   - Consider dependencies between actions",
    "   - Avoid conflicting or redundant actions",
    "   - Ensure all safety conditions are met",
    "",
    "4. Explain your reasoning and actions clearly",
    "</instructions>",
    "",
    "Based on the above information, please determine if this automation should take action right now, and if so, what actions to take. Think step by step about the context of the trigger, the current state of the home, and the intent of the automation."]

  /** The execution context and the automation, between the two fixed
      sections of the `prompt` template. */
  function ContextLines(now: string, triggerType: string, triggerInfo: string, automation: string): seq<string>
  {
    [ "<execution_context>",
      "<current_datetime>" + now + "</current_datetime>",
      "<trigger_reason>" + triggerType + "</trigger_reason>",
      "<trigger_details>" + triggerInfo + "</trigger_details>",
      "</execution_context>",
      "",
      "<automation>\n" + automation + "\n</automation>",
      "" ]
  }

  /** The lines of the `prompt` template. */
  function PromptLines(now: string, triggerType: string, triggerInfo: string, automation: string): seq<string>
  {
    TaskLines + ContextLines(now, triggerType, triggerInfo, automation) + InstructionLines
  }

  /** The `prompt` template; `now` is the text of `new Date().toISOString()`. */
  function Prompt(now: string, triggerType: string, triggerInfo: string, automation: string): string
  {
    Lines(PromptLines(now, triggerType, triggerInfo, automation))
  }

  /** Every line occurs, with its line break, in the whole text. */
  lemma LinesIncludeLine(xs: seq<string>, i: nat)
    requires i < |xs|
    ensures Includes(Lines(xs), xs[i] + "\n")
  {
    var run := xs[i..i + 1];
    assert run[0] == xs[i] && run[1..] == [];
    assert Lines(run) == xs[i] + "\n";
    LinesIncludeRun(xs, i, i + 1);
  }

  /** Whatever lines surround the context, each input appears inside its
      own tag on its own lines. */
  lemma ContextEmbedsInputs(head: seq<string>, tail: seq<string>,
                            now: string, triggerType: string, triggerInfo: string, automation: string)
    ensures var p := Lines(head + ContextLines(now, triggerType, triggerInfo, automation) + tail);
      Includes(p, "<current_datetime>" + now + "</current_datetime>" + "\n") &&
      Includes(p, "<trigger_reason>" + triggerType + "</trigger_reason>" + "\n") &&
      Includes(p, "<trigger_details>" + triggerInfo + "</trigger_details>" + "\n") &&
      Includes(p, "<automation>\n" + automation + "\n</automation>" + "\n")
  {
    var m := ContextLines(now, triggerType, triggerInfo, automation);
    var xs := head + m + tail;
    var k := |head|;
    assert xs[k + 1] == m[1] && xs[k + 2] == m[2] && xs[k + 3] == m[3] && xs[k + 6] == m[6];
    LinesIncludeLine(xs, k + 1);
    LinesIncludeLine(xs, k + 2);
    LinesIncludeLine(xs, k + 3);
    LinesIncludeLine(xs, k + 6);
  }

  /** The prompt carries the time, the trigger type, the trigger payload and
      the automation text, each inside its own tag on its own lines. */
  lemma PromptEmbedsItsInputs(now: string, triggerType: string, triggerInfo: string, automation: string)
    ensures var p := Prompt(now, triggerType, triggerInfo, automation);
      Includes(p, "<current_datetime>" + now + "</current_datetime>" + "\n") &&
      Includes(p, "<trigger_reason>" + triggerType + "</trigger_reason>" + "\n") &&
      Includes(p, "<trigger_details>" + triggerInfo + "</trigger_details>" + "\n") &&
      Includes(p, "<automation>\n" + automation + "\n</automation>" + "\n")
  {
    ContextEmbedsInputs(TaskLines, InstructionLines, now, triggerType, triggerInfo, automation);
  }

  /** How one execution ends: the signal is gone (nothing else happens),
      the model's stream fails after the prompt was sent, or one log row is
      written. */
  datatype Outcome =
    | SignalNotFound
    | ModelFailed(prompt: string)
    | Logged(prompt: string, row: AutomationLog)

  /** `db.selectFrom('signals').where('id', '==', id).executeTakeFirst()`. */
  function SignalById(signals: seq<Signal>, id: int): (r: Option<Signal>)
    ensures r.Some? ==> r.value in signals && r.value.id == id
    ensures r.None? <==> forall s :: s in signals ==> s.id != id
    ensures r.Some? ==> exists i :: 0 <= i < |signals| && signals[i] == r.value && forall j :: 0 <= j < i ==> signals[j].id != id
  {
    Find(signals, (s: Signal) => s.id == id)
  }

  /** `id` is the primary key of `signals`: no two rows share it. */
  predicate IdsUnique(signals: seq<Signal>)
  {
    forall i, j :: 0 <= i < j < |signals| ==> signals[i].id != signals[j].id
  }

  /** With the primary key in force, the row found is the one row with that
      id. */
  lemma SignalByIdIsTheRow(signals: seq<Signal>, k: nat)
    requires IdsUnique(signals) && k < |signals|
    ensures SignalById(signals, signals[k].id) == Some(signals[k])
  {
    var r := SignalById(signals, signals[k].id);
    var i :| 0 <= i < |signals| && signals[i] == r.value && forall j :: 0 <= j < i ==> signals[j].id != signals[k].id;
    assert signals[i].id == signals[k].id;
    assert !(k < i) && !(i < k);
  }

  /** The row the insert at lines 35-42 writes: its type, the signal id and
      the serialised messages; no `automationHash`. */
  function ExecuteSignalRow(signalId: int, msgs: seq<Message>): AutomationLog
  {
    AutomationLog("execute-signal", None, Some(signalId), Some(msgs))
  }

  /** What one call of `runExecutionForAutomation` does, given the signal
      rows it reads. */
  function Execution(signals: seq<Signal>, automation: Automation, signalId: int, llm: LanguageModel, now: string): (o: Outcome)
    ensures o.SignalNotFound? <==> forall s :: s in signals ==> s.id != signalId
    ensures !o.SignalNotFound? ==>
      exists s :: s in signals && s.id == signalId && o.prompt == Prompt(now, s.signalType, s.data, automation.contents)
    ensures o.ModelFailed? <==> !o.SignalNotFound? && llm(o.prompt, CreateBuiltinServers(None)).None?
    ensures o.Logged? ==>
      o.row.logType == "execute-signal" && o.row.signalId == Some(signalId) && o.row.automationHash.None? &&
      o.row.messageLog == llm(o.prompt, CreateBuiltinServers(None))
  {
    match SignalById(signals, signalId)
    case None => SignalNotFound
    case Some(signal) =>
      var prompt := Prompt(now, signal.signalType, signal.data, automation.contents);
      match llm(prompt, CreateBuiltinServers(None))
      case None => ModelFailed(prompt)
      case Some(msgs) => Logged(prompt, ExecuteSignalRow(signalId, msgs))
  }

  /** With the primary key in force, the prompt is built from the one row
      that carries the requested id. */
  lemma ExecutionUsesTheRow(signals: seq<Signal>, automation: Automation, k: nat, llm: LanguageModel, now: string)
    requires IdsUnique(signals) && k < |signals|
    ensures var o := Execution(signals, automation, signals[k].id, llm, now);
      !o.SignalNotFound? && o.prompt == Prompt(now, signals[k].signalType, signals[k].data, automation.contents)
  {
    SignalByIdIsTheRow(signals, k);
  }

  /** The log rows an outcome adds: one on success, none otherwise. */
  function RowsWritten(o: Outcome): (rows: seq<AutomationLog>)
    ensures |rows| == (if o.Logged? then 1 else 0)
  {
    if o.Logged? then [o.row] else []
  }

  /** `runExecutionForAutomation`: look the signal up again by id, send the
      prompt with the built-in tool servers, collect the whole message stream
      and only then append one `execute-signal` row. The signals table is
      only read. */
  method RunExecutionForAutomation(db: Database, automation: Automation, signalId: int, llm: LanguageModel, now: string)
    returns (o: Outcome)
    modifies db`automationLogs
    ensures o == Execution(db.signals, automation, signalId, llm, now)
    ensures db.automationLogs == old(db.automationLogs) + RowsWritten(o)
  {
    var signal := SignalById(db.signals, signalId);
    if signal.None? {
      return SignalNotFound;
    }
    var tools := CreateBuiltinServers(None);
    var prompt := Prompt(now, signal.value.signalType, signal.value.data, automation.contents);
    var msgs := llm(prompt, tools);
    if msgs.None? {
      return ModelFailed(prompt);
    }
    var row := ExecuteSignalRow(signalId, msgs.value);
    db.automationLogs := db.automationLogs + [row];
    return Logged(prompt, row);
  }

  /** The log stays append-only: whatever happens, the earlier rows are kept
      as they were, and the only row that can appear is an `execute-signal`
      row for this signal that names no automation. */
  lemma ExecutionOnlyAppends(signals: seq<Signal>, automation: Automation, signalId: int, llm: LanguageModel, now: string,
                             before: seq<AutomationLog>)
    ensures var after := before + RowsWritten(Execution(signals, automation, signalId, llm, now));
      after[..|before|] == before &&
      forall k :: |before| <= k < |after| ==>
        after[k].logType == "execute-signal" && after[k].signalId == Some(signalId) && after[k].automationHash.None?
  {
  }
}
