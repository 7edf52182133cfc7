/**
 * The main workflow step (`main_workflow_steps`): adapt the step's
 * arguments to a user input, ask the intent agent which steps to enable,
 * run the optional database step and the optional discussion step while
 * absorbing their errors, and assemble the prompt of the output agent.
 *
 * The agents, `json.loads` and the discussion team are oracles; `str()` of
 * a float score is the parameter `formatScore`.
 */
module Workflow {
  import opened Wrappers
  import Text
  import OrderedDict
  import DiscussionTeam

  // ----- Adapting the step's arguments -----

  /**
   * The kinds of value the step receives as its execution input, in the
   * order the source probes them: a `str`, an object with
   * `get_input_as_string()`, one with an `input` attribute, one with a
   * `content` attribute, a `dict`, or anything else (`repr` is its `str()`,
   * `truthy` its `bool()`: `0` or `[]` is falsy).
   */
  datatype ExecInput =
    | NoneInput
    | Str(s: string)
    | InputAsString(asString: string)
    | InputAttr(input: string)
    | ContentAttr(content: string)
    | DictInput(entries: OrderedDict.Dict<string, string>, repr: string)
    | Other(repr: string, truthy: bool)

  predicate Truthy(e: ExecInput)
  {
    match e
    case NoneInput => false
    case Str(s) => s != ""
    case DictInput(entries, _) => |entries| > 0
    case Other(_, truthy) => truthy
    case _ => true
  }

  /**
   * `kwargs.get('execution_input') or kwargs.get('input')`, then, only if
   * that is `None`, the sole positional argument or the second of several.
   * An absent keyword argument is passed as `NoneInput`.
   */
  function ExecutionInput(kwExecutionInput: ExecInput, kwInput: ExecInput, args: seq<ExecInput>): (e: ExecInput)
    ensures Truthy(kwExecutionInput) ==> e == kwExecutionInput
    ensures !Truthy(kwExecutionInput) && kwInput != NoneInput ==> e == kwInput
    ensures !Truthy(kwExecutionInput) && kwInput == NoneInput ==>
      e == (if |args| == 0 then NoneInput else if |args| == 1 then args[0] else args[1])
  {
    var fromKwargs := if Truthy(kwExecutionInput) then kwExecutionInput else kwInput;
    if fromKwargs == NoneInput && |args| >= 1 then
      if |args| == 1 then args[0] else args[1]
    else fromKwargs
  }

  /** A `dict` value or `None`, read as `d.get(k)` in a boolean `or` chain. */
  function DictText(entries: OrderedDict.Dict<string, string>, key: string): Option<string>
  {
    var v := OrderedDict.Get(entries, key);
    if v.Some? && v.value != "" then v else None
  }

  /** The user input the step extracts from its execution input. */
  function UserInput(e: ExecInput): string
  {
    match e
    case NoneInput => "None"
    case Str(s) => s
    case InputAsString(t) => t
    case InputAttr(t) => t
    case ContentAttr(t) => t
    case DictInput(entries, repr) =>
      if DictText(entries, "input").Some? then DictText(entries, "input").value
      else if DictText(entries, "user_input").Some? then DictText(entries, "user_input").value
      else repr
    case Other(repr, _) => repr
  }

  // ----- The intent -----

  /**
   * A JSON value as far as the step uses it: its truthiness and its
   * `str()`. Numbers, arrays and objects are `JOther`.
   */
  datatype Json = JNull | JBool(b: bool) | JStr(s: string) | JOther(truthy: bool, text: string)

  predicate JsonTruthy(j: Json)
  {
    match j
    case JNull => false
    case JBool(b) => b
    case JStr(s) => s != ""
    case JOther(t, _) => t
  }

  function JsonText(j: Json): string
  {
    match j
    case JNull => "None"
    case JBool(b) => Text.BoolToString(b)
    case JStr(s) => s
    case JOther(_, t) => t
  }

  /** What `json.loads` gives: a decode error, a top-level object, or another top-level value. */
  datatype Parsed =
    | DecodeError
    | JsonObject(fields: OrderedDict.Dict<string, Json>)
    | NotAnObject(typeName: string)

  /**
   * The text handed to `json.loads`: from the first `{` through the last
   * `}` when the last `}` lies after the first `{`, otherwise everything.
   */
  function JsonSpan(content: string): (r: string)
    ensures (exists i, j :: 0 <= i < j < |content| && content[i] == '{' && content[j] == '}') ==>
      exists i, j :: 0 <= i < j < |content| && r == content[i..j + 1]
        && content[i] == '{' && '{' !in content[..i]
        && content[j] == '}' && '}' !in content[j + 1..]
    ensures !(exists i, j :: 0 <= i < j < |content| && content[i] == '{' && content[j] == '}') ==> r == content
  {
    var start := Text.Find(content, '{');
    var end := Text.RFind(content, '}') + 1;
    if start >= 0 && end > start then
      assert content[end - 1] == '}';
      content[start..end]
    else
      content
  }

  /** The flags and the summary the later steps use. */
  datatype Intent = Intent(enableDb: bool, enableDiscussion: bool, summary: string)

  const NoIntentSummary: string := "未识别到明确意图"

  function GetOr(fields: OrderedDict.Dict<string, Json>, key: string, default: Json): Json
  {
    OrderedDict.Get(fields, key).GetOr(default)
  }

  /**
   * Reading the parsed intent: a decode error disables both steps and keeps
   * the raw reply as summary; missing keys default to disabled steps and a
   * fixed summary; a top-level value that is not an object makes `.get`
   * raise, which the step does not catch.
   */
  function Interpret(content: string, parsed: Parsed): (r: Result<Intent>)
    ensures parsed.DecodeError? ==> r == Ok(Intent(false, false, content))
    ensures parsed.JsonObject? ==> r.Ok?
    ensures parsed.JsonObject? && "enable_db_agent" !in OrderedDict.Keys(parsed.fields) ==> !r.value.enableDb
    ensures parsed.JsonObject? && "enable_discussion_team" !in OrderedDict.Keys(parsed.fields) ==>
      !r.value.enableDiscussion
    ensures parsed.JsonObject? && "intent_summary" !in OrderedDict.Keys(parsed.fields) ==>
      r.value.summary == NoIntentSummary
    ensures parsed.JsonObject? && "enable_db_agent" in OrderedDict.Keys(parsed.fields) ==>
      r.value.enableDb == JsonTruthy(OrderedDict.Get(parsed.fields, "enable_db_agent").value)
    ensures parsed.JsonObject? && "enable_discussion_team" in OrderedDict.Keys(parsed.fields) ==>
      r.value.enableDiscussion == JsonTruthy(OrderedDict.Get(parsed.fields, "enable_discussion_team").value)
    ensures parsed.JsonObject? && "intent_summary" in OrderedDict.Keys(parsed.fields) ==>
      r.value.summary == JsonText(OrderedDict.Get(parsed.fields, "intent_summary").value)
    ensures r.Err? <==> parsed.NotAnObject?
  {
    match parsed
    case DecodeError => Ok(Intent(false, false, content))
    case NotAnObject(typeName) => Err("'" + typeName + "' object has no attribute 'get'")
    case JsonObject(fields) =>
      Ok(Intent(JsonTruthy(GetOr(fields, "enable_db_agent", JBool(false))),
                JsonTruthy(GetOr(fields, "enable_discussion_team", JBool(false))),
                JsonText(GetOr(fields, "intent_summary", JStr(NoIntentSummary)))))
  }

  // ----- The optional steps -----

  /** The database agent's prompt. */
  function DbInput(userInput: string, summary: string): string
  {
    "用户问题：" + userInput + "\n            \n意图分析：" + summary
      + "\n\n请根据用户问题执行相应的数据库查询，返回查询结果。"
  }

  /** The database step's content: the agent's reply, or the error text that replaces a failure. */
  function DbContent(reply: Result<string>): string
  {
    match reply
    case Ok(c) => c
    case Err(e) => "数据库查询过程中出现错误: " + e
  }

  /** The discussion context: the database content, only when that step ran and produced text. */
  function DiscussionContext(enableDb: bool, dbContent: Option<string>): (ctx: Option<string>)
    ensures ctx.Some? <==> enableDb && dbContent.Some? && dbContent.value != ""
    ensures ctx.Some? ==> ctx.value == "数据查询结果：\n" + dbContent.value
  {
    if enableDb && dbContent.Some? && dbContent.value != "" then Some("数据查询结果：\n" + dbContent.value)
    else None
  }

  /** The rounds and threshold part every evaluation line ends with. */
  function RoundsLine(res: DiscussionTeam.DiscussionResult): string
  {
    "讨论轮次: " + Text.NatToString(res.totalRounds) + ", 达到阈值: " + Text.BoolToString(res.reachedThreshold)
  }

  /** The evaluation line; the score appears only when the discussion reported one. */
  function EvalInfo(res: DiscussionTeam.DiscussionResult, formatScore: real -> string): (r: string)
    ensures (|r| >= 6 && r[..6] == "讨论评估分数") <==> res.finalScore.Some?
    ensures |r| >= |RoundsLine(res)| && r[|r| - |RoundsLine(res)|..] == RoundsLine(res)
  {
    if res.finalScore.Some? then "讨论评估分数: " + formatScore(res.finalScore.value) + "/10, " + RoundsLine(res)
    else
      assert RoundsLine(res)[2] == '轮';
      RoundsLine(res)
  }

  /** The discussion step's content and evaluation line, a failure replaced by error texts. */
  function DiscussionSection(res: Result<DiscussionTeam.DiscussionResult>, formatScore: real -> string): (string, string)
  {
    match res
    case Ok(d) => (d.discussionResult, EvalInfo(d, formatScore))
    case Err(e) => ("讨论团队讨论过程中出现错误: " + e, "讨论评估失败")
  }

  // ----- The output prompt -----

  const NoDbQuery: string := "未执行数据库查询"
  const NoDiscussion: string := "未执行讨论团队讨论"
  const Closing: string := "\n\n请基于以上信息，生成一个完整、清晰、友好的回复给用户。"

  /** The parts of the output prompt, in order. */
  function OutputParts(userInput: string, summary: string, enableDb: bool, dbContent: Option<string>,
                       enableDiscussion: bool, discussionContent: Option<string>, evalInfo: Option<string>)
    : (parts: seq<string>)
    ensures 4 <= |parts| <= 5
    ensures parts[0] == "用户问题：" + userInput && parts[1] == "意图分析：" + summary
    ensures parts[2] == if enableDb && dbContent.Some? && dbContent.value != "" then "数据库查询结果：\n" + dbContent.value
                        else NoDbQuery
    ensures parts[3] == if enableDiscussion && discussionContent.Some? && discussionContent.value != ""
                        then "讨论团队讨论结果：\n" + discussionContent.value else NoDiscussion
    ensures |parts| == 5 <==> enableDiscussion && discussionContent.Some? && discussionContent.value != ""
                              && evalInfo.Some? && evalInfo.value != ""
    ensures |parts| == 5 ==> parts[4] == "讨论评估信息：" + evalInfo.value
  {
    var head := ["用户问题：" + userInput, "意图分析：" + summary];
    var db := if enableDb && dbContent.Some? && dbContent.value != "" then ["数据库查询结果：\n" + dbContent.value]
              else [NoDbQuery];
    var upToDb := head + db;
    if enableDiscussion && discussionContent.Some? && discussionContent.value != "" then
      var withDiscussion := upToDb + ["讨论团队讨论结果：\n" + discussionContent.value];
      if evalInfo.Some? && evalInfo.value != "" then withDiscussion + ["讨论评估信息：" + evalInfo.value]
      else withDiscussion
    else upToDb + [NoDiscussion]
  }

  // ----- The whole step -----

  /** The agent calls the step makes, in order. */
  datatype AgentCall =
    | IntentCall(input: string)
    | DbCall(input: string)
    | DiscussionCall(query: string, context: Option<string>)
    | OutputCall(input: string)

  /** The output agent's reply (or the error that escapes the step) and the calls made. */
  datatype WorkflowRun = WorkflowRun(outcome: Result<string>, calls: seq<AgentCall>)

  /** The oracles of one step: the three agents, `json.loads`, the discussion team and `str()` of a score. */
  datatype Agents = Agents(
    intent: string -> Result<string>,
    parseJson: string -> Parsed,
    db: string -> Result<string>,
    // `discussion_team.run(query, context)`; for a team with given settings and
    // agents this is `DiscussionTeam.Outcome(DiscussionTeam.Discussion(...))`,
    // the function `DiscussionTeam.DiscussionTeam.Run` is proved to compute
    discussion: (string, Option<string>) -> Result<DiscussionTeam.DiscussionResult>,
    formatScore: real -> string,
    output: string -> Result<string>)

  /** `main_workflow_steps` as a function of its arguments and oracles. */
  function MainWorkflow(kwExecutionInput: ExecInput, kwInput: ExecInput, args: seq<ExecInput>, agents: Agents): WorkflowRun
  {
    var userInput := UserInput(ExecutionInput(kwExecutionInput, kwInput, args));
    var c0 := [IntentCall(userInput)];
    match agents.intent(userInput)
    case Err(e) => WorkflowRun(Err(e), c0)
    case Ok(content) =>
      match Interpret(content, agents.parseJson(JsonSpan(content)))
      case Err(e) => WorkflowRun(Err(e), c0)
      case Ok(intent) => AfterIntent(userInput, intent, agents, c0)
  }

  /** The database step's content, `None` when the step is disabled. */
  function DbStep(userInput: string, intent: Intent, agents: Agents): Option<string>
  {
    if intent.enableDb then Some(DbContent(agents.db(DbInput(userInput, intent.summary)))) else None
  }

  /** The parts of the output prompt once the intent is known: each optional step's content, or its marker. */
  function PromptParts(userInput: string, intent: Intent, agents: Agents): seq<string>
  {
    var dbContent := DbStep(userInput, intent, agents);
    var ctx := DiscussionContext(intent.enableDb, dbContent);
    var section := DiscussionSection(agents.discussion(userInput, ctx), agents.formatScore);
    OutputParts(userInput, intent.summary, intent.enableDb, dbContent, intent.enableDiscussion,
                if intent.enableDiscussion then Some(section.0) else None,
                if intent.enableDiscussion then Some(section.1) else None)
  }

  /** The steps after the intent was read: the optional database and discussion steps, then the output agent. */
  function AfterIntent(userInput: string, intent: Intent, agents: Agents, c0: seq<AgentCall>): WorkflowRun
  {
    var c1 := if intent.enableDb then c0 + [DbCall(DbInput(userInput, intent.summary))] else c0;
    var ctx := DiscussionContext(intent.enableDb, DbStep(userInput, intent, agents));
    var c2 := if intent.enableDiscussion then c1 + [DiscussionCall(userInput, ctx)] else c1;
    var prompt := Text.Join(PromptParts(userInput, intent, agents), "\n\n") + Closing;
    WorkflowRun(agents.output(prompt), c2 + [OutputCall(prompt)])
  }

  /** The output agent's prompt, built part by part as the step does. */
  method AssembleOutput(userInput: string, intentSummary: string, enableDbAgent: bool, dbResultContent: Option<string>,
                        enableDiscussionTeam: bool, discussionResultContent: Option<string>,
                        discussionEvaluationInfo: Option<string>)
    returns (outputInput: string)
    ensures outputInput == Text.Join(OutputParts(userInput, intentSummary, enableDbAgent, dbResultContent,
                                                 enableDiscussionTeam, discussionResultContent,
                                                 discussionEvaluationInfo), "\n\n") + Closing
  {
    var outputParts := ["用户问题：" + userInput, "意图分析：" + intentSummary];
    if enableDbAgent && dbResultContent.Some? && dbResultContent.value != "" {
      outputParts := outputParts + ["数据库查询结果：\n" + dbResultContent.value];
    } else {
      outputParts := outputParts + [NoDbQuery];
    }
    if enableDiscussionTeam && discussionResultContent.Some? && discussionResultContent.value != "" {
      outputParts := outputParts + ["讨论团队讨论结果：\n" + discussionResultContent.value];
      if discussionEvaluationInfo.Some? && discussionEvaluationInfo.value != "" {
        outputParts := outputParts + ["讨论评估信息：" + discussionEvaluationInfo.value];
      }
    } else {
      outputParts := outputParts + [NoDiscussion];
    }
    outputInput := Text.Join(outputParts, "\n\n") + Closing;
  }

  /** The step itself, building the output parts by successive appends. */
  method MainWorkflowSteps(kwExecutionInput: ExecInput, kwInput: ExecInput, args: seq<ExecInput>, agents: Agents)
    returns (r: Result<string>, calls: seq<AgentCall>)
    ensures WorkflowRun(r, calls) == MainWorkflow(kwExecutionInput, kwInput, args, agents)
  {
    var executionInput := ExecutionInput(kwExecutionInput, kwInput, args);
    var userInput := UserInput(executionInput);

    calls := [IntentCall(userInput)];
    var intentResult := agents.intent(userInput);
    if intentResult.Err? {
      return Err(intentResult.error), calls;
    }
    var intentContent := intentResult.value;

    var intent := ReadIntent(intentContent, agents.parseJson(JsonSpan(intentContent)));
    if intent.Err? {
      return Err(intent.error), calls;
    }
    r, calls := RunSteps(userInput, intent.value.enableDb, intent.value.enableDiscussion, intent.value.summary,
                         agents, calls);
  }

  /**
   * The flags and the summary read off the intent agent's reply; a reply
   * that parses to something other than an object makes `.get` raise.
   */
  method ReadIntent(intentContent: string, parsed: Parsed) returns (r: Result<Intent>)
    ensures r == Interpret(intentContent, parsed)
  {
    var enableDbAgent, enableDiscussionTeam, intentSummary;
    match parsed {
      case DecodeError =>
        enableDbAgent, enableDiscussionTeam, intentSummary := false, false, intentContent;
      case NotAnObject(typeName) =>
        return Err("'" + typeName + "' object has no attribute 'get'");
      case JsonObject(fields) =>
        enableDbAgent := JsonTruthy(GetOr(fields, "enable_db_agent", JBool(false)));
        enableDiscussionTeam := JsonTruthy(GetOr(fields, "enable_discussion_team", JBool(false)));
        intentSummary := JsonText(GetOr(fields, "intent_summary", JStr(NoIntentSummary)));
    }
    r := Ok(Intent(enableDbAgent, enableDiscussionTeam, intentSummary));
  }

  /** The rest of the step once the intent is read: the optional steps, the prompt and the output agent. */
  method RunSteps(userInput: string, enableDbAgent: bool, enableDiscussionTeam: bool, intentSummary: string,
                  agents: Agents, c0: seq<AgentCall>) returns (r: Result<string>, calls: seq<AgentCall>)
    ensures WorkflowRun(r, calls) ==
            AfterIntent(userInput, Intent(enableDbAgent, enableDiscussionTeam, intentSummary), agents, c0)
  {
    ghost var intent := Intent(enableDbAgent, enableDiscussionTeam, intentSummary);
    calls := c0;
    var dbResultContent: Option<string> := None;
    if enableDbAgent {
      var dbInput := DbInput(userInput, intentSummary);
      calls := calls + [DbCall(dbInput)];
      var dbResult := agents.db(dbInput);
      if dbResult.Ok? {
        dbResultContent := Some(dbResult.value);
      } else {
        dbResultContent := Some("数据库查询过程中出现错误: " + dbResult.error);
      }
    }

    assert dbResultContent == DbStep(userInput, intent, agents);
    ghost var c1 := calls;
    assert c1 == if enableDbAgent then c0 + [DbCall(DbInput(userInput, intentSummary))] else c0;
    var discussionResultContent: Option<string> := None;
    var discussionEvaluationInfo: Option<string> := None;
    if enableDiscussionTeam {
      var discussionContext: Option<string> := None;
      if enableDbAgent && dbResultContent.Some? && dbResultContent.value != "" {
        discussionContext := Some("数据查询结果：\n" + dbResultContent.value);
      }
      calls := calls + [DiscussionCall(userInput, discussionContext)];
      var discussionResult := agents.discussion(userInput, discussionContext);
      if discussionResult.Ok? {
        discussionResultContent := Some(discussionResult.value.discussionResult);
        discussionEvaluationInfo := Some(EvalInfo(discussionResult.value, agents.formatScore));
      } else {
        discussionResultContent := Some("讨论团队讨论过程中出现错误: " + discussionResult.error);
        discussionEvaluationInfo := Some("讨论评估失败");
      }
    }

    ghost var section := DiscussionSection(agents.discussion(userInput, DiscussionContext(enableDbAgent, dbResultContent)),
                                           agents.formatScore);
    assert discussionResultContent == if enableDiscussionTeam then Some(section.0) else None;
    assert discussionEvaluationInfo == if enableDiscussionTeam then Some(section.1) else None;
    assert calls == if enableDiscussionTeam
      then c1 + [DiscussionCall(userInput, DiscussionContext(enableDbAgent, dbResultContent))] else c1;

    var outputInput := AssembleOutput(userInput, intentSummary, enableDbAgent, dbResultContent,
                                      enableDiscussionTeam, discussionResultContent, discussionEvaluationInfo);
    calls := calls + [OutputCall(outputInput)];
    r := agents.output(outputInput);
  }
}
