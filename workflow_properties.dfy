/**
 * What the main workflow step promises as a whole: only the intent agent,
 * a non-object intent and the output agent can make it fail; each optional
 * step runs exactly when the intent enables it; failures of those steps end
 * up as text in the output prompt; the prompt always opens with the question
 * and the intent and closes with the fixed instruction.
 */
module WorkflowProperties {
  import opened Wrappers
  import Text
  import opened Workflow

  function UserInputOf(kwExecutionInput: ExecInput, kwInput: ExecInput, args: seq<ExecInput>): string
  {
    UserInput(ExecutionInput(kwExecutionInput, kwInput, args))
  }

  /** The intent as the step reads it, or the error raised on the way. */
  function IntentOf(kwExecutionInput: ExecInput, kwInput: ExecInput, args: seq<ExecInput>, agents: Agents): Result<Intent>
  {
    match agents.intent(UserInputOf(kwExecutionInput, kwInput, args))
    case Err(e) => Err(e)
    case Ok(content) => Interpret(content, agents.parseJson(JsonSpan(content)))
  }

  /**
   * An error escapes the step only from the intent agent, from an intent
   * that is not a JSON object, or from the output agent: the database agent
   * and the discussion team may fail in any way without the step failing.
   */
  lemma OnlyIntentAndOutputFailuresEscape(kwExecutionInput: ExecInput, kwInput: ExecInput, args: seq<ExecInput>,
                                          agents: Agents)
    ensures var r := MainWorkflow(kwExecutionInput, kwInput, args, agents);
            var intent := IntentOf(kwExecutionInput, kwInput, args, agents);
            (intent.Err? ==> r.outcome == Err(intent.error)
                             && r.calls == [IntentCall(UserInputOf(kwExecutionInput, kwInput, args))])
            && (intent.Ok? ==> 2 <= |r.calls| && r.calls[|r.calls| - 1].OutputCall?
                               && r.outcome == agents.output(r.calls[|r.calls| - 1].input))
  {
  }

  /** Once the intent is read, the rest of the step is `AfterIntent`. */
  lemma ReachesAfterIntent(kwExecutionInput: ExecInput, kwInput: ExecInput, args: seq<ExecInput>, agents: Agents,
                           intent: Intent)
    requires IntentOf(kwExecutionInput, kwInput, args, agents) == Ok(intent)
    ensures var u := UserInputOf(kwExecutionInput, kwInput, args);
            MainWorkflow(kwExecutionInput, kwInput, args, agents) == AfterIntent(u, intent, agents, [IntentCall(u)])
  {
  }

  /** The call sequence of a step that got past the intent: one call per enabled step, then the output agent. */
  ghost predicate TraceShape(calls: seq<AgentCall>, u: string, intent: Intent, db: AgentCall, discussion: AgentCall,
                             output: AgentCall)
  {
    calls == [IntentCall(u)] + (if intent.enableDb then [db] else [])
             + (if intent.enableDiscussion then [discussion] else []) + [output]
  }

  /** Where each kind of call sits in a trace of that shape. */
  lemma TracePositions(calls: seq<AgentCall>, u: string, intent: Intent, db: AgentCall, discussion: AgentCall,
                       output: AgentCall)
    requires db.DbCall? && discussion.DiscussionCall? && output.OutputCall?
    requires TraceShape(calls, u, intent, db, discussion, output)
    ensures |calls| == 2 + (if intent.enableDb then 1 else 0) + (if intent.enableDiscussion then 1 else 0)
    ensures calls[0] == IntentCall(u) && calls[|calls| - 1] == output
    ensures forall i :: 0 <= i < |calls| ==> (calls[i].DbCall? <==> intent.enableDb && i == 1)
    ensures intent.enableDb ==> calls[1] == db
    ensures forall i :: 0 <= i < |calls| ==> (calls[i].DiscussionCall? <==> intent.enableDiscussion && i == |calls| - 2)
    ensures intent.enableDiscussion ==> calls[|calls| - 2] == discussion
  {
    if intent.enableDb && intent.enableDiscussion {
      assert calls == [IntentCall(u), db, discussion, output];
    } else if intent.enableDb {
      assert calls == [IntentCall(u), db, output];
    } else if intent.enableDiscussion {
      assert calls == [IntentCall(u), discussion, output];
    } else {
      assert calls == [IntentCall(u), output];
    }
  }

  /** The calls of the step: the intent agent, then one call per enabled step, then the output agent. */
  lemma StepTrace(kwExecutionInput: ExecInput, kwInput: ExecInput, args: seq<ExecInput>, agents: Agents, intent: Intent)
    requires IntentOf(kwExecutionInput, kwInput, args, agents) == Ok(intent)
    ensures var u := UserInputOf(kwExecutionInput, kwInput, args);
            TraceShape(MainWorkflow(kwExecutionInput, kwInput, args, agents).calls, u, intent,
                       DbCall(DbInput(u, intent.summary)),
                       DiscussionCall(u, DiscussionContext(intent.enableDb, DbStep(u, intent, agents))),
                       OutputCall(Text.Join(PromptParts(u, intent, agents), "\n\n") + Closing))
  {
    var u := UserInputOf(kwExecutionInput, kwInput, args);
    ReachesAfterIntent(kwExecutionInput, kwInput, args, agents, intent);
    AfterIntentCalls(u, intent, agents, [IntentCall(u)]);
  }

  /** The calls `AfterIntent` adds after `c0`. */
  lemma AfterIntentCalls(u: string, intent: Intent, agents: Agents, c0: seq<AgentCall>)
    ensures AfterIntent(u, intent, agents, c0).calls ==
            c0 + (if intent.enableDb then [DbCall(DbInput(u, intent.summary))] else [])
            + (if intent.enableDiscussion then [DiscussionCall(u, DiscussionContext(intent.enableDb, DbStep(u, intent, agents)))]
               else [])
            + [OutputCall(Text.Join(PromptParts(u, intent, agents), "\n\n") + Closing)]
  {
  }

  /**
   * Each optional step is called exactly when the intent enables it, the
   * database before the discussion, the discussion with the context
   * `DiscussionContext` gives, and the output agent last, on the assembled
   * prompt.
   */
  lemma StepGating(kwExecutionInput: ExecInput, kwInput: ExecInput, args: seq<ExecInput>, agents: Agents, intent: Intent)
    requires IntentOf(kwExecutionInput, kwInput, args, agents) == Ok(intent)
    ensures var calls := MainWorkflow(kwExecutionInput, kwInput, args, agents).calls;
            var u := UserInputOf(kwExecutionInput, kwInput, args);
            && |calls| == 2 + (if intent.enableDb then 1 else 0) + (if intent.enableDiscussion then 1 else 0)
            && calls[0] == IntentCall(u)
            && (forall i :: 0 <= i < |calls| ==> (calls[i].DbCall? <==> intent.enableDb && i == 1))
            && (intent.enableDb ==> calls[1] == DbCall(DbInput(u, intent.summary)))
            && (forall i :: 0 <= i < |calls| ==> (calls[i].DiscussionCall? <==> intent.enableDiscussion && i == |calls| - 2))
            && (intent.enableDiscussion ==>
                  calls[|calls| - 2] == DiscussionCall(u, DiscussionContext(intent.enableDb, DbStep(u, intent, agents))))
            && calls[|calls| - 1] == OutputCall(Text.Join(PromptParts(u, intent, agents), "\n\n") + Closing)
  {
    var u := UserInputOf(kwExecutionInput, kwInput, args);
    StepTrace(kwExecutionInput, kwInput, args, agents, intent);
    TracePositions(MainWorkflow(kwExecutionInput, kwInput, args, agents).calls, u, intent,
                   DbCall(DbInput(u, intent.summary)),
                   DiscussionCall(u, DiscussionContext(intent.enableDb, DbStep(u, intent, agents))),
                   OutputCall(Text.Join(PromptParts(u, intent, agents), "\n\n") + Closing));
  }

  /**
   * The output prompt's parts: a failing database step shows its error text
   * as the database result, a failing discussion shows its error text and
   * the failed-evaluation line, and a disabled step shows its marker.
   */
  lemma FailuresBecomeText(u: string, intent: Intent, agents: Agents)
    ensures var parts := PromptParts(u, intent, agents);
            var db := agents.db(DbInput(u, intent.summary));
            var discussion := agents.discussion(u, DiscussionContext(intent.enableDb, DbStep(u, intent, agents)));
            && (intent.enableDb && db.Err? ==> parts[2] == "数据库查询结果：\n" + ("数据库查询过程中出现错误: " + db.error))
            && (!intent.enableDb ==> parts[2] == NoDbQuery)
            && (intent.enableDiscussion && discussion.Err? ==>
                  |parts| == 5 && parts[3] == "讨论团队讨论结果：\n" + ("讨论团队讨论过程中出现错误: " + discussion.error)
                  && parts[4] == "讨论评估信息：" + "讨论评估失败")
            && (!intent.enableDiscussion ==> |parts| == 4 && parts[3] == NoDiscussion)
  {
    DbPartText(u, intent, agents);
    DiscussionPartText(u, intent, agents);
  }

  lemma DbPartText(u: string, intent: Intent, agents: Agents)
    ensures var parts := PromptParts(u, intent, agents);
            var db := agents.db(DbInput(u, intent.summary));
            && (intent.enableDb && db.Err? ==> parts[2] == "数据库查询结果：\n" + ("数据库查询过程中出现错误: " + db.error))
            && (!intent.enableDb ==> parts[2] == NoDbQuery)
  {
    var db := agents.db(DbInput(u, intent.summary));
    if intent.enableDb && db.Err? {
      assert DbStep(u, intent, agents) == Some("数据库查询过程中出现错误: " + db.error);
    }
  }

  lemma DiscussionPartText(u: string, intent: Intent, agents: Agents)
    ensures var parts := PromptParts(u, intent, agents);
            var discussion := agents.discussion(u, DiscussionContext(intent.enableDb, DbStep(u, intent, agents)));
            && (intent.enableDiscussion && discussion.Err? ==>
                  |parts| == 5 && parts[3] == "讨论团队讨论结果：\n" + ("讨论团队讨论过程中出现错误: " + discussion.error)
                  && parts[4] == "讨论评估信息：" + "讨论评估失败")
            && (!intent.enableDiscussion ==> |parts| == 4 && parts[3] == NoDiscussion)
  {
    var discussion := agents.discussion(u, DiscussionContext(intent.enableDb, DbStep(u, intent, agents)));
    if intent.enableDiscussion && discussion.Err? {
      var section := DiscussionSection(discussion, agents.formatScore);
      assert section.0 == "讨论团队讨论过程中出现错误: " + discussion.error;
      assert section.1 == "讨论评估失败";
    }
  }

  /** The prompt opens with the question and the intent, each followed by a blank line, and closes with the instruction. */
  lemma PromptFrame(userInput: string, intent: Intent, agents: Agents)
    ensures var prompt := Text.Join(PromptParts(userInput, intent, agents), "\n\n") + Closing;
            var head := "用户问题：" + userInput + "\n\n" + "意图分析：" + intent.summary + "\n\n";
            |head| + |Closing| <= |prompt|
            && prompt[..|head|] == head
            && prompt[|prompt| - |Closing|..] == Closing
  {
    FrameOf(PromptParts(userInput, intent, agents), userInput, intent.summary);
  }

  /** The framing, for any parts that open with the question and the intent. */
  lemma FrameOf(parts: seq<string>, userInput: string, summary: string)
    requires |parts| >= 3 && parts[0] == "用户问题：" + userInput && parts[1] == "意图分析：" + summary
    ensures var prompt := Text.Join(parts, "\n\n") + Closing;
            var head := "用户问题：" + userInput + "\n\n" + "意图分析：" + summary + "\n\n";
            |head| + |Closing| <= |prompt|
            && prompt[..|head|] == head
            && prompt[|prompt| - |Closing|..] == Closing
  {
    var rest := Text.Join(parts[2..], "\n\n");
    JoinFirstTwo(parts, "\n\n");
    var head := "用户问题：" + userInput + "\n\n" + "意图分析：" + summary + "\n\n";
    assert Text.Join(parts, "\n\n") + Closing == head + (rest + Closing);
  }

  lemma JoinFirstTwo(parts: seq<string>, sep: string)
    requires |parts| >= 3
    ensures Text.Join(parts, sep) == parts[0] + sep + parts[1] + sep + Text.Join(parts[2..], sep)
  {
    assert parts[1..] == [parts[1]] + parts[2..];
    Text.JoinCons(parts[1], parts[2..], sep);
    assert parts == [parts[0]] + parts[1..];
    Text.JoinCons(parts[0], parts[1..], sep);
  }
}
