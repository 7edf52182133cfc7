/**
 * The discussion-round controller of the discussion team
 * (`DiscussionTeam.run`): up to `maxRounds` debate rounds, each one a call
 * to the debate team followed by a call to the judge; it stops as soon as a
 * judged score reaches the threshold, feeds every later round the previous
 * transcript, re-raises a failure that happens before any round was saved
 * and otherwise falls back to the last saved round.
 *
 * The debate team and the judge are oracles: functions from the round number
 * and their arguments to a reply or a raised error. The controller's own
 * state is that of the source: `finalResult`, `finalEvaluation`,
 * `totalRounds`, `reachedThreshold` and the next prompt.
 */
module DiscussionTeam {
  import opened Wrappers
  import Text

  /**
   * What the judge returns, classified the way `run` probes it with
   * `hasattr`: nothing usable (`None` or any falsy object), an object with a
   * `score` attribute (whose value may itself be `None`), an object without
   * `score` but with a `result` (`inner` is `None` when that result has no
   * `score`), or an object with neither.
   */
  datatype JudgeResult =
    | Falsy
    | Direct(score: Option<real>)
    | Nested(inner: Option<Option<real>>)
    | Bare

  /** The score `run` reads off a judge result: `.score`, else `.result.score`, else none. */
  function ExtractScore(e: JudgeResult): Option<real>
  {
    match e
    case Direct(s) => s
    case Nested(Some(s)) => s
    case _ => None
  }

  /** `score is not None and score >= score_threshold`. */
  predicate Meets(score: Option<real>, threshold: real)
  {
    score.Some? && score.value >= threshold
  }

  // ----- Settings (the constructor's defaulting) -----

  const DefaultMaxRounds: int := 3
  const DefaultScoreThreshold: real := 7.0

  /** `max_rounds or int(os.getenv("DISCUSSION_MAX_ROUNDS", "3"))`. */
  function ResolveMaxRounds(arg: Option<int>, env: map<string, string>): (r: Result<int>)
    ensures arg.Some? && arg.value != 0 ==> r == Ok(arg.value)
    ensures (arg.None? || arg.value == 0) && "DISCUSSION_MAX_ROUNDS" !in env ==> r == Ok(DefaultMaxRounds)
    ensures (arg.None? || arg.value == 0) && "DISCUSSION_MAX_ROUNDS" in env ==>
      && (r.Ok? == Text.ParseInt(env["DISCUSSION_MAX_ROUNDS"]).Some?)
      && (r.Ok? ==> r.value == Text.ParseInt(env["DISCUSSION_MAX_ROUNDS"]).value)
  {
    if arg.Some? && arg.value != 0 then Ok(arg.value)
    else
      var text := if "DISCUSSION_MAX_ROUNDS" in env then env["DISCUSSION_MAX_ROUNDS"] else "3";
      Text.IntRoundTrip(3);
      Text.IntValue(text)
  }

  /**
   * `score_threshold or float(os.getenv("DISCUSSION_SCORE_THRESHOLD", "7.0"))`;
   * `parseFloat` stands for Python's `float()` on the variable's text.
   */
  function ResolveScoreThreshold(arg: Option<real>, env: map<string, string>,
                                 parseFloat: string -> Option<real>): (r: Result<real>)
    ensures arg.Some? && arg.value != 0.0 ==> r == Ok(arg.value)
    ensures (arg.None? || arg.value == 0.0) && "DISCUSSION_SCORE_THRESHOLD" !in env ==>
      r == Ok(DefaultScoreThreshold)
    ensures (arg.None? || arg.value == 0.0) && "DISCUSSION_SCORE_THRESHOLD" in env ==>
      && (r.Ok? == parseFloat(env["DISCUSSION_SCORE_THRESHOLD"]).Some?)
      && (r.Ok? ==> r.value == parseFloat(env["DISCUSSION_SCORE_THRESHOLD"]).value)
  {
    if arg.Some? && arg.value != 0.0 then Ok(arg.value)
    else if "DISCUSSION_SCORE_THRESHOLD" !in env then Ok(DefaultScoreThreshold)
    else
      var text := env["DISCUSSION_SCORE_THRESHOLD"];
      match parseFloat(text)
      case Some(x) => Ok(x)
      case None => Err("could not convert string to float: '" + text + "'")
  }

  // ----- Prompts -----

  /** The round-1 prompt: the query, with the context appended only when it is non-empty. */
  function FirstPrompt(query: string, context: Option<string>): string
  {
    if context.Some? && context.value != "" then query + "\n\n相关信息：\n" + context.value
    else query
  }

  const Continuation: string := "\n\n基于之前的讨论，请继续深入讨论该问题。\n\n之前的讨论结果：\n"

  /** The prompt of every later round: the query, the fixed continuation, the previous transcript. */
  function NextPrompt(query: string, transcript: string): string
  {
    query + Continuation + transcript
  }

  // ----- The round loop as a state machine -----

  /** Calls made to the oracles, in order. */
  datatype Call =
    | TeamCall(round: nat, prompt: string)
    | JudgeCall(round: nat, input: string, output: string)

  /** `final_result`, `final_evaluation`, `total_rounds`, `reached_threshold`. */
  datatype Saved = Saved(result: Option<string>, evaluation: JudgeResult, totalRounds: nat, reached: bool)

  const Initial: Saved := Saved(None, Falsy, 0, false)

  /** How a run ends (`Err` is the re-raised exception) and the calls it made. */
  datatype Run = Run(outcome: Result<Saved>, calls: seq<Call>)

  type TeamOracle = (nat, string) -> Result<string>
  type JudgeOracle = (nat, string, string) -> Result<JudgeResult>

  /** The `except` branch: re-raise while nothing is saved, otherwise keep what was saved. */
  function Recover(s: Saved, error: string): Result<Saved>
  {
    if s.result.None? then Err(error) else Ok(s)
  }

  /** Rounds `round..maxRounds` of the loop, from state `s` with prompt `input`. */
  function Rounds(maxRounds: int, threshold: real, query: string, team: TeamOracle, judge: JudgeOracle,
                  round: nat, input: string, s: Saved, calls: seq<Call>): Run
    requires round >= 1
    decreases maxRounds - round
  {
    if round > maxRounds then Run(Ok(s), calls)
    else
      var c1 := calls + [TeamCall(round, input)];
      match team(round, input)
      case Err(e) => Run(Recover(s, e), c1)
      case Ok(text) =>
        var s1 := s.(totalRounds := round);
        var c2 := c1 + [JudgeCall(round, query, text)];
        match judge(round, query, text)
        case Err(e) => Run(Recover(s1, e), c2)
        case Ok(ev) =>
          var s2 := s1.(result := Some(text), evaluation := ev);
          if Meets(ExtractScore(ev), threshold) then Run(Ok(s2.(reached := true)), c2)
          else if round == maxRounds then Run(Ok(s2), c2)
          else Rounds(maxRounds, threshold, query, team, judge, round + 1, NextPrompt(query, text), s2, c2)
  }

  /** The whole loop of `run`. */
  function Discussion(maxRounds: int, threshold: real, query: string, context: Option<string>,
                      team: TeamOracle, judge: JudgeOracle): Run
  {
    Rounds(maxRounds, threshold, query, team, judge, 1, FirstPrompt(query, context), Initial, [])
  }

  /** The dict `run` returns. */
  datatype DiscussionResult = DiscussionResult(
    discussionResult: string,
    evaluationResult: JudgeResult,
    finalScore: Option<real>,
    totalRounds: nat,
    reachedThreshold: bool)

  /** The returned dict built from the saved state; the final score is re-extracted from the saved evaluation. */
  function Report(s: Saved): DiscussionResult
  {
    DiscussionResult(s.result.GetOr(""), s.evaluation, ExtractScore(s.evaluation), s.totalRounds, s.reached)
  }

  function Outcome(run: Run): Result<DiscussionResult>
  {
    match run.outcome
    case Ok(s) => Ok(Report(s))
    case Err(e) => Err(e)
  }

  // ----- The controller -----

  class DiscussionTeam {
    const maxRounds: int
    const scoreThreshold: real
    const teamName: string

    /**
     * `__init__` with its settings already resolved: `maxRounds` is the `Ok`
     * value of `ResolveMaxRounds` and `scoreThreshold` that of
     * `ResolveScoreThreshold` (a failed resolution raises before any
     * object exists). The agents are passed to `Run` as oracles.
     */
    constructor (maxRounds: int, scoreThreshold: real, teamName: string)
      ensures this.maxRounds == maxRounds && this.scoreThreshold == scoreThreshold
      ensures this.teamName == teamName
    {
      this.maxRounds := maxRounds;
      this.scoreThreshold := scoreThreshold;
      this.teamName := teamName;
    }

    /** `run(user_query, context)`: the round loop, returning the result dict or the re-raised error. */
    method Run(userQuery: string, context: Option<string>, team: TeamOracle, judge: JudgeOracle)
      returns (r: Result<DiscussionResult>, calls: seq<Call>)
      ensures r == Outcome(Discussion(maxRounds, scoreThreshold, userQuery, context, team, judge))
      ensures calls == Discussion(maxRounds, scoreThreshold, userQuery, context, team, judge).calls
    {
      var discussionInput := userQuery;
      if context.Some? && context.value != "" {
        discussionInput := userQuery + "\n\n相关信息：\n" + context.value;
      }
      ghost var spec := Discussion(maxRounds, scoreThreshold, userQuery, context, team, judge);

      var finalResult: Option<string> := None;
      var finalEvaluation: JudgeResult := Falsy;
      var totalRounds: nat := 0;
      var reachedThreshold := false;
      calls := [];

      var roundNum: nat := 1;
      while roundNum <= maxRounds
        invariant roundNum >= 1
        invariant spec == Rounds(maxRounds, scoreThreshold, userQuery, team, judge, roundNum, discussionInput,
                                 Saved(finalResult, finalEvaluation, totalRounds, reachedThreshold), calls)
        decreases maxRounds - roundNum
      {
        calls := calls + [TeamCall(roundNum, discussionInput)];
        var response := team(roundNum, discussionInput);
        if response.Err? {
          if finalResult.None? {
            r := Err(response.error);
            return;
          }
          break;
        }
        var discussionResult := response.value;
        totalRounds := roundNum;

        calls := calls + [JudgeCall(roundNum, userQuery, discussionResult)];
        var evaluation := judge(roundNum, userQuery, discussionResult);
        if evaluation.Err? {
          if finalResult.None? {
            r := Err(evaluation.error);
            return;
          }
          break;
        }
        var score := ExtractScore(evaluation.value);

        finalResult := Some(discussionResult);
        finalEvaluation := evaluation.value;

        if score.Some? && score.value >= scoreThreshold {
          reachedThreshold := true;
          break;
        }
        if roundNum == maxRounds {
          break;
        }
        discussionInput := userQuery + Continuation + discussionResult;
        roundNum := roundNum + 1;
      }

      var finalScore := ExtractScore(finalEvaluation);
      r := Ok(DiscussionResult(if finalResult.Some? then finalResult.value else "",
                               finalEvaluation, finalScore, totalRounds, reachedThreshold));
    }
  }
}
