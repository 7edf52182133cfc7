/**
 * What the discussion-round controller promises, proved about its
 * functional description `Discussion` (which `DiscussionTeam.Run` is proved
 * to implement): the round bound, the early stop on a reached threshold,
 * exhaustion of the budget, the failure policy and the shape of the prompts.
 */
module DiscussionProperties {
  import opened Wrappers
  import opened DiscussionTeam

  /** The number of rounds `range(1, max_rounds + 1)` offers. */
  function RoundBudget(maxRounds: int): nat
  {
    if maxRounds < 0 then 0 else maxRounds
  }

  /** Every call the team and the judge make in round `j` succeeds. */
  ghost predicate RoundSucceeds(team: TeamOracle, judge: JudgeOracle, j: nat)
  {
    && (forall p :: team(j, p).Ok?)
    && (forall q, t :: judge(j, q, t).Ok?)
  }

  /** Whatever round `j`'s judge returns, its score stays below the threshold (or is missing). */
  ghost predicate ScoreBelow(judge: JudgeOracle, threshold: real, j: nat)
  {
    forall q, t :: judge(j, q, t).Ok? ==> !Meets(ExtractScore(judge(j, q, t).value), threshold)
  }

  /** Whatever round `j`'s judge returns, its score reaches the threshold. */
  ghost predicate ScoreReaches(judge: JudgeOracle, threshold: real, j: nat)
  {
    forall q, t :: judge(j, q, t).Ok? ==> Meets(ExtractScore(judge(j, q, t).value), threshold)
  }

  // ----- The invariant of the loop -----

  /**
   * Entering round `round` after `round - 1` complete rounds, the loop ends
   * with at most `max(round - 1, maxRounds)` rounds, two calls per round; a
   * reached threshold is backed by the saved evaluation's score and ends the
   * calls right after that round's judge; an error escapes only from round 1.
   */
  lemma {:induction false} RoundsInvariant(maxRounds: int, threshold: real, query: string, team: TeamOracle,
                                           judge: JudgeOracle, round: nat, input: string, s: Saved, calls: seq<Call>)
    requires round >= 1
    requires !s.reached && s.totalRounds == round - 1
    requires s.result.Some? <==> round > 1
    requires |calls| == 2 * (round - 1)
    ensures var r := Rounds(maxRounds, threshold, query, team, judge, round, input, s, calls);
      && |calls| <= |r.calls| <= 2 * (if maxRounds < round - 1 then round - 1 else maxRounds)
      && (r.outcome.Ok? ==> r.outcome.value.totalRounds <= (if maxRounds < round - 1 then round - 1 else maxRounds))
      && (r.outcome.Ok? && r.outcome.value.reached ==>
            && Meets(ExtractScore(r.outcome.value.evaluation), threshold)
            && r.outcome.value.result.Some?
            && |r.calls| == 2 * r.outcome.value.totalRounds)
      && (r.outcome.Err? ==> round == 1 && 1 <= |r.calls| <= 2)
    decreases maxRounds - round
  {
    if round <= maxRounds {
      match team(round, input)
      case Err(_) =>
      case Ok(text) =>
        match judge(round, query, text)
        case Err(_) =>
        case Ok(ev) =>
          var s2 := s.(totalRounds := round, result := Some(text), evaluation := ev);
          if !Meets(ExtractScore(ev), threshold) && round != maxRounds {
            var c2 := calls + [TeamCall(round, input), JudgeCall(round, query, text)];
            assert calls + [TeamCall(round, input)] + [JudgeCall(round, query, text)] == c2;
            RoundsInvariant(maxRounds, threshold, query, team, judge, round + 1, NextPrompt(query, text), s2, c2);
          }
    }
  }

  /**
   * `run` never reports more rounds than `max_rounds` allows nor makes more
   * than one team and one judge call per round; `reached_threshold` implies
   * a final score at or above the threshold; only round 1 can raise.
   */
  lemma RunBounds(maxRounds: int, threshold: real, query: string, context: Option<string>,
                  team: TeamOracle, judge: JudgeOracle)
    ensures var run := Discussion(maxRounds, threshold, query, context, team, judge);
      && |run.calls| <= 2 * RoundBudget(maxRounds)
      && (run.outcome.Ok? ==> run.outcome.value.totalRounds <= RoundBudget(maxRounds))
      && (run.outcome.Err? ==> 1 <= |run.calls| <= 2 && run.calls[|run.calls| - 1].round == 1)
    ensures var out := Outcome(Discussion(maxRounds, threshold, query, context, team, judge));
      out.Ok? && out.value.reachedThreshold ==>
        out.value.finalScore.Some? && out.value.finalScore.value >= threshold
  {
    RoundsInvariant(maxRounds, threshold, query, team, judge, 1, FirstPrompt(query, context), Initial, []);
    var run := Discussion(maxRounds, threshold, query, context, team, judge);
    if run.outcome.Err? {
      RunTrace(maxRounds, threshold, query, context, team, judge);
      assert CallFits(run.calls, |run.calls| - 1, query, context, team);
    }
  }

  // ----- Exhausting the budget and stopping early -----

  /**
   * When every round from `round` on succeeds and no score reaches the
   * threshold, the loop runs through `maxRounds` and does not reach it.
   */
  lemma {:induction false} RoundsExhaust(maxRounds: int, threshold: real, query: string, team: TeamOracle,
                                         judge: JudgeOracle, round: nat, input: string, s: Saved, calls: seq<Call>)
    requires 1 <= round <= maxRounds
    requires !s.reached
    requires forall j :: round <= j <= maxRounds ==> RoundSucceeds(team, judge, j) && ScoreBelow(judge, threshold, j)
    ensures var r := Rounds(maxRounds, threshold, query, team, judge, round, input, s, calls);
      && r.outcome.Ok?
      && r.outcome.value.totalRounds == maxRounds
      && !r.outcome.value.reached
      && r.outcome.value.result.Some?
      && |r.calls| == |calls| + 2 * (maxRounds - round + 1)
    decreases maxRounds - round
  {
    assert RoundSucceeds(team, judge, round) && ScoreBelow(judge, threshold, round);
    assert team(round, input).Ok?;
    var text := team(round, input).value;
    assert judge(round, query, text).Ok?;
    var ev := judge(round, query, text).value;
    assert !Meets(ExtractScore(ev), threshold);
    if round < maxRounds {
      var s2 := s.(totalRounds := round, result := Some(text), evaluation := ev);
      var c2 := calls + [TeamCall(round, input)] + [JudgeCall(round, query, text)];
      RoundsExhaust(maxRounds, threshold, query, team, judge, round + 1, NextPrompt(query, text), s2, c2);
    }
  }

  /**
   * When rounds `round..k` succeed, the scores before round `k` stay below the
   * threshold and round `k`'s reaches it, the loop stops right after round
   * `k` with the threshold reached: no call of round `k + 1` is made.
   */
  lemma {:induction false} RoundsEarlyExit(maxRounds: int, threshold: real, query: string, team: TeamOracle,
                                           judge: JudgeOracle, round: nat, input: string, s: Saved,
                                           calls: seq<Call>, k: nat)
    requires 1 <= round <= k <= maxRounds
    requires !s.reached
    requires forall j :: round <= j <= k ==> RoundSucceeds(team, judge, j)
    requires forall j :: round <= j < k ==> ScoreBelow(judge, threshold, j)
    requires ScoreReaches(judge, threshold, k)
    ensures var r := Rounds(maxRounds, threshold, query, team, judge, round, input, s, calls);
      && r.outcome.Ok?
      && r.outcome.value.totalRounds == k
      && r.outcome.value.reached
      && |r.calls| == |calls| + 2 * (k - round + 1)
      && r.calls[|r.calls| - 1].round == k
    decreases k - round
  {
    assert RoundSucceeds(team, judge, round);
    assert team(round, input).Ok?;
    var text := team(round, input).value;
    assert judge(round, query, text).Ok?;
    var ev := judge(round, query, text).value;
    if round < k {
      assert ScoreBelow(judge, threshold, round);
      assert !Meets(ExtractScore(ev), threshold);
      var s2 := s.(totalRounds := round, result := Some(text), evaluation := ev);
      var c2 := calls + [TeamCall(round, input)] + [JudgeCall(round, query, text)];
      RoundsEarlyExit(maxRounds, threshold, query, team, judge, round + 1, NextPrompt(query, text), s2, c2, k);
    } else {
      assert Meets(ExtractScore(ev), threshold);
    }
  }

  /** With every round succeeding below the threshold, `run` runs exactly `max_rounds` rounds. */
  lemma RunExhaustsBudget(maxRounds: int, threshold: real, query: string, context: Option<string>,
                          team: TeamOracle, judge: JudgeOracle)
    requires maxRounds >= 1
    requires forall j :: 1 <= j <= maxRounds ==> RoundSucceeds(team, judge, j) && ScoreBelow(judge, threshold, j)
    ensures var out := Outcome(Discussion(maxRounds, threshold, query, context, team, judge));
      out.Ok? && out.value.totalRounds == maxRounds && !out.value.reachedThreshold
    ensures |Discussion(maxRounds, threshold, query, context, team, judge).calls| == 2 * maxRounds
  {
    RoundsExhaust(maxRounds, threshold, query, team, judge, 1, FirstPrompt(query, context), Initial, []);
  }

  /**
   * A score reaching the threshold in round `k` (after lower scores) ends
   * `run` after exactly `k` rounds with `reached_threshold` set; equality
   * with the threshold counts as reached.
   */
  lemma RunStopsAtThreshold(maxRounds: int, threshold: real, query: string, context: Option<string>,
                            team: TeamOracle, judge: JudgeOracle, k: nat)
    requires 1 <= k <= maxRounds
    requires forall j :: 1 <= j <= k ==> RoundSucceeds(team, judge, j)
    requires forall j :: 1 <= j < k ==> ScoreBelow(judge, threshold, j)
    requires ScoreReaches(judge, threshold, k)
    ensures var out := Outcome(Discussion(maxRounds, threshold, query, context, team, judge));
      out.Ok? && out.value.totalRounds == k && out.value.reachedThreshold
    ensures var calls := Discussion(maxRounds, threshold, query, context, team, judge).calls;
      |calls| == 2 * k && calls[|calls| - 1].round == k
  {
    RoundsEarlyExit(maxRounds, threshold, query, team, judge, 1, FirstPrompt(query, context), Initial, [], k);
  }

  // ----- The failure policy -----

  /** A failure of the team, or of the judge after a successful team call, in round 1 is re-raised. */
  lemma RoundOneFailureRaises(maxRounds: int, threshold: real, query: string, context: Option<string>,
                              team: TeamOracle, judge: JudgeOracle)
    requires maxRounds >= 1
    requires var first := team(1, FirstPrompt(query, context));
      first.Err? || judge(1, query, first.value).Err?
    ensures Outcome(Discussion(maxRounds, threshold, query, context, team, judge)).Err?
  {
  }

  /**
   * After a saved round, a team failure in round `round` keeps the saved
   * state as it is, while a judge failure keeps the saved transcript and
   * evaluation of the previous round but with `totalRounds == round`,
   * because the round counter is set before the judge runs.
   */
  lemma LaterFailureFallsBack(maxRounds: int, threshold: real, query: string, team: TeamOracle,
                              judge: JudgeOracle, round: nat, input: string, s: Saved, calls: seq<Call>)
    requires 1 <= round <= maxRounds
    requires s.result.Some?
    ensures var r := Rounds(maxRounds, threshold, query, team, judge, round, input, s, calls);
      && (team(round, input).Err? ==> r.outcome == Ok(s))
      && (team(round, input).Ok? && judge(round, query, team(round, input).value).Err? ==>
            r.outcome == Ok(s.(totalRounds := round)))
  {
  }

  /**
   * The three-round scenario: round 1 yields transcript `t1` judged below
   * the threshold; a failure in round 2 makes `run` return `t1` without
   * raising, reporting one round when the team failed and two when the
   * judge failed.
   */
  lemma SecondRoundFailure(maxRounds: int, threshold: real, query: string, context: Option<string>,
                           team: TeamOracle, judge: JudgeOracle, t1: string, e1: JudgeResult)
    requires maxRounds >= 2
    requires team(1, FirstPrompt(query, context)) == Ok(t1)
    requires judge(1, query, t1) == Ok(e1) && !Meets(ExtractScore(e1), threshold)
    requires var second := team(2, NextPrompt(query, t1));
      second.Err? || judge(2, query, second.value).Err?
    ensures var out := Outcome(Discussion(maxRounds, threshold, query, context, team, judge));
      && out.Ok?
      && out.value.discussionResult == t1
      && out.value.evaluationResult == e1
      && !out.value.reachedThreshold
      && out.value.totalRounds == (if team(2, NextPrompt(query, t1)).Err? then 1 else 2)
  {
    var s1 := Saved(Some(t1), e1, 1, false);
    var c := [TeamCall(1, FirstPrompt(query, context)), JudgeCall(1, query, t1)];
    LaterFailureFallsBack(maxRounds, threshold, query, team, judge, 2, NextPrompt(query, t1), s1, c);
    assert [] + [TeamCall(1, FirstPrompt(query, context))] + [JudgeCall(1, query, t1)] == c;
  }

  // ----- The prompts and the judge's arguments -----

  /** The prompt a team call of a well-formed trace must carry, given the calls before it. */
  function PromptFor(query: string, context: Option<string>, before: seq<Call>): string
  {
    if |before| == 0 then FirstPrompt(query, context)
    else if before[|before| - 1].JudgeCall? then NextPrompt(query, before[|before| - 1].output)
    else ""
  }

  /**
   * Call `i` of a trace is what `run` makes: even positions are the team
   * call of round `i / 2 + 1` with the first prompt or the continuation of
   * the previous transcript; odd positions are that round's judge call, on
   * the original query and exactly the transcript the team returned.
   */
  ghost predicate CallFits(calls: seq<Call>, i: nat, query: string, context: Option<string>, team: TeamOracle)
    requires i < |calls|
  {
    if i % 2 == 0 then calls[i] == TeamCall(i / 2 + 1, PromptFor(query, context, calls[..i]))
    else
      && calls[i - 1].TeamCall?
      && team(calls[i - 1].round, calls[i - 1].prompt).Ok?
      && calls[i] == JudgeCall(i / 2 + 1, query, team(calls[i - 1].round, calls[i - 1].prompt).value)
  }

  ghost predicate WellFormedTrace(calls: seq<Call>, query: string, context: Option<string>, team: TeamOracle)
  {
    forall i :: 0 <= i < |calls| ==> CallFits(calls, i, query, context, team)
  }

  lemma CallFitsExtend(calls: seq<Call>, extra: seq<Call>, i: nat, query: string, context: Option<string>,
                       team: TeamOracle)
    requires i < |calls|
    ensures CallFits(calls + extra, i, query, context, team) == CallFits(calls, i, query, context, team)
  {
    assert (calls + extra)[..i] == calls[..i];
  }

  lemma {:induction false} RoundsTrace(maxRounds: int, threshold: real, query: string, context: Option<string>,
                                       team: TeamOracle, judge: JudgeOracle, round: nat, input: string, s: Saved,
                                       calls: seq<Call>)
    requires round >= 1
    requires |calls| == 2 * (round - 1)
    requires WellFormedTrace(calls, query, context, team)
    requires input == PromptFor(query, context, calls)
    ensures WellFormedTrace(Rounds(maxRounds, threshold, query, team, judge, round, input, s, calls).calls,
                            query, context, team)
    decreases maxRounds - round
  {
    if round <= maxRounds {
      var c1 := calls + [TeamCall(round, input)];
      forall i | 0 <= i < |c1| ensures CallFits(c1, i, query, context, team) {
        if i < |calls| {
          CallFitsExtend(calls, [TeamCall(round, input)], i, query, context, team);
        } else {
          assert c1[..i] == calls;
        }
      }
      match team(round, input)
      case Err(_) =>
      case Ok(text) =>
        var c2 := c1 + [JudgeCall(round, query, text)];
        forall i | 0 <= i < |c2| ensures CallFits(c2, i, query, context, team) {
          if i < |c1| {
            CallFitsExtend(c1, [JudgeCall(round, query, text)], i, query, context, team);
          }
        }
        match judge(round, query, text)
        case Err(_) =>
        case Ok(ev) =>
          var s2 := s.(totalRounds := round, result := Some(text), evaluation := ev);
          if !Meets(ExtractScore(ev), threshold) && round != maxRounds {
            RoundsTrace(maxRounds, threshold, query, context, team, judge, round + 1, NextPrompt(query, text), s2, c2);
          }
    }
  }

  /**
   * The calls of `run` form a well-formed trace: round 1's prompt is the
   * query (with its context), every later prompt is the query, the fixed
   * continuation and the previous round's transcript, and the judge always
   * receives the original query with the transcript just produced.
   */
  lemma RunTrace(maxRounds: int, threshold: real, query: string, context: Option<string>,
                 team: TeamOracle, judge: JudgeOracle)
    ensures WellFormedTrace(Discussion(maxRounds, threshold, query, context, team, judge).calls, query, context, team)
  {
    RoundsTrace(maxRounds, threshold, query, context, team, judge, 1, FirstPrompt(query, context), Initial, []);
  }

  /** A later prompt starts with the full original query and ends with the previous transcript. */
  lemma NextPromptKeepsQuery(query: string, transcript: string)
    ensures var p := NextPrompt(query, transcript);
      p[..|query|] == query && p[|p| - |transcript|..] == transcript
  {
  }
}
