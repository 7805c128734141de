/** Long-running big goals (src/engine/big-goals.ts): progress re-read from
    every log ever kept, completion that never reverts, the reward choice
    made on completion, and the rewards of goals that were just completed. */
module BigGoals {
  import opened Types
  import opened LanguageBonus
  import DungeonScoring

  /** The four cumulative counts a goal can read. */
  datatype GoalCounts = GoalCounts(competitionOlympiad: int, french: int, englishReading: int, maxStreak: int)

  /** One log's contribution: completed competition or olympiad problems,
      one day with French, one day with English reading, and the running
      maximum of the stored streak days. */
  function CountStep(c: GoalCounts, log: DailyLog): GoalCounts
  {
    var hard := log.math.completed && (log.math.difficulty == Competition || log.math.difficulty == Olympiad);
    GoalCounts(c.competitionOlympiad + (if hard then log.math.problems else 0),
               c.french + (if FrenchDone(log.languages) then 1 else 0),
               c.englishReading + (if DungeonScoring.EnglishReadingDone(log.languages) then 1 else 0),
               if log.streakDay > c.maxStreak then log.streakDay else c.maxStreak)
  }

  /** The counts over a list of logs, taken in order. */
  function Counts(logs: seq<DailyLog>): GoalCounts
  {
    if logs == [] then GoalCounts(0, 0, 0, 0)
    else CountStep(Counts(logs[..|logs| - 1]), logs[|logs| - 1])
  }

  /** The loop of `updateBigGoalProgress` over every log. */
  method CountLogs(allLogs: seq<DailyLog>) returns (c: GoalCounts)
    ensures c == Counts(allLogs)
  {
    var mathCompetitionOlympiad, frenchCount, englishReadingCount, maxStreak := 0, 0, 0, 0;
    for i := 0 to |allLogs|
      invariant GoalCounts(mathCompetitionOlympiad, frenchCount, englishReadingCount, maxStreak) == Counts(allLogs[..i])
    {
      var log := allLogs[i];
      assert allLogs[..i + 1][..i] == allLogs[..i];
      if log.math.completed && (log.math.difficulty == Competition || log.math.difficulty == Olympiad) {
        mathCompetitionOlympiad := mathCompetitionOlympiad + log.math.problems;
      }
      if FrenchDone(log.languages) {
        frenchCount := frenchCount + 1;
      }
      if DungeonScoring.EnglishReadingDone(log.languages) {
        englishReadingCount := englishReadingCount + 1;
      }
      if log.streakDay > maxStreak {
        maxStreak := log.streakDay;
      }
    }
    assert allLogs[..|allLogs|] == allLogs;
    c := GoalCounts(mathCompetitionOlympiad, frenchCount, englishReadingCount, maxStreak);
  }

  /** The streak count is the largest stored streak day, or 0 when no log
      has a positive one. */
  lemma {:induction false} MaxStreakIsMaximum(logs: seq<DailyLog>)
    ensures Counts(logs).maxStreak >= 0
    ensures forall i :: 0 <= i < |logs| ==> logs[i].streakDay <= Counts(logs).maxStreak
    ensures Counts(logs).maxStreak == 0 || exists i :: 0 <= i < |logs| && logs[i].streakDay == Counts(logs).maxStreak
  {
    if logs != [] {
      var init := logs[..|logs| - 1];
      MaxStreakIsMaximum(init);
      forall i | 0 <= i < |logs|
        ensures logs[i].streakDay <= Counts(logs).maxStreak
      {
        if i < |logs| - 1 {
          assert logs[i] == init[i];
        }
      }
      if Counts(logs).maxStreak != 0 && Counts(logs).maxStreak != logs[|logs| - 1].streakDay {
        var k :| 0 <= k < |init| && init[k].streakDay == Counts(init).maxStreak;
        assert logs[k] == init[k];
      }
    }
  }

  /** The goals count the same problems and days as the dungeons do. */
  lemma {:induction false} CountsAgreeWithDungeons(logs: seq<DailyLog>)
    ensures Counts(logs).competitionOlympiad == DungeonScoring.Tally(logs).competitionPlus
    ensures Counts(logs).french == DungeonScoring.Tally(logs).french
    ensures Counts(logs).englishReading == DungeonScoring.Tally(logs).englishReading
  {
    if logs != [] {
      CountsAgreeWithDungeons(logs[..|logs| - 1]);
    }
  }

  /** The count a goal id reads; an unknown id reads 0. */
  function CountFor(id: string, c: GoalCounts): int
  {
    if id == "math-olympiad-prep" then c.competitionOlympiad
    else if id == "french-a1" then c.french
    else if id == "reading-100" then c.englishReading
    else if id == "streak-30" then c.maxStreak
    else 0
  }

  /** One goal re-read from the counts: a completed goal stays as it is;
      otherwise its current value is its count, and it is completed once that
      reaches the target. */
  function UpdateGoal(goal: BigGoal, c: GoalCounts): (r: BigGoal)
    ensures goal.completed ==> r == goal
    ensures !goal.completed ==> r.current == CountFor(goal.id, c) && (r.completed <==> r.current >= goal.target)
    ensures r == goal.(current := r.current, completed := r.completed)
  {
    if goal.completed then goal
    else
      var current := CountFor(goal.id, c);
      goal.(current := current, completed := current >= goal.target)
  }

  /** The pure `map` of `updateBigGoalProgress` once the counts are known. */
  function UpdateGoals(goals: seq<BigGoal>, c: GoalCounts): (r: seq<BigGoal>)
    ensures |r| == |goals|
    ensures forall i :: 0 <= i < |goals| ==> r[i] == UpdateGoal(goals[i], c)
  {
    seq(|goals|, i requires 0 <= i < |goals| => UpdateGoal(goals[i], c))
  }

  /** `updateBigGoalProgress`: the counts over all logs, then every goal re-read. */
  method UpdateBigGoalProgress(goals: seq<BigGoal>, allLogs: seq<DailyLog>) returns (r: seq<BigGoal>)
    ensures r == UpdateGoals(goals, Counts(allLogs))
  {
    var c := CountLogs(allLogs);
    r := UpdateGoals(goals, c);
  }

  /** Repeating the update with the same logs changes nothing more. */
  lemma UpdateGoalsIdempotent(goals: seq<BigGoal>, c: GoalCounts)
    ensures UpdateGoals(UpdateGoals(goals, c), c) == UpdateGoals(goals, c)
  {
    var once := UpdateGoals(goals, c);
    forall i | 0 <= i < |goals|
      ensures UpdateGoal(once[i], c) == once[i]
    {
    }
  }

  /** Completion is sticky: whatever the logs, a completed goal is returned
      unchanged; every goal keeps its id, target and reward. */
  lemma CompletionSticky(goals: seq<BigGoal>, c: GoalCounts, i: int)
    requires 0 <= i < |goals|
    ensures goals[i].completed ==> UpdateGoals(goals, c)[i] == goals[i]
    ensures UpdateGoals(goals, c)[i].id == goals[i].id && UpdateGoals(goals, c)[i].target == goals[i].target
    ensures UpdateGoals(goals, c)[i].reward == goals[i].reward
  {
  }

  // ==================== Reward choice ====================

  /** The reward of a completed goal after the child's choice, with the title
      when a title was chosen. */
  datatype ChoiceResult = ChoiceResult(reward: Currency, title: Option<string>)

  /** `getSpecialTitle`: each known goal's title, and a default for any other id. */
  function TitleFor(goalId: string): string
  {
    if goalId == "math-olympiad-prep" then "奥数小王子"
    else if goalId == "french-a1" then "法语小达人"
    else if goalId == "reading-100" then "阅读小博士"
    else if goalId == "streak-30" then "坚持之星"
    else "冒险之星"
  }

  /** `applyBigGoalRewardChoice`. */
  function ApplyBigGoalRewardChoice(goal: BigGoal, choice: RewardChoice): (r: ChoiceResult)
    ensures r.reward.xp == goal.reward.xp
    ensures r.reward.gold == (if choice == DoubleGold then 2 * goal.reward.gold else goal.reward.gold)
    ensures r.reward.stars == (if choice == DoubleStars then 2 * goal.reward.stars else goal.reward.stars)
    ensures r.title.Some? <==> choice == SpecialTitle
    ensures r.title.Some? ==> r.title.value == TitleFor(goal.id)
  {
    var base := goal.reward;
    match choice
    case DoubleGold => ChoiceResult(Currency(base.gold * 2, base.xp, base.stars), None)
    case DoubleStars => ChoiceResult(Currency(base.gold, base.xp, base.stars * 2), None)
    case SpecialTitle => ChoiceResult(base, Some(TitleFor(goal.id)))
  }

  /** Every choice pays at least the base reward when the base is not
      negative, and only the title choice pays exactly the base. */
  lemma ChoiceNeverPaysLess(goal: BigGoal, choice: RewardChoice)
    requires goal.reward.gold >= 0 && goal.reward.stars >= 0
    ensures var r := ApplyBigGoalRewardChoice(goal, choice).reward;
            r.gold >= goal.reward.gold && r.xp == goal.reward.xp && r.stars >= goal.reward.stars
    ensures choice == SpecialTitle ==> ApplyBigGoalRewardChoice(goal, choice).reward == goal.reward
  {
  }

  /** Each of the four goals has its own title, none of them the default. */
  lemma TitlesDistinct()
    ensures forall i, j :: 0 <= i < j < 4 ==>
              TitleFor(["math-olympiad-prep", "french-a1", "reading-100", "streak-30"][i]) !=
              TitleFor(["math-olympiad-prep", "french-a1", "reading-100", "streak-30"][j])
    ensures forall i :: 0 <= i < 4 ==>
              TitleFor(["math-olympiad-prep", "french-a1", "reading-100", "streak-30"][i]) != TitleFor("")
  {
  }

  // ==================== Rewards ====================

  /** A goal pays when it is completed now and was not before. */
  predicate JustCompleted(prev: seq<BigGoal>, curr: seq<BigGoal>, i: nat)
    requires i < |curr| <= |prev|
  {
    curr[i].completed && !prev[i].completed
  }

  /** The line of a just-completed goal: its base reward, before the choice. */
  function GoalItem(goal: BigGoal): BreakdownItem
  {
    Item(BigGoalLine(goal.name), goal.reward.gold, goal.reward.xp, goal.reward.stars)
  }

  /** The goals among 0..n-1 that were just completed, in index order. */
  function NewGoals(prev: seq<BigGoal>, curr: seq<BigGoal>, n: nat): seq<BigGoal>
    requires n <= |curr| <= |prev|
  {
    if n == 0 then []
    else NewGoals(prev, curr, n - 1) + (if JustCompleted(prev, curr, n - 1) then [curr[n - 1]] else [])
  }

  /** Their lines, one per goal and in the same order. */
  function GoalLines(goals: seq<BigGoal>): (r: seq<BreakdownItem>)
    ensures |r| == |goals|
    ensures forall k :: 0 <= k < |goals| ==> r[k] == GoalItem(goals[k])
  {
    seq(|goals|, k requires 0 <= k < |goals| => GoalItem(goals[k]))
  }

  /** The result of `calcBigGoalRewards`. */
  datatype GoalRewards = GoalRewards(rewards: Reward, newlyCompleted: seq<BigGoal>)

  /** `calcBigGoalRewards`: the just-completed goals in index order, one line
      each, and totals that are the sums of the lines. */
  method CalcBigGoalRewards(previousGoals: seq<BigGoal>, updatedGoals: seq<BigGoal>) returns (r: GoalRewards)
    requires |updatedGoals| <= |previousGoals|
    ensures r.newlyCompleted == NewGoals(previousGoals, updatedGoals, |updatedGoals|)
    ensures r.rewards == OfLines(GoalLines(r.newlyCompleted))
  {
    var gold, xp, stars, breakdown, newlyCompleted := 0, 0, 0, [], [];
    for i := 0 to |updatedGoals|
      invariant newlyCompleted == NewGoals(previousGoals, updatedGoals, i)
      invariant Reward(gold, xp, stars, breakdown) == OfLines(GoalLines(newlyCompleted))
    {
      var prev := previousGoals[i];
      var curr := updatedGoals[i];
      if curr.completed && !prev.completed {
        OfLinesAddLine(breakdown, GoalItem(curr));
        assert GoalLines(newlyCompleted + [curr]) == breakdown + [GoalItem(curr)];
        newlyCompleted := newlyCompleted + [curr];
        gold := gold + curr.reward.gold;
        xp := xp + curr.reward.xp;
        stars := stars + curr.reward.stars;
        breakdown := breakdown + [GoalItem(curr)];
      }
    }
    r := GoalRewards(Reward(gold, xp, stars, breakdown), newlyCompleted);
  }

  /** The goals paid are exactly the ones just completed: each just-completed
      goal is listed, and each listed goal was just completed. */
  lemma {:induction false} NewGoalsExact(prev: seq<BigGoal>, curr: seq<BigGoal>, n: nat)
    requires n <= |curr| <= |prev|
    ensures forall i :: 0 <= i < n && JustCompleted(prev, curr, i) ==> curr[i] in NewGoals(prev, curr, n)
    ensures forall g :: g in NewGoals(prev, curr, n) ==>
              exists i :: 0 <= i < n && JustCompleted(prev, curr, i) && curr[i] == g
  {
    if n > 0 {
      NewGoalsExact(prev, curr, n - 1);
    }
  }

  /** Comparing a goal list with itself pays nothing. */
  lemma {:induction false} SameGoalsPayNothing(goals: seq<BigGoal>, n: nat)
    requires n <= |goals|
    ensures NewGoals(goals, goals, n) == []
  {
    if n > 0 {
      SameGoalsPayNothing(goals, n - 1);
    }
  }

  /** A goal that was already completed is never paid again. */
  lemma {:induction false} CompletedGoalsNotRepaid(prev: seq<BigGoal>, curr: seq<BigGoal>, n: nat)
    requires n <= |curr| <= |prev|
    requires forall i :: 0 <= i < n ==> prev[i].completed
    ensures NewGoals(prev, curr, n) == []
  {
    if n > 0 {
      CompletedGoalsNotRepaid(prev, curr, n - 1);
    }
  }
}
