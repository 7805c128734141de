/** The week's summary and totals (src/engine/weekly-aggregator.ts), both
    read from the rewards already stored in each daily log. */
module WeeklyAggregator {
  import opened Types
  import opened Streak
  import Seqs
  import BigGoals

  /** The stored rewards of a list of logs, added up in order. */
  function RewardSum(logs: seq<DailyLog>): Currency
  {
    if logs == [] then NO_CURRENCY
    else
      var last := logs[|logs| - 1].rewards;
      RewardSum(logs[..|logs| - 1]).Plus(Currency(last.totalGold, last.totalXp, last.totalStars))
  }

  /** The largest stored streak day, and 0 when none is positive. */
  function LongestStreak(logs: seq<DailyLog>): nat
  {
    if logs == [] then 0
    else
      var before := LongestStreak(logs[..|logs| - 1]);
      if logs[|logs| - 1].streakDay > before then logs[|logs| - 1].streakDay else before
  }

  /** The sum over two weeks' logs is the sum of the two sums. */
  lemma {:induction false} RewardSumAppend(a: seq<DailyLog>, b: seq<DailyLog>)
    ensures RewardSum(a + b) == RewardSum(a).Plus(RewardSum(b))
    decreases |b|
  {
    if b == [] {
      assert a + b == a;
    } else {
      assert (a + b)[..|a + b| - 1] == a + b[..|b| - 1];
      RewardSumAppend(a, b[..|b| - 1]);
    }
  }

  /** The running maximum is the same one the big goals keep, so it is the
      largest streak day of the logs (or 0). */
  lemma {:induction false} LongestStreakIsMaximum(logs: seq<DailyLog>)
    ensures LongestStreak(logs) == BigGoals.Counts(logs).maxStreak
    ensures forall i :: 0 <= i < |logs| ==> logs[i].streakDay <= LongestStreak(logs)
    ensures LongestStreak(logs) == 0 || exists i :: 0 <= i < |logs| && logs[i].streakDay == LongestStreak(logs)
  {
    if logs != [] {
      LongestStreakIsMaximum(logs[..|logs| - 1]);
    }
    BigGoals.MaxStreakIsMaximum(logs);
  }

  /** Taking one more log into the sums, the count and the maximum. */
  lemma SummaryStep(logs: seq<DailyLog>, i: int)
    requires 0 <= i < |logs|
    ensures RewardSum(logs[..i + 1]).gold == RewardSum(logs[..i]).gold + logs[i].rewards.totalGold
    ensures RewardSum(logs[..i + 1]).xp == RewardSum(logs[..i]).xp + logs[i].rewards.totalXp
    ensures RewardSum(logs[..i + 1]).stars == RewardSum(logs[..i]).stars + logs[i].rewards.totalStars
    ensures LongestStreak(logs[..i + 1]) ==
              if logs[i].streakDay > LongestStreak(logs[..i]) then logs[i].streakDay else LongestStreak(logs[..i])
    ensures Seqs.Count(logs[..i + 1], IsDayActive) == Seqs.Count(logs[..i], IsDayActive) + (if IsDayActive(logs[i]) then 1 else 0)
  {
    assert logs[..i + 1] == logs[..i] + [logs[i]];
    assert logs[..i + 1][..i] == logs[..i];
    Seqs.CountSnoc(logs[..i], logs[i], IsDayActive);
  }

  /** `calcWeeklySummary`, one log at a time; its totals are the same loop
      `calcWeeklyTotal` runs. */
  method CalcWeeklySummary(weekId: string, logs: seq<DailyLog>) returns (r: WeeklySummary)
    ensures r.weekId == weekId
    ensures r.daysActive == Seqs.Count(logs, IsDayActive) && r.daysActive <= |logs|
    ensures Currency(r.totalGold, r.totalXp, r.totalStars) == RewardSum(logs)
    ensures r.longestStreak == LongestStreak(logs)
    ensures r.achievementsUnlocked == [] && r.challengesCompleted == 0
  {
    var totalGold, totalXp, totalStars, daysActive, longestStreak := 0, 0, 0, 0, 0;
    for i := 0 to |logs|
      invariant daysActive == Seqs.Count(logs[..i], IsDayActive)
      invariant totalGold == RewardSum(logs[..i]).gold && totalXp == RewardSum(logs[..i]).xp
      invariant totalStars == RewardSum(logs[..i]).stars
      invariant longestStreak == LongestStreak(logs[..i])
    {
      var log := logs[i];
      SummaryStep(logs, i);
      var isActive := log.homework.completed || log.math.completed || log.juggling.completed ||
                      exists j :: 0 <= j < |log.languages| && log.languages[j].completed;
      if isActive {
        daysActive := daysActive + 1;
      }
      totalGold := totalGold + log.rewards.totalGold;
      totalXp := totalXp + log.rewards.totalXp;
      totalStars := totalStars + log.rewards.totalStars;
      if log.streakDay > longestStreak {
        longestStreak := log.streakDay;
      }
    }
    assert logs[..|logs|] == logs;
    r := WeeklySummary(weekId, daysActive, totalGold, totalXp, totalStars, longestStreak, [], 0);
  }

  /** `calcWeeklyTotal`: the same sums as the summary's three totals. */
  method CalcWeeklyTotal(logs: seq<DailyLog>) returns (r: Currency)
    ensures r == RewardSum(logs)
  {
    var gold, xp, stars := 0, 0, 0;
    for i := 0 to |logs|
      invariant gold == RewardSum(logs[..i]).gold && xp == RewardSum(logs[..i]).xp && stars == RewardSum(logs[..i]).stars
    {
      var log := logs[i];
      SummaryStep(logs, i);
      gold := gold + log.rewards.totalGold;
      xp := xp + log.rewards.totalXp;
      stars := stars + log.rewards.totalStars;
    }
    assert logs[..|logs|] == logs;
    r := Currency(gold, xp, stars);
  }
}
