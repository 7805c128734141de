/** Activity streaks and their milestone rewards (src/engine/streak.ts). */
module Streak {
  import opened Types
  import opened Constants
  import opened Level

  /** `isDayActive`: at least one of homework, math, juggling or a language
      session was completed. */
  predicate IsDayActive(log: DailyLog)
  {
    log.homework.completed || log.math.completed || log.juggling.completed ||
    exists j :: 0 <= j < |log.languages| && log.languages[j].completed
  }

  /** Only the completion flags decide whether a day is active: the date, the
      rewards, the drops and the task details play no part. */
  lemma ActivityDependsOnlyOnCompletion(a: DailyLog, b: DailyLog)
    requires a.homework.completed == b.homework.completed && a.math.completed == b.math.completed
    requires a.juggling.completed == b.juggling.completed && |a.languages| == |b.languages|
    requires forall j :: 0 <= j < |a.languages| ==> a.languages[j].completed == b.languages[j].completed
    ensures IsDayActive(a) <==> IsDayActive(b)
  {
    if exists j :: 0 <= j < |a.languages| && a.languages[j].completed {
      var j :| 0 <= j < |a.languages| && a.languages[j].completed;
      assert b.languages[j].completed;
    }
    if exists j :: 0 <= j < |b.languages| && b.languages[j].completed {
      var j :| 0 <= j < |b.languages| && b.languages[j].completed;
      assert a.languages[j].completed;
    }
  }

  /** The number of leading active logs (most recent first). */
  function ActiveRun(logs: seq<DailyLog>): (r: nat)
    ensures r <= |logs|
    ensures forall j :: 0 <= j < r ==> IsDayActive(logs[j])
    ensures r < |logs| ==> !IsDayActive(logs[r])
  {
    if logs == [] || !IsDayActive(logs[0]) then 0 else 1 + ActiveRun(logs[1..])
  }

  /** `calcStreak`: 0 when today is not completed; otherwise today plus the
      unbroken run of active days before it. */
  method CalcStreak(todayCompleted: bool, previousLogs: seq<DailyLog>) returns (streak: int)
    ensures !todayCompleted ==> streak == 0
    ensures todayCompleted ==> streak == 1 + ActiveRun(previousLogs)
  {
    if !todayCompleted {
      return 0;
    }
    streak := 1;
    var i := 0;
    while i < |previousLogs|
      invariant 0 <= i <= |previousLogs|
      invariant streak == 1 + i
      invariant forall j :: 0 <= j < i ==> IsDayActive(previousLogs[j])
    {
      if IsDayActive(previousLogs[i]) {
        streak := streak + 1;
      } else {
        break;
      }
      i := i + 1;
    }
    assert ActiveRun(previousLogs) == i;
  }

  datatype StreakResult = StreakResult(
    currentStreak: int, gold: int, stars: int, xpBonus: int,
    breakdown: seq<BreakdownItem>, triggeredRewards: seq<int>)

  /** A milestone fires on every positive multiple of its day count. */
  predicate Triggered(streakDay: int, days: int)
  {
    streakDay > 0 && days != 0 && streakDay % days == 0
  }

  const LEVEL_UP_DAYS := 14

  /** One milestone of the loop: a 14-day milestone sets the XP bonus to what
      levels the player up and pays its stars; any other pays its gold and
      stars; either way its line and day count are recorded. */
  function StreakStep(acc: StreakResult, reward: StreakReward, streakDay: int, totalXp: int): StreakResult
  {
    if !Triggered(streakDay, reward.days) then acc
    else if reward.days == LEVEL_UP_DAYS then
      var xpBonus := XpToLevelUp(totalXp);
      acc.(xpBonus := xpBonus, stars := acc.stars + reward.stars,
           breakdown := acc.breakdown + [Item(StreakLevelUpLine(reward.days), 0, xpBonus, reward.stars)],
           triggeredRewards := acc.triggeredRewards + [reward.days])
    else
      acc.(gold := acc.gold + reward.gold, stars := acc.stars + reward.stars,
           breakdown := acc.breakdown + [Item(StreakLine(reward.days), reward.gold, 0, reward.stars)],
           triggeredRewards := acc.triggeredRewards + [reward.days])
  }

  /** The loop over a milestone table, in table order. */
  function StreakRewardsOver(rewards: seq<StreakReward>, streakDay: int, totalXp: int): StreakResult
  {
    if rewards == [] then StreakResult(streakDay, 0, 0, 0, [], [])
    else StreakStep(StreakRewardsOver(rewards[..|rewards| - 1], streakDay, totalXp), rewards[|rewards| - 1], streakDay, totalXp)
  }

  /** `calcStreakRewards`: walks the milestone table once. */
  method CalcStreakRewards(streakDay: int, totalXp: int) returns (r: StreakResult)
    ensures r == StreakRewardsOver(STREAK_REWARDS, streakDay, totalXp)
  {
    var gold, stars, xpBonus := 0, 0, 0;
    var breakdown: seq<BreakdownItem> := [];
    var triggeredRewards: seq<int> := [];
    for i := 0 to |STREAK_REWARDS|
      invariant StreakResult(streakDay, gold, stars, xpBonus, breakdown, triggeredRewards) ==
                StreakRewardsOver(STREAK_REWARDS[..i], streakDay, totalXp)
    {
      var reward := STREAK_REWARDS[i];
      assert STREAK_REWARDS[..i + 1][..i] == STREAK_REWARDS[..i];
      if streakDay > 0 && reward.days != 0 && streakDay % reward.days == 0 {
        if reward.days == LEVEL_UP_DAYS {
          xpBonus := XpToLevelUp(totalXp);
          stars := stars + reward.stars;
          breakdown := breakdown + [Item(StreakLevelUpLine(reward.days), 0, xpBonus, reward.stars)];
        } else {
          gold := gold + reward.gold;
          stars := stars + reward.stars;
          breakdown := breakdown + [Item(StreakLine(reward.days), reward.gold, 0, reward.stars)];
        }
        triggeredRewards := triggeredRewards + [reward.days];
      }
    }
    assert STREAK_REWARDS[..|STREAK_REWARDS|] == STREAK_REWARDS;
    r := StreakResult(streakDay, gold, stars, xpBonus, breakdown, triggeredRewards);
  }

  function IfLine(c: bool, item: BreakdownItem): seq<BreakdownItem>
  {
    if c then [item] else []
  }

  function IfDay(c: bool, days: int): seq<int>
  {
    if c then [days] else []
  }

  /** The loop over the built-in table is three steps, one per milestone. */
  lemma StreakRewardsUnrolled(streakDay: int, totalXp: int)
    ensures var s := STREAK_REWARDS;
            StreakRewardsOver(s, streakDay, totalXp) ==
            StreakStep(StreakStep(StreakStep(StreakResult(streakDay, 0, 0, 0, [], []),
              s[0], streakDay, totalXp), s[1], streakDay, totalXp), s[2], streakDay, totalXp)
  {
    var s := STREAK_REWARDS;
    var init := StreakResult(streakDay, 0, 0, 0, [], []);
    assert s[..1][..0] == [];
    assert StreakRewardsOver(s[..1], streakDay, totalXp) == StreakStep(init, s[0], streakDay, totalXp);
    assert s[..2][..1] == s[..1];
    assert StreakRewardsOver(s[..2], streakDay, totalXp) ==
           StreakStep(StreakRewardsOver(s[..1], streakDay, totalXp), s[1], streakDay, totalXp);
    assert s[..3][..2] == s[..2] && s[..3] == s;
    assert StreakRewardsOver(s, streakDay, totalXp) ==
           StreakStep(StreakRewardsOver(s[..2], streakDay, totalXp), s[2], streakDay, totalXp);
  }

  /** An ordinary milestone adds its gold, stars, line and day count when it fires. */
  lemma PlainStep(acc: StreakResult, reward: StreakReward, streakDay: int, totalXp: int)
    requires reward.days != LEVEL_UP_DAYS
    ensures var r := StreakStep(acc, reward, streakDay, totalXp);
            var t := Triggered(streakDay, reward.days);
            r.currentStreak == acc.currentStreak && r.xpBonus == acc.xpBonus &&
            r.gold == acc.gold + (if t then reward.gold else 0) &&
            r.stars == acc.stars + (if t then reward.stars else 0) &&
            r.breakdown == acc.breakdown + IfLine(t, Item(StreakLine(reward.days), reward.gold, 0, reward.stars)) &&
            r.triggeredRewards == acc.triggeredRewards + IfDay(t, reward.days)
  {
    assert acc.breakdown + [] == acc.breakdown && acc.triggeredRewards + [] == acc.triggeredRewards;
  }

  /** The level-up milestone sets the XP bonus and adds its stars, line and day count when it fires. */
  lemma LevelUpStep(acc: StreakResult, reward: StreakReward, streakDay: int, totalXp: int)
    requires reward.days == LEVEL_UP_DAYS
    ensures var r := StreakStep(acc, reward, streakDay, totalXp);
            var t := Triggered(streakDay, reward.days);
            r.currentStreak == acc.currentStreak && r.gold == acc.gold &&
            r.xpBonus == (if t then XpToLevelUp(totalXp) else acc.xpBonus) &&
            r.stars == acc.stars + (if t then reward.stars else 0) &&
            r.breakdown == acc.breakdown + IfLine(t, Item(StreakLevelUpLine(reward.days), 0, XpToLevelUp(totalXp), reward.stars)) &&
            r.triggeredRewards == acc.triggeredRewards + IfDay(t, reward.days)
  {
    assert acc.breakdown + [] == acc.breakdown && acc.triggeredRewards + [] == acc.triggeredRewards;
  }

  /** Three milestones, the last of them the level-up one, starting from nothing. */
  lemma ThreeMilestones(a: StreakReward, b: StreakReward, c: StreakReward, streakDay: int, totalXp: int)
    requires a.days != LEVEL_UP_DAYS && b.days != LEVEL_UP_DAYS && c.days == LEVEL_UP_DAYS
    ensures var r := StreakStep(StreakStep(StreakStep(StreakResult(streakDay, 0, 0, 0, [], []),
                       a, streakDay, totalXp), b, streakDay, totalXp), c, streakDay, totalXp);
            var ta, tb, tc := Triggered(streakDay, a.days), Triggered(streakDay, b.days), Triggered(streakDay, c.days);
            r.currentStreak == streakDay &&
            r.gold == (if ta then a.gold else 0) + (if tb then b.gold else 0) &&
            r.stars == (if ta then a.stars else 0) + (if tb then b.stars else 0) + (if tc then c.stars else 0) &&
            r.xpBonus == (if tc then XpToLevelUp(totalXp) else 0) &&
            r.triggeredRewards == IfDay(ta, a.days) + IfDay(tb, b.days) + IfDay(tc, c.days) &&
            r.breakdown == IfLine(ta, Item(StreakLine(a.days), a.gold, 0, a.stars)) +
                           IfLine(tb, Item(StreakLine(b.days), b.gold, 0, b.stars)) +
                           IfLine(tc, Item(StreakLevelUpLine(c.days), 0, XpToLevelUp(totalXp), c.stars))
  {
    var r0 := StreakResult(streakDay, 0, 0, 0, [], []);
    var r1 := StreakStep(r0, a, streakDay, totalXp);
    var r2 := StreakStep(r1, b, streakDay, totalXp);
    PlainStep(r0, a, streakDay, totalXp);
    PlainStep(r1, b, streakDay, totalXp);
    LevelUpStep(r2, c, streakDay, totalXp);
    assert r0.breakdown + IfLine(Triggered(streakDay, a.days), Item(StreakLine(a.days), a.gold, 0, a.stars)) ==
           IfLine(Triggered(streakDay, a.days), Item(StreakLine(a.days), a.gold, 0, a.stars));
    assert r0.triggeredRewards + IfDay(Triggered(streakDay, a.days), a.days) == IfDay(Triggered(streakDay, a.days), a.days);
  }

  /** What the built-in table pays on a streak day: 30 gold and a star every
      third day, 70 gold and three stars every seventh, and on every
      fourteenth five stars plus the XP that levels the player up; the lines
      and day counts come in table order. */
  lemma StreakRewardsTable(streakDay: int, totalXp: int)
    ensures var r := StreakRewardsOver(STREAK_REWARDS, streakDay, totalXp);
            var t3, t7, t14 := Triggered(streakDay, 3), Triggered(streakDay, 7), Triggered(streakDay, 14);
            r.currentStreak == streakDay &&
            r.gold == (if t3 then 30 else 0) + (if t7 then 70 else 0) &&
            r.stars == (if t3 then 1 else 0) + (if t7 then 3 else 0) + (if t14 then 5 else 0) &&
            r.xpBonus == (if t14 then XpToLevelUp(totalXp) else 0) &&
            r.triggeredRewards == IfDay(t3, 3) + IfDay(t7, 7) + IfDay(t14, 14) &&
            r.breakdown == IfLine(t3, Item(StreakLine(3), 30, 0, 1)) + IfLine(t7, Item(StreakLine(7), 70, 0, 3)) +
                           IfLine(t14, Item(StreakLevelUpLine(14), 0, XpToLevelUp(totalXp), 5))
  {
    var s := STREAK_REWARDS;
    StreakRewardsUnrolled(streakDay, totalXp);
    assert s[0].days == 3 && s[0].gold == 30 && s[0].stars == 1;
    assert s[1].days == 7 && s[1].gold == 70 && s[1].stars == 3;
    assert s[2].days == 14 && s[2].stars == 5;
    ThreeMilestones(s[0], s[1], s[2], streakDay, totalXp);
  }

  /** The totals are the sums of the lines, the XP bonus counting as XP. */
  lemma StreakRewardsBalanced(streakDay: int, totalXp: int)
    ensures var r := StreakRewardsOver(STREAK_REWARDS, streakDay, totalXp);
            Total(r.breakdown) == Currency(r.gold, r.xpBonus, r.stars)
  {
    StreakRewardsTable(streakDay, totalXp);
    var t3, t7, t14 := Triggered(streakDay, 3), Triggered(streakDay, 7), Triggered(streakDay, 14);
    var a := IfLine(t3, Item(StreakLine(3), 30, 0, 1));
    var b := IfLine(t7, Item(StreakLine(7), 70, 0, 3));
    var c := IfLine(t14, Item(StreakLevelUpLine(14), 0, XpToLevelUp(totalXp), 5));
    TotalSingleton(Item(StreakLine(3), 30, 0, 1));
    TotalSingleton(Item(StreakLine(7), 70, 0, 3));
    TotalSingleton(Item(StreakLevelUpLine(14), 0, XpToLevelUp(totalXp), 5));
    TotalAppend(a, b);
    TotalAppend(a + b, c);
  }

  /** Every level-up day is also a 7-day milestone, so both pay on day 14. */
  lemma LevelUpDayPaysSevenDay(streakDay: int)
    requires Triggered(streakDay, 14)
    ensures Triggered(streakDay, 7)
  {
    assert streakDay == 14 * (streakDay / 14);
    assert streakDay == 7 * (2 * (streakDay / 14));
  }

  /** The level-up milestone takes a player below the top level exactly to
      the next level. */
  lemma LevelUpDayLevelsUp(streakDay: int, totalXp: int)
    requires Triggered(streakDay, 14) && LevelOf(totalXp) < MAX_LEVEL
    ensures LevelOf(totalXp + StreakRewardsOver(STREAK_REWARDS, streakDay, totalXp).xpBonus) == LevelOf(totalXp) + 1
  {
    StreakRewardsTable(streakDay, totalXp);
  }

  /** Without a streak nothing is paid. */
  lemma NoStreakNoReward(streakDay: int, totalXp: int)
    requires streakDay <= 0
    ensures var r := StreakRewardsOver(STREAK_REWARDS, streakDay, totalXp);
            r.gold == 0 && r.stars == 0 && r.xpBonus == 0 && r.breakdown == [] && r.triggeredRewards == []
  {
    StreakRewardsTable(streakDay, totalXp);
  }
}
