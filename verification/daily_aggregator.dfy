/** The daily pipeline (src/engine/daily-aggregator.ts): score every task of
    the day, add them up, then apply the level gold bonus, the math
    multiplier, the streak milestones, the level star bonus and the dream
    fund, in that order. */
module DailyAggregator {
  import opened Types
  import opened Constants
  import Seqs
  import opened DailyScoring
  import opened LanguageBonus
  import opened RandomDropRewards
  import opened MathMultiplier
  import opened Level
  import opened Streak

  datatype DailyCalcInput = DailyCalcInput(
    log: DailyLog, player: Player,
    previousLogs: seq<DailyLog>,  // most recent first, for the streak
    weekLogs: seq<DailyLog>)      // the week's other logs, for the weekly French count

  datatype DailyCalcResult = DailyCalcResult(
    rewards: DailyRewards, mathMultiplier: int, streakDay: int,
    streakXpBonus: int, dreamFundContribution: int)

  /** The language sessions' base rewards, accumulated in order. */
  function LanguagesBase(langs: seq<LanguageTask>): Reward
  {
    if langs == [] then NO_REWARD
    else LanguagesBase(langs[..|langs| - 1]).Append(CalcLanguageBaseReward(langs[|langs| - 1]))
  }

  /** The loop of `calcDailyRewards` over the language sessions: their base
      rewards summed, their lines collected in order. */
  method SumLanguageBase(langs: seq<LanguageTask>) returns (r: Reward)
    ensures r == LanguagesBase(langs)
  {
    var languageGold, languageXp, languageStars := 0, 0, 0;
    var breakdown: seq<BreakdownItem> := [];
    for i := 0 to |langs|
      invariant Reward(languageGold, languageXp, languageStars, breakdown) == LanguagesBase(langs[..i])
    {
      var lr := CalcLanguageBaseReward(langs[i]);
      assert langs[..i + 1][..i] == langs[..i];
      var next := Reward(languageGold, languageXp, languageStars, breakdown).Append(lr);
      languageGold, languageXp, languageStars, breakdown := next.gold, next.xp, next.stars, next.breakdown;
    }
    assert langs[..|langs|] == langs;
    r := Reward(languageGold, languageXp, languageStars, breakdown);
  }

  lemma {:induction false} LanguagesBaseBalanced(langs: seq<LanguageTask>)
    ensures LanguagesBase(langs).Balanced() && LanguagesBase(langs).NonNegative()
    ensures LanguagesBase(langs).stars == 0
  {
    if langs != [] {
      LanguagesBaseBalanced(langs[..|langs| - 1]);
      AppendBalanced(LanguagesBase(langs[..|langs| - 1]), CalcLanguageBaseReward(langs[|langs| - 1]));
    }
  }

  /** The day's base rewards before any multiplier: the six scorers' totals
      added up (math's stars left out of the star count, as the source does)
      and their lines in the order homework, math, juggling, language
      sessions, language bonuses, random drops. */
  function BaseSum(hw: Reward, math: Reward, jug: Reward, lang: Reward, bonus: Reward, drops: Reward): Reward
  {
    Reward(hw.gold + math.gold + jug.gold + lang.gold + bonus.gold + drops.gold,
           hw.xp + math.xp + jug.xp + lang.xp + bonus.xp + drops.xp,
           hw.stars + jug.stars + lang.stars + bonus.stars + drops.stars,
           hw.breakdown + math.breakdown + jug.breakdown + lang.breakdown + bonus.breakdown + drops.breakdown)
  }

  /** Leaving math's stars out loses nothing since math pays none: the base
      totals are the sums of the base lines, and none is negative. */
  lemma BaseSumBalanced(hw: Reward, math: Reward, jug: Reward, lang: Reward, bonus: Reward, drops: Reward)
    requires hw.Balanced() && math.Balanced() && jug.Balanced() && lang.Balanced() && bonus.Balanced() && drops.Balanced()
    requires hw.NonNegative() && math.NonNegative() && jug.NonNegative()
    requires lang.NonNegative() && bonus.NonNegative() && drops.NonNegative()
    requires math.stars == 0
    ensures BaseSum(hw, math, jug, lang, bonus, drops).Balanced()
    ensures BaseSum(hw, math, jug, lang, bonus, drops).NonNegative()
  {
    AppendBalanced(hw, math);
    AppendBalanced(hw.Append(math), jug);
    AppendBalanced(hw.Append(math).Append(jug), lang);
    AppendBalanced(hw.Append(math).Append(jug).Append(lang), bonus);
    AppendBalanced(hw.Append(math).Append(jug).Append(lang).Append(bonus), drops);
    assert BaseSum(hw, math, jug, lang, bonus, drops) == hw.Append(math).Append(jug).Append(lang).Append(bonus).Append(drops);
  }

  /** The base rewards of the day described by `input`. */
  ghost function BaseOf(input: DailyCalcInput): Reward
  {
    BaseSum(CalcHomeworkReward(input.log.homework), CalcMathReward(input.log.math),
            CalcJugglingReward(input.log.juggling), LanguagesBase(input.log.languages),
            LanguageBonus.LanguageBonus(input.log.languages, input.previousLogs, input.weekLogs).reward,
            AllDropsReward(input.log.randomDrops))
  }

  lemma BaseBalanced(input: DailyCalcInput)
    ensures BaseOf(input).Balanced() && BaseOf(input).NonNegative()
  {
    LanguagesBaseBalanced(input.log.languages);
    LanguageBonusLines(input.log.languages, input.previousLogs, input.weekLogs);
    AllDropsBalanced(input.log.randomDrops);
    BaseSumBalanced(CalcHomeworkReward(input.log.homework), CalcMathReward(input.log.math),
                    CalcJugglingReward(input.log.juggling), LanguagesBase(input.log.languages),
                    LanguageBonus.LanguageBonus(input.log.languages, input.previousLogs, input.weekLogs).reward,
                    AllDropsReward(input.log.randomDrops));
  }

  /** The multiplier in tenths: the difficulty's (with the top-level bonus)
      when math was completed, 1.0 otherwise. */
  function MultiplierFor(log: DailyLog, player: Player): (m: int)
    ensures m >= 10
    ensures !log.math.completed ==> m == 10
  {
    if log.math.completed then GetMathMultiplier(log.math.difficulty, player.level) else 10
  }

  /** Today's streak length: 0 on an inactive day, otherwise today plus the
      unbroken run of active days before it. */
  function StreakDayOf(input: DailyCalcInput): (d: int)
    ensures d >= 0
  {
    if IsDayActive(input.log) then 1 + ActiveRun(input.previousLogs) else 0
  }

  /** Steps 3 to 7 of the pipeline, from the base rewards and the streak
      milestones on. */
  function Finish(log: DailyLog, player: Player, streakDay: int, base: Reward, streak: StreakResult): DailyCalcResult
  {
    var goldAfterLevel := ApplyLevelGoldBonus(base.gold, player.level);
    var levelBonusGold := goldAfterLevel - base.gold;
    var m := MultiplierFor(log, player);
    var multiplied := if log.math.completed then ApplyMathMultiplier(goldAfterLevel, m) else goldAfterLevel;
    var totalGold := multiplied + streak.gold;
    var starsBefore := base.stars + streak.stars;
    var starsAfter := ApplyLevelStarBonus(starsBefore, player.level);
    var levelBonusStars := starsAfter - starsBefore;
    var dream := CalcDreamFund(totalGold, player.level);
    var breakdown := base.breakdown +
      IfItem(levelBonusGold > 0, Item(LevelGoldLine(player.level), levelBonusGold, 0, 0)) +
      IfItem(log.math.completed && m > 10, Item(MultiplierLine(m), multiplied - goldAfterLevel, 0, 0)) +
      streak.breakdown +
      IfItem(levelBonusStars > 0, Item(LevelStarLine(player.level), 0, 0, levelBonusStars)) +
      IfItem(dream > 0, Item(DreamFundLine, dream, 0, 0));
    DailyCalcResult(
      DailyRewards(base.gold, levelBonusGold, multiplied, streak.gold, totalGold,
                   base.xp, base.xp + streak.xpBonus,
                   base.stars, levelBonusStars, starsAfter, breakdown),
      m, streakDay, streak.xpBonus, dream)
  }

  /** `calcDailyRewards` as a function of its input; the streak milestones
      are paid on the player's XP plus today's base XP. */
  ghost function DailyResult(input: DailyCalcInput): DailyCalcResult
  {
    var base := BaseOf(input);
    var streakDay := StreakDayOf(input);
    Finish(input.log, input.player, streakDay, base,
           StreakRewardsOver(STREAK_REWARDS, streakDay, input.player.xp + base.xp))
  }

  /** The order of the base lines: the language lines are collected first,
      then the homework lines are put in front of them, the math lines after
      the homework lines and the juggling lines after those; the language
      bonuses and the drops follow at the end. */
  method ArrangeBaseLines(hw: seq<BreakdownItem>, math: seq<BreakdownItem>, jug: seq<BreakdownItem>,
                          lang: seq<BreakdownItem>, bonus: seq<BreakdownItem>, drops: seq<BreakdownItem>)
    returns (breakdown: seq<BreakdownItem>)
    ensures breakdown == hw + math + jug + lang + bonus + drops
  {
    breakdown := [];
    breakdown := breakdown + lang;
    assert breakdown == lang;
    breakdown := Seqs.InsertAt(breakdown, 0, hw);
    var homeworkLen := |hw|;
    breakdown := Seqs.InsertAt(breakdown, homeworkLen, math);
    breakdown := Seqs.InsertAt(breakdown, homeworkLen + |math|, jug);
    Seqs.InsertThreeInFront(hw, math, jug, lang);
    breakdown := breakdown + bonus;
    breakdown := breakdown + drops;
  }

  /** Steps 1 and 2 of `calcDailyRewards`: score every task, collect the
      lines and sum the base totals. */
  method CollectBaseRewards(input: DailyCalcInput) returns (base: Reward)
    ensures base == BaseOf(input)
  {
    var log := input.log;
    var homeworkReward := CalcHomeworkReward(log.homework);
    var mathReward := CalcMathReward(log.math);
    var jugglingReward := CalcJugglingReward(log.juggling);
    var languages := SumLanguageBase(log.languages);
    var langBonus := CalcLanguageBonus(log.languages, input.previousLogs, input.weekLogs);
    var randomDrops := CalcAllRandomDrops(log.randomDrops);

    var breakdown := ArrangeBaseLines(homeworkReward.breakdown, mathReward.breakdown, jugglingReward.breakdown,
                                      languages.breakdown, langBonus.reward.breakdown, randomDrops.breakdown);
    var baseGold := homeworkReward.gold + mathReward.gold + jugglingReward.gold +
                    languages.gold + langBonus.reward.gold + randomDrops.gold;
    var baseXp := homeworkReward.xp + mathReward.xp + jugglingReward.xp +
                  languages.xp + langBonus.reward.xp + randomDrops.xp;
    var baseStars := homeworkReward.stars + jugglingReward.stars +
                     languages.stars + langBonus.reward.stars + randomDrops.stars;
    base := Reward(baseGold, baseXp, baseStars, breakdown);
  }

  /** A line pushed only when `c` holds. */
  method PushIf(breakdown: seq<BreakdownItem>, c: bool, item: BreakdownItem) returns (r: seq<BreakdownItem>)
    ensures r == breakdown + IfItem(c, item)
  {
    r := breakdown;
    if c {
      r := r + [item];
    } else {
      assert r == breakdown + [];
    }
  }

  /** Steps 3 to 7 of `calcDailyRewards` once the base rewards and the
      streak milestones are known: the level gold bonus, the math
      multiplier, the streak rewards, the level star bonus and the dream
      fund, each adding its line only when it pays something. */
  method ApplyBonuses(log: DailyLog, player: Player, streakDay: int, base: Reward, streakRewards: StreakResult)
    returns (r: DailyCalcResult)
    requires base.Balanced() && base.NonNegative() && StreakSound(streakRewards)
    ensures r == Finish(log, player, streakDay, base, streakRewards)
    ensures Total(r.rewards.breakdown) ==
              Currency(r.rewards.totalGold + r.dreamFundContribution, r.rewards.totalXp, r.rewards.totalStars)
  {
    var baseGold, baseXp, baseStars, breakdown := base.gold, base.xp, base.stars, base.breakdown;

    var goldAfterLevel := ApplyLevelGoldBonus(baseGold, player.level);
    var levelBonusGold := goldAfterLevel - baseGold;
    breakdown := PushIf(breakdown, levelBonusGold > 0, Item(LevelGoldLine(player.level), levelBonusGold, 0, 0));

    var mathMultiplier := if log.math.completed then GetMathMultiplier(log.math.difficulty, player.level) else 10;
    var mathMultipliedGold := if log.math.completed then ApplyMathMultiplier(goldAfterLevel, mathMultiplier) else goldAfterLevel;
    breakdown := PushIf(breakdown, log.math.completed && mathMultiplier > 10,
                        Item(MultiplierLine(mathMultiplier), mathMultipliedGold - goldAfterLevel, 0, 0));

    var totalGold := mathMultipliedGold + streakRewards.gold;
    var totalXp := baseXp + streakRewards.xpBonus;
    breakdown := breakdown + streakRewards.breakdown;

    var starsAfterLevel := ApplyLevelStarBonus(baseStars + streakRewards.stars, player.level);
    var levelBonusStars := starsAfterLevel - (baseStars + streakRewards.stars);
    breakdown := PushIf(breakdown, levelBonusStars > 0, Item(LevelStarLine(player.level), 0, 0, levelBonusStars));

    var dreamFundContribution := CalcDreamFund(totalGold, player.level);
    breakdown := PushIf(breakdown, dreamFundContribution > 0, Item(DreamFundLine, dreamFundContribution, 0, 0));

    var rewards := DailyRewards(baseGold, levelBonusGold, mathMultipliedGold, streakRewards.gold, totalGold,
                                baseXp, totalXp, baseStars, levelBonusStars, starsAfterLevel, breakdown);
    r := DailyCalcResult(rewards, mathMultiplier, streakDay, streakRewards.xpBonus, dreamFundContribution);
    FinishBalanced(log, player, streakDay, base, streakRewards);
  }

  /** `calcDailyRewards`: the base rewards, today's streak and its
      milestones (paid on the player's XP plus today's base XP), then the
      bonuses on top. */
  method CalcDailyRewards(input: DailyCalcInput) returns (r: DailyCalcResult)
    ensures r == DailyResult(input)
    ensures Total(r.rewards.breakdown) ==
              Currency(r.rewards.totalGold + r.dreamFundContribution, r.rewards.totalXp, r.rewards.totalStars)
  {
    var base := CollectBaseRewards(input);
    BaseBalanced(input);
    var streakDay := CalcStreak(IsDayActive(input.log), input.previousLogs);
    var streakRewards := CalcStreakRewards(streakDay, input.player.xp + base.xp);
    MilestonesSound(streakDay, input.player.xp + base.xp);
    r := ApplyBonuses(input.log, input.player, streakDay, base, streakRewards);
  }

  // ==================== Properties of the daily result ====================

  /** What the streak milestones must satisfy for the lemmas below: their
      lines add up to their totals, and none is negative. */
  predicate StreakSound(streak: StreakResult)
  {
    Total(streak.breakdown) == Currency(streak.gold, streak.xpBonus, streak.stars) &&
    streak.gold >= 0 && streak.xpBonus >= 0 && streak.stars >= 0
  }

  /** The value of an optional line. */
  function IfValue(c: bool, x: BreakdownItem): Currency
  {
    if c then x.Value() else NO_CURRENCY
  }

  lemma IfItemTotal(c: bool, x: BreakdownItem)
    ensures Total(IfItem(c, x)) == IfValue(c, x)
  {
    if c {
      TotalSingleton(x);
    }
  }

  /** The lines of the day add up piece by piece: the base lines, two
      optional gold lines, the streak lines and two more optional lines. */
  lemma {:induction false} DayLinesTotal(b: seq<BreakdownItem>, c1: bool, x1: BreakdownItem, c2: bool, x2: BreakdownItem,
                                          s: seq<BreakdownItem>, c3: bool, x3: BreakdownItem, c4: bool, x4: BreakdownItem)
    ensures var t := Total(b + IfItem(c1, x1) + IfItem(c2, x2) + s + IfItem(c3, x3) + IfItem(c4, x4));
            var v1, v2, v3, v4 := IfValue(c1, x1), IfValue(c2, x2), IfValue(c3, x3), IfValue(c4, x4);
            t.gold == Total(b).gold + v1.gold + v2.gold + Total(s).gold + v3.gold + v4.gold &&
            t.xp == Total(b).xp + v1.xp + v2.xp + Total(s).xp + v3.xp + v4.xp &&
            t.stars == Total(b).stars + v1.stars + v2.stars + Total(s).stars + v3.stars + v4.stars
  {
    var p1 := b + IfItem(c1, x1);
    var p2 := p1 + IfItem(c2, x2);
    var p3 := p2 + s;
    var p4 := p3 + IfItem(c3, x3);
    TotalAppend(b, IfItem(c1, x1));
    IfItemTotal(c1, x1);
    TotalAppend(p1, IfItem(c2, x2));
    IfItemTotal(c2, x2);
    TotalAppend(p2, s);
    TotalAppend(p3, IfItem(c3, x3));
    IfItemTotal(c3, x3);
    TotalAppend(p4, IfItem(c4, x4));
    IfItemTotal(c4, x4);
  }

  /** A result whose lines are the base lines, the optional level-gold and
      multiplier lines, the streak lines and the optional level-star and
      dream-fund lines, and whose totals are built from the same amounts,
      has lines that add up to its totals plus the dream fund. */
  lemma ResultLinesAddUp(r: DailyCalcResult, base: Reward, streak: StreakResult, goldAfterLevel: int,
                         multiplied: bool, m: int, level: int)
    requires base.Balanced() && StreakSound(streak)
    requires r.rewards.breakdown == base.breakdown +
               IfItem(r.rewards.levelBonusGold > 0, Item(LevelGoldLine(level), r.rewards.levelBonusGold, 0, 0)) +
               IfItem(multiplied, Item(MultiplierLine(m), r.rewards.mathMultipliedGold - goldAfterLevel, 0, 0)) +
               streak.breakdown +
               IfItem(r.rewards.levelBonusStars > 0, Item(LevelStarLine(level), 0, 0, r.rewards.levelBonusStars)) +
               IfItem(r.dreamFundContribution > 0, Item(DreamFundLine, r.dreamFundContribution, 0, 0))
    requires goldAfterLevel == base.gold + r.rewards.levelBonusGold && r.rewards.levelBonusGold >= 0
    requires !multiplied ==> r.rewards.mathMultipliedGold == goldAfterLevel
    requires r.rewards.totalGold == r.rewards.mathMultipliedGold + streak.gold
    requires r.rewards.totalXp == base.xp + streak.xpBonus
    requires r.rewards.levelBonusStars >= 0 && r.rewards.totalStars == base.stars + streak.stars + r.rewards.levelBonusStars
    requires r.dreamFundContribution >= 0
    ensures Total(r.rewards.breakdown) ==
              Currency(r.rewards.totalGold + r.dreamFundContribution, r.rewards.totalXp, r.rewards.totalStars)
  {
    DayLinesTotal(base.breakdown,
                  r.rewards.levelBonusGold > 0, Item(LevelGoldLine(level), r.rewards.levelBonusGold, 0, 0),
                  multiplied, Item(MultiplierLine(m), r.rewards.mathMultipliedGold - goldAfterLevel, 0, 0),
                  streak.breakdown,
                  r.rewards.levelBonusStars > 0, Item(LevelStarLine(level), 0, 0, r.rewards.levelBonusStars),
                  r.dreamFundContribution > 0, Item(DreamFundLine, r.dreamFundContribution, 0, 0));
  }

  /** The lines of the day add up to its totals, except that the dream-fund
      line's gold is paid into the dream fund on top of the day's gold. */
  lemma FinishBalanced(log: DailyLog, player: Player, streakDay: int, base: Reward, streak: StreakResult)
    requires base.Balanced() && base.NonNegative() && StreakSound(streak)
    ensures var r := Finish(log, player, streakDay, base, streak);
            Total(r.rewards.breakdown) ==
              Currency(r.rewards.totalGold + r.dreamFundContribution, r.rewards.totalXp, r.rewards.totalStars)
  {
    var r := Finish(log, player, streakDay, base, streak);
    var goldAfterLevel := ApplyLevelGoldBonus(base.gold, player.level);
    GoldBonusBounds(base.gold, player.level);
    var m := MultiplierFor(log, player);
    MultiplierBounds(goldAfterLevel, goldAfterLevel, m);
    DreamFundBounds(r.rewards.totalGold, player.level);
    ResultLinesAddUp(r, base, streak, goldAfterLevel, log.math.completed && m > 10, m, player.level);
  }

  /** The streak milestones are sound on every day and every XP total. */
  lemma MilestonesSound(streakDay: int, totalXp: int)
    ensures StreakSound(StreakRewardsOver(STREAK_REWARDS, streakDay, totalXp))
  {
    StreakRewardsBalanced(streakDay, totalXp);
    StreakRewardsTable(streakDay, totalXp);
  }
}
