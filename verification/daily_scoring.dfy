/** Per-task scorers (src/engine/daily-scoring.ts). Each turns one task record
    into gold, XP and stars plus the breakdown lines that justify them; an
    incomplete task pays nothing. */
module DailyScoring {
  import opened Types
  import opened Constants

  /** Homework pays its quality's table entry, plus the self-check bonus when
      the child checked the work and the quality is not `incomplete`. */
  function CalcHomeworkReward(task: HomeworkTask): (r: Reward)
    ensures !task.completed ==> r == NO_REWARD
    ensures r.Balanced() && r.gold >= 0 && r.xp >= 0 && r.stars == 0
    ensures task.completed ==>
              var bonus := task.selfChecked && task.quality != Incomplete;
              r.gold == HomeworkGold(task.quality) + (if bonus then HOMEWORK_SELF_CHECK_BONUS else 0) &&
              r.xp == HomeworkXp(task.quality) &&
              |r.breakdown| == (if bonus then 2 else 1) &&
              r.breakdown[0] == Item(HomeworkLine(task.quality), HomeworkGold(task.quality), HomeworkXp(task.quality), 0)
  {
    if !task.completed then NO_REWARD
    else
      var base := Line(Item(HomeworkLine(task.quality), HomeworkGold(task.quality), HomeworkXp(task.quality), 0));
      var bonus := Line(Item(SelfCheckLine, HOMEWORK_SELF_CHECK_BONUS, 0, 0));
      AppendBalanced(base, bonus);
      if task.selfChecked && task.quality != Incomplete then base.Append(bonus) else base
  }

  /** Math pays nothing without a completed session with at least one problem;
      otherwise the difficulty's base, plus the all-correct bonus. */
  function CalcMathReward(task: MathTask): (r: Reward)
    ensures !task.completed || task.problems == 0 ==> r == NO_REWARD
    ensures r.Balanced() && r.gold >= 0 && r.xp >= 0 && r.stars == 0
    ensures task.completed && task.problems > 0 ==>
              r.gold == MathBaseGold(task.difficulty) + (if task.allCorrect then MATH_ALL_CORRECT_BONUS_GOLD else 0) &&
              r.xp == MathBaseXp(task.difficulty) + (if task.allCorrect then MATH_ALL_CORRECT_BONUS_XP else 0) &&
              |r.breakdown| == (if task.allCorrect then 2 else 1) &&
              r.breakdown[0] == Item(MathLine(task.difficulty), MathBaseGold(task.difficulty), MathBaseXp(task.difficulty), 0)
  {
    if !task.completed || task.problems == 0 then NO_REWARD
    else
      var base := Line(Item(MathLine(task.difficulty), MathBaseGold(task.difficulty), MathBaseXp(task.difficulty), 0));
      var bonus := Line(Item(AllCorrectLine, MATH_ALL_CORRECT_BONUS_GOLD, MATH_ALL_CORRECT_BONUS_XP, 0));
      AppendBalanced(base, bonus);
      if task.allCorrect then base.Append(bonus) else base
  }

  /** Juggling pays its base, then two independent extras: a minutes bonus at
      15 minutes or more, and a new-record bonus that also pays the only star. */
  function CalcJugglingReward(task: JugglingTask): (r: Reward)
    ensures !task.completed ==> r == NO_REWARD
    ensures r.Balanced() && r.NonNegative()
    ensures task.completed ==>
              var long := task.minutes >= JUGGLING_EXTRA_MINUTES_THRESHOLD;
              r.gold == JUGGLING_BASE_GOLD + (if long then JUGGLING_EXTRA_GOLD else 0) +
                        (if task.newRecord then JUGGLING_NEW_RECORD_GOLD else 0) &&
              r.xp == JUGGLING_BASE_XP + (if long then JUGGLING_EXTRA_XP else 0) &&
              (r.stars == 1 <==> task.newRecord) && (r.stars == 0 <==> !task.newRecord) &&
              |r.breakdown| == 1 + (if long then 1 else 0) + (if task.newRecord then 1 else 0) &&
              r.breakdown[0] == Item(JugglingLine, JUGGLING_BASE_GOLD, JUGGLING_BASE_XP, 0)
  {
    if !task.completed then NO_REWARD
    else
      var base := Line(Item(JugglingLine, JUGGLING_BASE_GOLD, JUGGLING_BASE_XP, 0));
      var minutesBonus := Line(Item(JugglingMinutesLine(JUGGLING_EXTRA_MINUTES_THRESHOLD), JUGGLING_EXTRA_GOLD, JUGGLING_EXTRA_XP, 0));
      var recordBonus := Line(Item(NewRecordLine, JUGGLING_NEW_RECORD_GOLD, 0, JUGGLING_NEW_RECORD_STARS));
      AppendBalanced(base, minutesBonus);
      var afterMinutes := if task.minutes >= JUGGLING_EXTRA_MINUTES_THRESHOLD then base.Append(minutesBonus) else base;
      AppendBalanced(afterMinutes, recordBonus);
      if task.newRecord then afterMinutes.Append(recordBonus) else afterMinutes
  }

  /** One language session pays its type's table entry, with one line. */
  function CalcLanguageBaseReward(task: LanguageTask): (r: Reward)
    ensures !task.completed ==> r == NO_REWARD
    ensures r.Balanced() && r.gold >= 0 && r.xp >= 0 && r.stars == 0
    ensures task.completed ==>
              r.gold == LanguageGold(task.kind) && r.xp == LanguageXp(task.kind) &&
              r.breakdown == [Item(LanguageLine(task.kind), LanguageGold(task.kind), LanguageXp(task.kind), 0)]
  {
    if !task.completed then NO_REWARD
    else Line(Item(LanguageLine(task.kind), LanguageGold(task.kind), LanguageXp(task.kind), 0))
  }

  /** One random drop pays its type's three table entries, with one line. */
  function CalcRandomDropReward(drop: RandomDrop): (r: Reward)
    ensures !drop.completed ==> r == NO_REWARD
    ensures r.Balanced() && r.NonNegative()
    ensures drop.completed ==>
              r.Value() == Currency(RandomDropGold(drop.kind), RandomDropXp(drop.kind), RandomDropStars(drop.kind)) &&
              r.breakdown == [Item(DropLine(drop.kind), RandomDropGold(drop.kind), RandomDropXp(drop.kind), RandomDropStars(drop.kind))]
  {
    if !drop.completed then NO_REWARD
    else Line(Item(DropLine(drop.kind), RandomDropGold(drop.kind), RandomDropXp(drop.kind), RandomDropStars(drop.kind)))
  }

  /** Better homework never pays less, and the self-check bonus never turns a
      worse quality into a better-paid one. */
  lemma HomeworkMonotone(a: HomeworkTask, b: HomeworkTask)
    requires a.completed && b.completed && a.selfChecked == b.selfChecked
    requires QualityRank(a.quality) < QualityRank(b.quality)
    ensures CalcHomeworkReward(a).gold > CalcHomeworkReward(b).gold
    ensures CalcHomeworkReward(a).xp > CalcHomeworkReward(b).xp
  {
    HomeworkTablesDecrease(a.quality, b.quality);
    var bonusA := if a.selfChecked && a.quality != Incomplete then HOMEWORK_SELF_CHECK_BONUS else 0;
    var bonusB := if b.selfChecked && b.quality != Incomplete then HOMEWORK_SELF_CHECK_BONUS else 0;
    assert CalcHomeworkReward(a).gold == HomeworkGold(a.quality) + bonusA;
    assert CalcHomeworkReward(b).gold == HomeworkGold(b.quality) + bonusB;
    assert bonusB <= bonusA;
  }

  /** A harder completed math session pays strictly more gold and XP. */
  lemma MathMonotone(a: MathTask, b: MathTask)
    requires a.completed && b.completed && a.problems > 0 && b.problems > 0 && a.allCorrect == b.allCorrect
    requires DifficultyRank(a.difficulty) < DifficultyRank(b.difficulty)
    ensures CalcMathReward(a).gold < CalcMathReward(b).gold
    ensures CalcMathReward(a).xp < CalcMathReward(b).xp
  {
    MathTablesIncrease(a.difficulty, b.difficulty);
  }
}
