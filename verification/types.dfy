/** The records of the daily reward engine (src/types/index.ts). Numbers are
    unbounded integers; a math multiplier is kept in tenths (1.5 is 15). */
module Types {

  datatype Option<T> = None | Some(value: T)

  /** The three currencies. */
  datatype Currency = Currency(gold: int, xp: int, stars: int)
  {
    function Plus(other: Currency): Currency
    {
      Currency(gold + other.gold, xp + other.xp, stars + other.stars)
    }
  }

  const NO_CURRENCY := Currency(0, 0, 0)

  // ==================== Player ====================

  datatype Player = Player(
    name: string, title: string, level: int, xp: int, xpToNext: int,
    gold: int, stars: int, streak: int, lastActiveDate: string,
    totalDaysPlayed: int, dreamFund: int, createdAt: string)

  // ==================== Daily tasks ====================

  datatype HomeworkQuality = Perfect | Good | Ok | Incomplete
  datatype MathDifficulty = Basic | Medium | Hard | Competition | Olympiad
  datatype LanguageType = EnglishReading | EnglishWords | French
  datatype DropType = Piano | Handwriting | Social

  datatype HomeworkTask = HomeworkTask(completed: bool, quality: HomeworkQuality, selfChecked: bool)
  datatype MathTask = MathTask(completed: bool, difficulty: MathDifficulty, problems: nat, allCorrect: bool)
  datatype JugglingTask = JugglingTask(completed: bool, minutes: int, newRecord: bool)
  datatype LanguageTask = LanguageTask(kind: LanguageType, completed: bool, minutes: int)
  datatype RandomDrop = RandomDrop(kind: DropType, completed: bool, note: Option<string>)

  // ==================== Reward breakdown ====================

  /** What a breakdown line was paid for; the source's display labels are
      formatted from exactly these parameters. */
  datatype Source =
    | HomeworkLine(quality: HomeworkQuality)
    | SelfCheckLine
    | MathLine(difficulty: MathDifficulty)
    | AllCorrectLine
    | JugglingLine
    | JugglingMinutesLine(threshold: int)
    | NewRecordLine
    | LanguageLine(language: LanguageType)
    | DropLine(drop: DropType)
    | LanguageComboLine
    | FrenchStreakLine(days: int)
    | FrenchWeeklyLine(count: int)
    | LevelGoldLine(level: int)
    | MultiplierLine(tenths: int)
    | StreakLine(days: int)
    | StreakLevelUpLine(days: int)
    | LevelStarLine(level: int)
    | DreamFundLine
    | DungeonStageLine(dungeon: string, stage: string)
    | DungeonClearLine(dungeon: string)
    | BigGoalLine(goal: string)
    | ChallengeLine(challenge: string)
    | ChallengeBonusLine(completed: int, total: int)

  datatype BreakdownItem = Item(source: Source, gold: int, xp: int, stars: int)
  {
    function Value(): Currency { Currency(gold, xp, stars) }
  }

  /** The currency a list of breakdown lines adds up to. */
  function Total(items: seq<BreakdownItem>): Currency
  {
    if items == [] then NO_CURRENCY else items[0].Value().Plus(Total(items[1..]))
  }

  lemma {:induction false} TotalAppend(a: seq<BreakdownItem>, b: seq<BreakdownItem>)
    ensures Total(a + b) == Total(a).Plus(Total(b))
  {
    if a != [] {
      assert (a + b)[1..] == a[1..] + b;
      TotalAppend(a[1..], b);
    } else {
      assert a + b == b;
    }
  }

  /** A single line adds up to its own value. */
  lemma TotalSingleton(x: BreakdownItem)
    ensures Total([x]) == x.Value()
  {
    assert [x][1..] == [];
  }

  /** What a scorer returns: totals plus the lines that justify them. */
  datatype Reward = Reward(gold: int, xp: int, stars: int, breakdown: seq<BreakdownItem>)
  {
    function Value(): Currency { Currency(gold, xp, stars) }

    /** No currency is taken away. */
    predicate NonNegative() { gold >= 0 && xp >= 0 && stars >= 0 }

    /** The totals are exactly the sums of the breakdown lines. */
    predicate Balanced() { Value() == Total(breakdown) }

    /** Adds another reward's totals and appends its lines, as the engine's
        accumulating loops do with `+=` and `breakdown.push(...)`. */
    function Append(other: Reward): Reward
    {
      Reward(gold + other.gold, xp + other.xp, stars + other.stars, breakdown + other.breakdown)
    }
  }

  /** Appending keeps totals and lines in step. */
  lemma AppendBalanced(a: Reward, b: Reward)
    requires a.Balanced() && b.Balanced()
    ensures a.Append(b).Balanced()
  {
    TotalAppend(a.breakdown, b.breakdown);
  }

  const NO_REWARD := Reward(0, 0, 0, [])

  /** A reward made of a single breakdown line. */
  function Line(item: BreakdownItem): (r: Reward)
    ensures r.Balanced() && r.breakdown == [item]
    ensures r.gold == item.gold && r.xp == item.xp && r.stars == item.stars
  {
    assert [item][1..] == [];
    Reward(item.gold, item.xp, item.stars, [item])
  }

  /** A line that is present only when `c` holds. */
  function IfItem(c: bool, item: BreakdownItem): seq<BreakdownItem>
  {
    if c then [item] else []
  }

  /** An optional line as a reward: the line when `c` holds, nothing otherwise. */
  function LineIf(c: bool, item: BreakdownItem): (r: Reward)
    ensures r.Balanced() && r.breakdown == IfItem(c, item)
    ensures r.Value() == if c then item.Value() else NO_CURRENCY
    ensures !c ==> r == NO_REWARD
  {
    if c then Line(item) else NO_REWARD
  }

  /** The reward made of a list of lines: its totals are their sums. */
  function OfLines(items: seq<BreakdownItem>): (r: Reward)
    ensures r.Balanced() && r.breakdown == items
  {
    var t := Total(items);
    Reward(t.gold, t.xp, t.stars, items)
  }

  /** Adding one more line to a list is appending that line's reward. */
  lemma OfLinesAddLine(items: seq<BreakdownItem>, item: BreakdownItem)
    ensures OfLines(items + [item]) == OfLines(items).Append(Line(item))
  {
    TotalAppend(items, [item]);
    TotalSingleton(item);
  }

  /** Adding an optional line. */
  lemma OfLinesAddIf(items: seq<BreakdownItem>, c: bool, item: BreakdownItem)
    ensures OfLines(items + IfItem(c, item)) == if c then OfLines(items).Append(Line(item)) else OfLines(items)
  {
    if c {
      OfLinesAddLine(items, item);
    } else {
      assert items + [] == items;
    }
  }

  lemma AppendAssociative(a: Reward, b: Reward, c: Reward)
    ensures a.Append(b).Append(c) == a.Append(b.Append(c))
  {
    assert (a.breakdown + b.breakdown) + c.breakdown == a.breakdown + (b.breakdown + c.breakdown);
  }

  /** Appending nothing changes nothing. */
  lemma AppendNothing(a: Reward)
    ensures a.Append(NO_REWARD) == a && NO_REWARD.Append(a) == a
  {
    assert a.breakdown + [] == a.breakdown;
    assert [] + a.breakdown == a.breakdown;
  }

  // ==================== Daily log ====================

  datatype DailyRewards = DailyRewards(
    baseGold: int, levelBonusGold: int, mathMultipliedGold: int, streakGold: int, totalGold: int,
    baseXp: int, totalXp: int,
    baseStars: int, levelBonusStars: int, totalStars: int,
    breakdown: seq<BreakdownItem>)

  const EMPTY_DAILY_REWARDS := DailyRewards(0, 0, 0, 0, 0, 0, 0, 0, 0, 0, [])

  datatype DailyLog = DailyLog(
    date: string,
    homework: HomeworkTask,
    math: MathTask,
    juggling: JugglingTask,
    languages: seq<LanguageTask>,
    randomDrops: seq<RandomDrop>,
    rewards: DailyRewards,
    mathMultiplier: int,
    streakDay: int)

  // ==================== Weekly ====================

  datatype WeeklyChallenge = WeeklyChallenge(
    id: string, title: string, description: string,
    target: int, current: int, reward: Currency, completed: bool)

  datatype WeeklySummary = WeeklySummary(
    weekId: string, daysActive: nat, totalGold: int, totalXp: int, totalStars: int,
    longestStreak: nat, achievementsUnlocked: seq<string>, challengesCompleted: nat)

  // ==================== Dungeons ====================

  datatype DungeonStage = DungeonStage(
    id: string, name: string, description: string, requirement: string,
    target: int, current: int, completed: bool, reward: Currency)

  datatype Dungeon = Dungeon(
    id: string, name: string, icon: string, stages: seq<DungeonStage>,
    allCompleted: bool, completionBonus: Currency)

  datatype DungeonProgress = DungeonProgress(
    dungeons: seq<Dungeon>, totalCompletionBonus: Currency, allDungeonsCleared: bool)

  // ==================== Achievements ====================

  datatype Achievement = Achievement(
    id: string, name: string, description: string, icon: string, hidden: bool,
    unlockedAt: Option<string>, reward: Currency)

  // ==================== Big goals ====================

  datatype RewardChoice = DoubleGold | DoubleStars | SpecialTitle

  datatype BigGoal = BigGoal(
    id: string, name: string, description: string, icon: string,
    target: int, current: int, completed: bool,
    completedAt: Option<string>, rewardChoice: Option<RewardChoice>, reward: Currency)

  // ==================== Streak rewards ====================

  datatype StreakReward = StreakReward(days: int, gold: int, stars: int, special: string)

  // ==================== Thinking archive ====================

  datatype ReflectionType = Discovery | OpenQuestion | MethodLogType

  /** `approach` is the source's `method` field (`method` is a keyword here). */
  datatype MethodLog = MethodLog(problem: string, approach: string, principle: string)

  datatype ThinkingArchiveEntry = ThinkingArchiveEntry(
    id: string, date: string, weekId: string, kind: ReflectionType, content: string,
    methodLog: Option<MethodLog>, goldEarned: int, linkedDate: Option<string>)
}
