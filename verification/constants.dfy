/** The reward tables (src/engine/constants.ts). Decimal multipliers and
    percentages are written in tenths: 1.5 is 15, +20% is 2, 10% is 1. */
module Constants {
  import opened Types

  // ==================== Homework ====================

  function HomeworkGold(q: HomeworkQuality): int
  {
    match q
    case Perfect => 4
    case Good => 3
    case Ok => 2
    case Incomplete => 0
  }

  const HOMEWORK_SELF_CHECK_BONUS: int := 1

  function HomeworkXp(q: HomeworkQuality): int
  {
    match q
    case Perfect => 15
    case Good => 10
    case Ok => 5
    case Incomplete => 0
  }

  /** Rank of a quality, best first, to state the ordering of the tables. */
  function QualityRank(q: HomeworkQuality): int
  {
    match q
    case Perfect => 0
    case Good => 1
    case Ok => 2
    case Incomplete => 3
  }

  lemma HomeworkTablesDecrease(p: HomeworkQuality, q: HomeworkQuality)
    requires QualityRank(p) < QualityRank(q)
    ensures HomeworkGold(p) > HomeworkGold(q) && HomeworkXp(p) > HomeworkXp(q)
    ensures HomeworkGold(Incomplete) == 0 && HomeworkXp(Incomplete) == 0
  {
  }

  // ==================== Math ====================

  function MathBaseGold(d: MathDifficulty): int
  {
    match d
    case Basic => 1
    case Medium => 2
    case Hard => 3
    case Competition => 4
    case Olympiad => 5
  }

  function MathBaseXp(d: MathDifficulty): int
  {
    match d
    case Basic => 5
    case Medium => 10
    case Hard => 15
    case Competition => 20
    case Olympiad => 30
  }

  const MATH_ALL_CORRECT_BONUS_GOLD: int := 10
  const MATH_ALL_CORRECT_BONUS_XP: int := 10

  /** MATH_MULTIPLIER in tenths: 1.0, 1.5, 2.0, 2.5, 3.0. */
  function MathMultiplierTenths(d: MathDifficulty): int
  {
    match d
    case Basic => 10
    case Medium => 15
    case Hard => 20
    case Competition => 25
    case Olympiad => 30
  }

  /** MATH_MULTIPLIER_LV10_BONUS = 0.2. */
  const MATH_MULTIPLIER_LV10_BONUS_TENTHS: int := 2

  /** Rank of a difficulty, basic first. */
  function DifficultyRank(d: MathDifficulty): int
  {
    match d
    case Basic => 0
    case Medium => 1
    case Hard => 2
    case Competition => 3
    case Olympiad => 4
  }

  lemma MathTablesIncrease(d: MathDifficulty, e: MathDifficulty)
    requires DifficultyRank(d) < DifficultyRank(e)
    ensures MathBaseGold(d) < MathBaseGold(e) && MathBaseXp(d) < MathBaseXp(e)
    ensures MathMultiplierTenths(d) < MathMultiplierTenths(e)
    ensures MathMultiplierTenths(Basic) == 10
  {
  }

  // ==================== Juggling ====================

  const JUGGLING_BASE_GOLD: int := 10
  const JUGGLING_BASE_XP: int := 10
  const JUGGLING_EXTRA_MINUTES_THRESHOLD: int := 15
  const JUGGLING_EXTRA_GOLD: int := 5
  const JUGGLING_EXTRA_XP: int := 5
  const JUGGLING_NEW_RECORD_GOLD: int := 15
  const JUGGLING_NEW_RECORD_STARS: int := 1

  // ==================== Languages ====================

  function LanguageGold(t: LanguageType): int
  {
    match t
    case EnglishReading => 1
    case EnglishWords => 1
    case French => 4
  }

  function LanguageXp(t: LanguageType): int
  {
    match t
    case EnglishReading => 10
    case EnglishWords => 10
    case French => 15
  }

  const LANGUAGE_COMBO_GOLD: int := 3
  const LANGUAGE_COMBO_XP: int := 0
  const LANGUAGE_COMBO_STARS: int := 0

  const FRENCH_STREAK_DAYS: int := 3
  const FRENCH_STREAK_GOLD: int := 2
  const FRENCH_STREAK_STARS: int := 0

  const FRENCH_WEEKLY_COUNT: int := 5
  const FRENCH_WEEKLY_GOLD: int := 0
  const FRENCH_WEEKLY_STARS: int := 1

  // ==================== Random drops ====================

  function RandomDropGold(t: DropType): int
  {
    match t
    case Piano => 1
    case Handwriting => 1
    case Social => 2
  }

  function RandomDropXp(t: DropType): int
  {
    match t
    case Piano => 10
    case Handwriting => 10
    case Social => 10
  }

  function RandomDropStars(t: DropType): int
  {
    match t
    case Piano => 1
    case Handwriting => 0
    case Social => 1
  }

  // ==================== Levels ====================

  /** XP_PER_LEVEL[lv] is the XP at which level lv starts; index 0 is unused. */
  const XP_PER_LEVEL: seq<int> := [0, 0, 100, 250, 500, 800, 1200, 1700, 2300, 3000, 4000]

  const MAX_LEVEL: int := 10

  const GOLD_BONUS_LEVEL_LOW: int := 4
  const GOLD_BONUS_LEVEL_HIGH: int := 6
  /** GOLD_BONUS_PERCENT = 0.20 */
  const GOLD_BONUS_TENTHS: int := 2

  const STAR_DOUBLE_LEVEL_LOW: int := 7
  const STAR_DOUBLE_LEVEL_HIGH: int := 9

  const DREAM_FUND_LEVEL: int := 10
  /** DREAM_FUND_PERCENT = 0.10 */
  const DREAM_FUND_TENTHS: int := 1

  lemma LevelTableShape()
    ensures |XP_PER_LEVEL| == MAX_LEVEL + 1
    ensures XP_PER_LEVEL[1] == 0
    ensures forall i, j :: 1 <= i < j <= MAX_LEVEL ==> XP_PER_LEVEL[i] < XP_PER_LEVEL[j]
  {
  }

  lemma LevelBandsDisjoint()
    ensures 1 <= GOLD_BONUS_LEVEL_LOW <= GOLD_BONUS_LEVEL_HIGH < STAR_DOUBLE_LEVEL_LOW
    ensures STAR_DOUBLE_LEVEL_LOW <= STAR_DOUBLE_LEVEL_HIGH < DREAM_FUND_LEVEL == MAX_LEVEL
  {
  }

  // ==================== Streaks ====================

  const STREAK_REWARDS: seq<StreakReward> := [
    StreakReward(3, 30, 1, "连击火焰 🔥"),
    StreakReward(7, 70, 3, "一周勇士 ⚔️"),
    StreakReward(14, 0, 5, "升1级 🌟")
  ]

  lemma StreakTableShape()
    ensures |STREAK_REWARDS| == 3
    ensures STREAK_REWARDS[0].days == 3 && STREAK_REWARDS[1].days == 7 && STREAK_REWARDS[2].days == 14
    ensures forall k :: 0 <= k < |STREAK_REWARDS| ==> (STREAK_REWARDS[k].gold == 0 <==> STREAK_REWARDS[k].days == 14)
  {
  }

  // ==================== Achievements ====================

  const ACHIEVEMENT_DEFINITIONS: seq<Achievement> := [
    Achievement("first-perfect", "完美一天", "第一次完成所有每日任务（4项全部完成）", "⭐", true, None, Currency(50, 30, 2)),
    Achievement("math-genius", "奥数天才", "累计完成50道奥数题", "🧮", true, None, Currency(100, 50, 5)),
    Achievement("streak-7", "七日不败", "连续7天完成任务", "🔥", true, None, Currency(70, 40, 3)),
    Achievement("streak-30", "月度传奇", "连续30天完成任务", "🏆", true, None, Currency(300, 200, 10)),
    Achievement("language-master", "语言大师", "单日完成所有3种语言学习", "🌍", true, None, Currency(50, 30, 2)),
    Achievement("french-lover", "法语达人", "法语学习累计达到20次", "🇫🇷", true, None, Currency(80, 50, 5)),
    Achievement("dungeon-master", "副本之王", "完成所有副本", "🏰", true, None, Currency(200, 100, 10)),
    Achievement("gold-hoarder", "金币收藏家", "累计获得1000金币", "💰", true, None, Currency(100, 50, 5))
  ]

  // ==================== Big goals ====================

  const BIG_GOAL_DEFINITIONS: seq<BigGoal> := [
    BigGoal("math-olympiad-prep", "奥数冲刺", "完成100道竞赛/奥数难题", "🏅", 100, 0, false, None, None, Currency(500, 300, 20)),
    BigGoal("french-a1", "法语入门", "法语学习累计达到50次", "🗼", 50, 0, false, None, None, Currency(300, 200, 15)),
    BigGoal("reading-100", "阅读百日", "英语阅读累计达到100次", "📚", 100, 0, false, None, None, Currency(300, 200, 15)),
    BigGoal("streak-30", "30天挑战", "达成30天连续完成任务", "🔥", 30, 0, false, None, None, Currency(500, 300, 20))
  ]

  // ==================== Dungeons ====================

  /** The stage table of a fresh dungeon set: every stage starts at 0 and open,
      and within a dungeon, stages that count the same thing have ascending targets. */
  function CreateDefaultDungeons(): (r: seq<Dungeon>)
    ensures |r| == 3
    ensures forall i :: 0 <= i < |r| ==> !r[i].allCompleted && |r[i].stages| == 3
    ensures forall i, j :: 0 <= i < |r| && 0 <= j < |r[i].stages| ==>
              r[i].stages[j].current == 0 && !r[i].stages[j].completed
    ensures forall i, j, k ::
              (0 <= i < |r| && 0 <= j < k < |r[i].stages| &&
               r[i].stages[j].requirement == r[i].stages[k].requirement) ==>
              r[i].stages[j].target < r[i].stages[k].target
  {
    [
      Dungeon("math-tower", "奥数高塔", "🗼", [
        DungeonStage("math-tower-1", "第一层：基础关", "完成10道竞赛级以上题目", "math-competition-plus", 10, 0, false, Currency(50, 30, 2)),
        DungeonStage("math-tower-2", "第二层：挑战关", "完成20道竞赛级以上题目", "math-competition-plus", 20, 0, false, Currency(80, 50, 3)),
        DungeonStage("math-tower-3", "第三层：奥数关", "完成10道奥数难题", "math-olympiad", 10, 0, false, Currency(120, 80, 5))
      ], false, Currency(100, 50, 5)),
      Dungeon("french-forest", "法语森林", "🌲", [
        DungeonStage("french-forest-1", "林间小径", "法语学习累计10次", "french-count", 10, 0, false, Currency(40, 25, 2)),
        DungeonStage("french-forest-2", "密林深处", "法语学习累计25次", "french-count", 25, 0, false, Currency(70, 40, 3)),
        DungeonStage("french-forest-3", "森林之心", "法语学习累计50次", "french-count", 50, 0, false, Currency(100, 60, 5))
      ], false, Currency(80, 40, 5)),
      Dungeon("english-ocean", "英语海洋", "🌊", [
        DungeonStage("english-ocean-1", "浅海探索", "英语阅读累计15次", "english-reading-count", 15, 0, false, Currency(40, 25, 2)),
        DungeonStage("english-ocean-2", "深海潜行", "英语阅读累计40次", "english-reading-count", 40, 0, false, Currency(70, 40, 3)),
        DungeonStage("english-ocean-3", "海底宝藏", "英语阅读累计80次", "english-reading-count", 80, 0, false, Currency(100, 60, 5))
      ], false, Currency(80, 40, 5))
    ]
  }

  // ==================== Weekly challenges ====================

  /** The three challenges of a week, keyed by the week id. */
  function CreateDefaultWeeklyChallenges(weekId: string): (r: seq<WeeklyChallenge>)
    ensures |r| == 3
    ensures r[0].id == weekId + "-homework-5" && r[1].id == weekId + "-math-3" && r[2].id == weekId + "-language-4"
    ensures forall i :: 0 <= i < |r| ==> r[i].current == 0 && !r[i].completed
  {
    [
      WeeklyChallenge(weekId + "-homework-5", "作业达人", "本周完成5天作业（good以上）", 5, 0, Currency(50, 30, 2), false),
      WeeklyChallenge(weekId + "-math-3", "数学冲刺", "本周完成3天数学练习（hard以上）", 3, 0, Currency(60, 40, 3), false),
      WeeklyChallenge(weekId + "-language-4", "多语种学者", "本周完成4天语言学习", 4, 0, Currency(50, 30, 2), false)
    ]
  }

  const WEEKLY_CHALLENGE_BONUS_THRESHOLD: int := 2
  const WEEKLY_CHALLENGE_BONUS := Currency(100, 50, 5)

  /** The bonus threshold can be met by the three default challenges. */
  lemma ChallengeBonusReachable(weekId: string)
    ensures WEEKLY_CHALLENGE_BONUS_THRESHOLD <= |CreateDefaultWeeklyChallenges(weekId)|
  {
  }

  const ALL_DUNGEONS_CLEARED_BONUS := Currency(300, 200, 15)
}
