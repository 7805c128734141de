# tlga reward engine and stores, in Dafny

tlga is a learning-game app for a child. Each day's tasks earn gold, XP and stars: homework, math at five difficulty levels, juggling, language sessions and random drops. On top of that come level bonuses, a math multiplier, streak milestones, dungeons, big goals, weekly challenges and achievements. A parent plans the week's tasks from a task catalog. The plan is turned into daily progress sheets, which the child fills in. The parent reviews, overrides and approves the sheets, and approval credits the player.

This project models three parts of the app:

- **The reward engine** (`src/engine/*.ts`, the catalog in `src/types/tasks.ts` and the lookups in `src/utils/tasks.ts`). It is written as pure functions over datatypes. Where the source computes with a loop, the model is a method proved against a recursive specification function.
- **The stores** (player, progress sheets, weekly plan, daily log, task definitions, weekly templates, thinking archive, password gate) and the daily-template composable. Each is a class whose methods update its fields in place, as the source's stores do.

Modelling conventions:

- **Multipliers** (1.0, 1.2, 1.5, ...) are integer tenths. `Math.floor(g * m)` becomes `(g * t) / 10`.
- **Breakdown lines** carry a structural `Source` tag instead of their display text.
- **Persistence** is held in fields. A store's storage is a `map` from path, key or date to the stored value. The stored copy of a list is an `Option`. The player credited by a daily-log save is a log of credited rewards.
- **The clock, generated ids and week dates** are parameters.

| module | models |
|---|---|
| `Types`, `Constants`, `TaskCatalog` | the records of `src/types`, the reward tables of `src/engine/constants.ts`, the built-in catalog of `src/types/tasks.ts` |
| `TaskLookup` | `src/utils/tasks.ts` |
| `DailyScoring`, `RandomDropRewards`, `LanguageBonus`, `Level`, `MathMultiplier`, `Streak`, `DailyAggregator` | the daily reward pipeline |
| `DungeonScoring`, `BigGoals`, `WeeklyChallenges`, `WeeklyAggregator`, `Achievements` | long-running progress and the weekly summary |
| `Settlement`, `AllAnchors`, `ReflectionAnchor`, `WeeklyPlans` | the plan-based flow: plans, sheets and their settlement |
| `PlayerStores`, `ProgressStores`, `PlanStores`, `DailyLogStores`, `TaskDefinitionsStores`, `WeeklyTemplateStores`, `ThinkingArchiveStores`, `AuthStores`, `DailyTemplates` | the stores and the template composable |
| `Seqs`, `Strings` | the JavaScript array and string built-ins the source relies on (`findIndex`, `filter`, `splice`, `trim`, `toLowerCase`, decimal printing) |

## Model

| member | source | states |
|---|---|---|
| Constants.HomeworkTablesDecrease | src/engine/constants.ts:14-28 | homework gold and XP strictly decrease from perfect to good to ok to incomplete, and incomplete pays nothing |
| Constants.MathTablesIncrease | src/engine/constants.ts:32-59 | base gold, base XP and the multiplier strictly increase from basic to olympiad; the basic multiplier is exactly 1.0 |
| Constants.LevelTableShape | src/engine/constants.ts:120-134 | the XP thresholds run over levels 1..10, start at 0 and strictly increase |
| Constants.LevelBandsDisjoint | src/engine/constants.ts:137-145 | the gold band 4-6, the star band 7-9 and the dream-fund level 10 lie inside 1..10 and do not overlap |
| Constants.StreakTableShape | src/engine/constants.ts:161-165 | the milestones are 3, 7 and 14 days in that order, and only the 14-day one pays no gold |
| Constants.CreateDefaultDungeons | src/engine/constants.ts:280-400 | three dungeons of three stages, every stage at 0 and not completed, and stages sharing a requirement in one dungeon have strictly ascending targets |
| Constants.CreateDefaultWeeklyChallenges | src/engine/constants.ts:403-433 | three challenges with ids `<week>-homework-5`, `-math-3`, `-language-4`, all at 0 and not completed |
| Constants.ChallengeBonusReachable | src/engine/constants.ts:403-437 | the bonus threshold (2) does not exceed the number of default challenges |
| TaskCatalog.CatalogIdsUnique | src/types/tasks.ts:123-265 | no two built-in tasks share an id |
| TaskCatalog.CatalogBaseIsFirstVariant | src/types/tasks.ts:123-265 | every built-in task with variants has the base gold and XP of its first variant |
| TaskCatalog.ComboTiersAscending | src/types/tasks.ts:269-272 | the language-combo tiers are for 2 and then 3 languages |
| TaskCatalog.FindTaskIn | src/types/tasks.ts:290-292 | the result is the first entry with the id, and none exactly when no entry has it |
| TaskCatalog.TasksInCategory | src/types/tasks.ts:286-288 | exactly the catalog entries of the category (the order is shown by TaskLookup.CategoryListOrder and TasksInCategoryAppend) |
| TaskCatalog.FindVariant | src/types/tasks.ts:297-299 | the first variant of the level, and none exactly when no variant has it |
| TaskCatalog.RewardIn | src/types/tasks.ts:294-301 | zero for an unknown id; the variant's reward when a non-empty variant names a level of the task; otherwise the base reward |
| TaskCatalog.TasksInCategoryAppend | src/types/tasks.ts:286-288 | filtering by category keeps the catalog order: filtering a join is joining the filtered parts |
| TaskCatalog.GetTaskByIdFindsEach | src/types/tasks.ts:290-292 | every built-in task is found by its own id |
| TaskLookup.AllTaskDefinitions | src/utils/tasks.ts:8-11 | the built-in catalog followed by the custom tasks, in that order |
| TaskLookup.FindTaskInAppend | src/utils/tasks.ts:23-25 | a lookup in a joined list takes the first part's match when it has one |
| TaskLookup.BuiltinShadowsCustom | src/utils/tasks.ts:23-25 | a built-in task hides a custom task with the same id; otherwise the custom list is searched |
| TaskLookup.RewardFollowsLookup | src/utils/tasks.ts:30-38 | the combined reward follows the same chain: built-in match, else custom match, else zero |
| TaskLookup.CategoryListOrder | src/utils/tasks.ts:16-18 | the combined category list is the built-in ones of the category followed by the custom ones |
| DailyScoring.CalcHomeworkReward | src/engine/daily-scoring.ts:21-38 | nothing when not completed; otherwise the quality's gold and XP plus the self-check gold only when self-checked and not incomplete; never stars; totals equal the breakdown sums |
| DailyScoring.CalcMathReward | src/engine/daily-scoring.ts:43-61 | nothing when not completed or when no problems were done; otherwise the difficulty's base plus exactly the all-correct bonus when all correct; never stars; totals equal the breakdown sums |
| DailyScoring.CalcJugglingReward | src/engine/daily-scoring.ts:66-91 | nothing when not completed; otherwise base plus the 15-minute bonus and the new-record bonus independently, one star iff a new record; totals equal the breakdown sums |
| DailyScoring.CalcLanguageBaseReward | src/engine/daily-scoring.ts:96-115 | nothing when not completed; otherwise the language's gold and XP as one line, never stars |
| DailyScoring.CalcRandomDropReward | src/engine/daily-scoring.ts:120-136 | nothing when not completed; otherwise the drop type's gold, XP and stars as one line |
| DailyScoring.HomeworkMonotone | src/engine/daily-scoring.ts:21-38 | with the same self-check, a better homework quality pays strictly more gold and XP |
| DailyScoring.MathMonotone | src/engine/daily-scoring.ts:43-61 | with the same all-correct flag, a harder difficulty pays strictly more gold and XP |
| RandomDropRewards.CalcAllRandomDrops | src/engine/random-drop.ts:14-29 | the loop's totals and breakdown are those of every drop's reward joined in input order |
| RandomDropRewards.AllDropsRewardAppend | src/engine/random-drop.ts:20-26 | the drops of two lists add up to the two sums joined |
| RandomDropRewards.AllDropsBalanced | src/engine/random-drop.ts:20-26 | the totals equal the sums of the breakdown lines and are never negative |
| RandomDropRewards.NoDropsNoReward | src/engine/random-drop.ts:15-28 | no drops give zero totals and an empty breakdown |
| RandomDropRewards.IncompleteDropIgnored | src/engine/random-drop.ts:20-26 | an incomplete drop anywhere in the list changes nothing |
| RandomDropRewards.AllDropsValue | src/engine/random-drop.ts:20-24 | the totals are the sum of each drop's table reward |
| RandomDropRewards.DropTotalsIgnoreOrder | src/engine/random-drop.ts:20-26 | any reordering of the drops gives the same totals |
| LanguageBonus.HasLanguageCombo | src/engine/language-bonus.ts:21-24 | true iff every one of the three languages occurs among the completed tasks |
| LanguageBonus.ComboIgnoresOrderAndRepeats | src/engine/language-bonus.ts:21-24 | lists with the same members (in any order, with any repeats) agree on the combo |
| LanguageBonus.ComboImpliesFrench | src/engine/language-bonus.ts:21-24 | a combo day is a French day |
| LanguageBonus.FrenchRun | src/engine/language-bonus.ts:33-43 | the length of the leading run of French days; the entry after it, if any, has no French |
| LanguageBonus.HasFrenchStreak | src/engine/language-bonus.ts:29-44 | true iff today has completed French and 1 plus the leading French run of earlier days reaches 3; false whatever the history when today has none |
| LanguageBonus.CountFrenchDays | src/engine/language-bonus.ts:52-58 | the number of logs with completed French, at most the number of logs |
| LanguageBonus.CountFrenchInWeek | src/engine/language-bonus.ts:49-60 | today's French (0 or 1) plus the week's French days, so at most one more than the number of logs |
| LanguageBonus.BonusLinesDistinct | src/engine/language-bonus.ts:79-117 | the three bonus lines carry different labels |
| LanguageBonus.AssembleBonus | src/engine/language-bonus.ts:68-128 | the lines are combo, streak, weekly, each present only when it applies, with the flags as given |
| LanguageBonus.AssembleBonusBalanced | src/engine/language-bonus.ts:73-121 | the bonus totals equal the sums of its lines and are never negative |
| LanguageBonus.WeeklyLineIffPaid | src/engine/language-bonus.ts:106-120 | the weekly line appears iff the weekly bonus is paid |
| LanguageBonus.LanguageBonus | src/engine/language-bonus.ts:68-128 | the combo flag is the combo test, the streak flag the streak test, and the weekly flag holds iff the week's count reaches 5 |
| LanguageBonus.LanguageBonusLines | src/engine/language-bonus.ts:73-121 | the breakdown is combo, streak, weekly in that order, each only when due; gold, XP and stars add up those lines |
| LanguageBonus.CalcLanguageBonus | src/engine/language-bonus.ts:68-128 | the accumulating loop gives exactly the specified bonus |
| LanguageBonus.NoFrenchTodayNoFrenchBonus | src/engine/language-bonus.ts:30-31 | without French today there is no streak, no weekly line and no combo, whatever the history |
| LanguageBonus.WeeklyFlagWithoutPayment | src/engine/language-bonus.ts:105-120 | once the week already had 5 French days, the flag is set but no weekly line is paid |
| Level.LevelOf | src/engine/level.ts:11-18 | a level in 1..10 whose threshold is met (or 1), with no higher threshold met |
| Level.CalcLevel | src/engine/level.ts:11-18 | the descending loop returns exactly that level |
| Level.LevelIsHighestMet | src/engine/level.ts:11-18 | any level meeting that description is the computed one |
| Level.LevelMonotone | src/engine/level.ts:11-18 | more XP never gives a lower level |
| Level.LevelAtThreshold | src/engine/level.ts:11-18 | each threshold reaches exactly its own level |
| Level.XpToNextLevel | src/engine/level.ts:23-27 | 0 at level 10; otherwise positive, and that much more XP gives exactly one level more |
| Level.XpToNextLevelIsLeast | src/engine/level.ts:23-27 | any smaller amount leaves the level unchanged |
| Level.XpForLevel | src/engine/level.ts:32-35 | 0 outside 1..10; inside, an XP amount of that level below which the level is lower |
| Level.ApplyLevelGoldBonus | src/engine/level.ts:40-52 | the identity outside levels 4-6 |
| Level.GoldBonusRoundsDown | src/engine/level.ts:47-52 | inside levels 4-6 the result is floor(gold x 1.2) |
| Level.GoldBonusBounds | src/engine/level.ts:47-52 | for non-negative gold the result lies between gold and 1.2 x gold |
| Level.ApplyLevelStarBonus | src/engine/level.ts:57-69 | doubles the stars at levels 7-9 and is the identity otherwise |
| Level.CalcDreamFund | src/engine/level.ts:74-84 | 0 below level 10 |
| Level.DreamFundRoundsDown | src/engine/level.ts:81-84 | at level 10 the fund is floor(gold / 10) |
| Level.DreamFundBounds | src/engine/level.ts:81-84 | the fund lies between 0 and the gold |
| Level.LevelPerksExclusive | src/engine/level.ts:40-76 | no level has two of the three perks |
| Level.DreamFundByXp | src/engine/level.ts:74-76 | the dream fund is on iff the XP reaches the level-10 threshold |
| Level.GoldBandByXp | src/engine/level.ts:40-42 | the gold band is on iff the XP lies between the level-4 and level-7 thresholds |
| MathMultiplier.GetMathMultiplier | src/engine/math-multiplier.ts:16-20 | the difficulty's multiplier, plus 0.2 from level 10, and never below 1.0 |
| MathMultiplier.MultiplierMonotone | src/engine/math-multiplier.ts:16-20 | non-decreasing in difficulty and level, strictly increasing in difficulty |
| MathMultiplier.ApplyMathMultiplier | src/engine/math-multiplier.ts:26-28 | the multiplied gold is floor(gold x m): ten times the result is at most the product of gold and tenths, and the next integer up would exceed it |
| MathMultiplier.MultiplierBounds | src/engine/math-multiplier.ts:26-28 | x1.0 is the identity, a multiplier of at least 1.0 never lowers non-negative gold, and more gold never gives less |
| MathMultiplier.MultiplierRoundsDown | src/engine/math-multiplier.ts:26-28 | 33 at x1.5 gives 49 and 100 gives 150 |
| Streak.ActivityDependsOnlyOnCompletion | src/engine/streak.ts:37-45 | whether a day is active depends only on the homework, math, juggling and language completion flags; two logs that agree on them agree on activity |
| Streak.ActiveRun | src/engine/streak.ts:21-31 | the length of the leading run of active earlier days; the day after it, if any, is inactive |
| Streak.CalcStreak | src/engine/streak.ts:18-32 | 0 when today is inactive whatever the history; otherwise 1 plus the leading run of active days |
| Streak.CalcStreakRewards | src/engine/streak.ts:56-99 | the loop over the milestone table gives exactly the table-driven result |
| Streak.StreakRewardsTable | src/engine/streak.ts:56-99 | each milestone fires iff the streak is positive and divisible by its days, several on one day; 3 days: 30 gold and 1 star, 7 days: 70 gold and 3 stars, 14 days: 5 stars, no gold, and the XP that reaches the next level; lines and day list in table order |
| Streak.StreakRewardsBalanced | src/engine/streak.ts:76-88 | the lines add up to the gold, the XP bonus and the stars |
| Streak.LevelUpDayPaysSevenDay | src/engine/streak.ts:63-64 | every 14-day milestone day is also a 7-day milestone day |
| Streak.LevelUpDayLevelsUp | src/engine/streak.ts:65-75 | below level 10 the 14-day XP bonus lifts the player exactly one level |
| Streak.NoStreakNoReward | src/engine/streak.ts:56-98 | without a streak there is no gold, no stars, no XP bonus, no line and no triggered milestone |
| DailyAggregator.SumLanguageBase | src/engine/daily-aggregator.ts:50-56 | the loop adds up every language's base reward with its lines in order |
| DailyAggregator.LanguagesBaseBalanced | src/engine/daily-aggregator.ts:50-56 | the language base totals equal their lines, are never negative and carry no stars |
| DailyAggregator.BaseBalanced | src/engine/daily-aggregator.ts:72-78 | the base totals (three task scorers, every language, the language bonus, the drops) equal the sums of the base lines and are never negative |
| DailyAggregator.MultiplierFor | src/engine/daily-aggregator.ts:93-96 | the multiplier is at least 1.0, and exactly 1.0 when math was not completed |
| DailyAggregator.StreakDayOf | src/engine/daily-aggregator.ts:110-112 | today's streak is never negative |
| DailyAggregator.ArrangeBaseLines | src/engine/daily-aggregator.ts:61-70 | the base lines come in the order homework, math, juggling, languages, language bonus, drops |
| DailyAggregator.CollectBaseRewards | src/engine/daily-aggregator.ts:42-78 | the base reward is the sum of the three scorers, every language, the language bonus and the drops |
| DailyAggregator.ApplyBonuses | src/engine/daily-aggregator.ts:80-156 | level gold bonus on the summed base gold, then the multiplier, then unmultiplied streak gold, then the star bonus, then the dream fund on the total gold; the lines add up to total gold plus the dream fund, total XP and total stars |
| DailyAggregator.CalcDailyRewards | src/engine/daily-aggregator.ts:38-165 | the seven steps in order, the milestones paid on the player's XP plus today's base XP; the breakdown gold sums to total gold plus the dream fund, while XP and stars sum to their totals |
| DailyAggregator.FinishBalanced | src/engine/daily-aggregator.ts:133-156 | the dream-fund line is not part of total gold: every other line adds up to the totals |
| DailyAggregator.MilestonesSound | src/engine/streak.ts:56-99 | on every day the streak lines add up to the streak totals and none is negative |
| DungeonScoring.TallyBounds | src/engine/dungeon-scoring.ts:14-29 | the competition-and-olympiad count is at least the olympiad count, and the French and English-reading counters count days, so neither exceeds the number of logs |
| DungeonScoring.TallyLogs | src/engine/dungeon-scoring.ts:8-29 | the counting loop gives exactly the counters of all the logs |
| DungeonScoring.UpdateStage | src/engine/dungeon-scoring.ts:33-53 | the stage's current is the counter its requirement selects (0 for an unknown one), it is completed iff current reaches the target, and nothing else changes |
| DungeonScoring.UpdateDungeon | src/engine/dungeon-scoring.ts:31-58 | every stage updated in place, all-completed iff every stage is, id, name, icon and bonus kept |
| DungeonScoring.UpdateDungeons | src/engine/dungeon-scoring.ts:31-60 | the dungeons keep their number and order, each updated on the same counters |
| DungeonScoring.UpdateDungeonProgress | src/engine/dungeon-scoring.ts:7-61 | the result depends only on the counters of all the logs and the static stage fields |
| DungeonScoring.UpdateIdempotent | src/engine/dungeon-scoring.ts:7-61 | updating twice with the same logs equals updating once |
| DungeonScoring.UpdateKeepsShape | src/engine/dungeon-scoring.ts:31-58 | ids, order, targets, requirements and rewards of every stage are preserved |
| DungeonScoring.HigherTargetCompletesLater | src/engine/dungeon-scoring.ts:51-53 | of two stages on the same requirement, the one with the higher target is completed only if the lower one is |
| DungeonScoring.PayStages | src/engine/dungeon-scoring.ts:79-92 | the inner loop adds one line per stage completed now and not before, in stage order |
| DungeonScoring.CalcDungeonRewards | src/engine/dungeon-scoring.ts:66-109 | the totals and lines are exactly the newly completed stages followed by the clear bonus of each dungeon that turned all-completed, dungeon by dungeon; totals equal the lines |
| DungeonScoring.NothingNewPaysNothing | src/engine/dungeon-scoring.ts:75-106 | when no stage and no dungeon turned complete, nothing is paid |
| DungeonScoring.SameDungeonsPayNothing | src/engine/dungeon-scoring.ts:75-106 | comparing a list with itself pays nothing |
| DungeonScoring.NewStagePays | src/engine/dungeon-scoring.ts:80-91 | every stage completed now and not before is paid |
| DungeonScoring.StageLinesAreNew | src/engine/dungeon-scoring.ts:80-91 | every stage line paid belongs to a stage completed now and not before |
| DungeonScoring.CheckAllDungeonsCleared | src/engine/dungeon-scoring.ts:114-121 | cleared iff every dungeon is all-completed (so an empty list is cleared), the bonus exactly then, dungeons passed through |
| DungeonScoring.FreshDungeonsNotCleared | src/engine/dungeon-scoring.ts:114-121 | the default dungeons are not cleared, the empty list is |
| BigGoals.CountLogs | src/engine/big-goals.ts:12-25 | the counting loop gives exactly the counters of all the logs |
| BigGoals.MaxStreakIsMaximum | src/engine/big-goals.ts:22-24 | the streak counter is the largest stored streak day, 0 for no logs |
| BigGoals.CountsAgreeWithDungeons | src/engine/big-goals.ts:12-21 | the competition, French and reading counters equal the dungeon counters on the same logs |
| BigGoals.UpdateGoal | src/engine/big-goals.ts:27-51 | a completed goal is returned unchanged; otherwise current is the counter its id selects (0 for an unknown id) and it is completed iff current reaches the target |
| BigGoals.UpdateGoals | src/engine/big-goals.ts:27-51 | same length and order, each goal updated on the same counters |
| BigGoals.UpdateBigGoalProgress | src/engine/big-goals.ts:6-52 | the result depends only on the counters of all the logs |
| BigGoals.UpdateGoalsIdempotent | src/engine/big-goals.ts:27-51 | updating twice with the same logs equals updating once |
| BigGoals.CompletionSticky | src/engine/big-goals.ts:28 | a completed goal stays as it is; id, target and reward never change |
| BigGoals.ApplyBigGoalRewardChoice | src/engine/big-goals.ts:57-74 | double gold doubles only gold, double stars only stars, the title choice keeps the reward and adds the goal's title |
| BigGoals.ChoiceNeverPaysLess | src/engine/big-goals.ts:57-74 | no choice pays less than the base reward, and the title choice pays exactly it |
| BigGoals.TitlesDistinct | src/engine/big-goals.ts:76-84 | the four known goals have four different titles, none the default one |
| BigGoals.GoalLines | src/engine/big-goals.ts:105-113 | one line per goal, carrying its reward |
| BigGoals.CalcBigGoalRewards | src/engine/big-goals.ts:89-120 | the newly completed list is the goals completed now and not before, in index order, and the totals and lines cover exactly those |
| BigGoals.NewGoalsExact | src/engine/big-goals.ts:99-104 | every goal completed now and not before is listed, and only such goals |
| BigGoals.SameGoalsPayNothing | src/engine/big-goals.ts:99-104 | comparing a list with itself lists nothing |
| BigGoals.CompletedGoalsNotRepaid | src/engine/big-goals.ts:99-104 | goals completed before are never listed again |
| WeeklyChallenges.KindOf | src/engine/weekly-challenge.ts:22-34 | the kind is chosen by the first of "homework", "math", "language" the id contains, none when it contains none |
| WeeklyChallenges.DaysCounted | src/engine/weekly-challenge.ts:20-34 | a count of week days, at most the number of logs, and 0 for an unrecognised id |
| WeeklyChallenges.UpdateChallenge | src/engine/weekly-challenge.ts:19-41 | current counts the good-homework, hard-math or language days the kind selects, completed iff current reaches the target, all other fields kept |
| WeeklyChallenges.UpdateChallengeProgress | src/engine/weekly-challenge.ts:15-42 | same length and order, each challenge updated on the same week |
| WeeklyChallenges.UpdateChallengeIdempotent | src/engine/weekly-challenge.ts:15-42 | updating twice with the same week equals updating once |
| WeeklyChallenges.DefaultHomeworkChallengeKind | src/engine/constants.ts:403-433 | the first default challenge counts homework days |
| WeeklyChallenges.EmptyWeekCompletesNothing | src/engine/weekly-challenge.ts:36-40 | with no logs no challenge with a positive target is completed |
| WeeklyChallenges.CalcWeeklyChallengeRewards | src/engine/weekly-challenge.ts:47-89 | the challenges are returned unchanged, the count is the number of completed ones, the bonus is earned iff it reaches 2, and the lines are one per completed challenge then the bonus; totals equal the lines |
| WeeklyChallenges.EveryCompletedChallengePaid | src/engine/weekly-challenge.ts:55-67 | every completed challenge is paid, newly completed or not |
| WeeklyChallenges.OneLinePerCompletedChallenge | src/engine/weekly-challenge.ts:53-67 | the number of challenge lines is the completed count |
| WeeklyChallenges.OnlyCompletedChallengesPaid | src/engine/weekly-challenge.ts:55-67 | every challenge line belongs to a completed challenge |
| WeeklyAggregator.RewardSumAppend | src/engine/weekly-aggregator.ts:20-22 | the stored totals of two runs of logs add up |
| WeeklyAggregator.LongestStreakIsMaximum | src/engine/weekly-aggregator.ts:29-31 | the longest streak is the largest stored streak day (0 for no logs), the same value the big-goal counter uses |
| WeeklyAggregator.SummaryStep | src/engine/weekly-aggregator.ts:15-32 | one more log adds its stored totals, may raise the longest streak, and counts once if active |
| WeeklyAggregator.CalcWeeklySummary | src/engine/weekly-aggregator.ts:6-45 | active days are the logs passing the streak's activity test (at most the number of logs), totals are the sums of stored totals, the longest streak is the maximum, no achievements and no challenges reported |
| WeeklyAggregator.CalcWeeklyTotal | src/engine/weekly-aggregator.ts:50-62 | the same three totals as the summary |
| Achievements.MathGenius | src/engine/achievements.ts:21-28 | true iff completed math problems over all logs plus today reach 50 |
| Achievements.FrenchLover | src/engine/achievements.ts:36-43 | true iff French days over all logs plus today reach 20 |
| Achievements.FrenchDaysWithToday | src/engine/achievements.ts:36-43 | today adds one French day exactly when it has completed French |
| Achievements.RunChecker | src/engine/achievements.ts:14-51 | a checker exists exactly for the eight registered ids, and each tests its own condition: perfect day, 50 problems, streak 7, streak 30, combo, 20 French days, never for dungeon master, 1000 gold |
| Achievements.Scan | src/engine/achievements.ts:56-72 | the loop returns the eligible definitions, stamped, in definition order |
| Achievements.CheckAchievements | src/engine/achievements.ts:56-72 | the same scan over the built-in definitions |
| Achievements.UnlockedAreEligible | src/engine/achievements.ts:59-68 | every result is a definition not yet unlocked whose checker holds, stamped with today's date, and never dungeon master |
| Achievements.EligibleAreUnlocked | src/engine/achievements.ts:59-68 | every such definition is returned |
| Achievements.UnlockedInDefinitionOrder | src/engine/achievements.ts:59-68 | the results are the eligible definitions in definition order, each stamped |
| Achievements.Streak30ImpliesStreak7 | src/engine/achievements.ts:30-32 | the streak-30 condition implies the streak-7 one |
| Achievements.DungeonMasterNeverUnlocks | src/engine/achievements.ts:45-48 | dungeon master is registered but never unlocks here |
| Achievements.EveryDefinitionRegistered | src/engine/constants.ts:168-233 | every built-in definition has a checker and the ids are distinct |
| Achievements.MathGeniusStays | src/engine/achievements.ts:21-28 | more history never takes math genius away |
| Settlement.EffectiveVariant | src/engine/settlement.ts:30 | the override variant if non-empty, else the achieved one if non-empty, else the target one; empty strings fall through |
| Settlement.CalcTaskReward | src/engine/settlement.ts:86-89 | zero for an incomplete task, the catalog price of the id and variant otherwise |
| Settlement.FinalRewardIsTaskReward | src/engine/settlement.ts:20-35 | each task's final reward is the task reward at its effective completion and effective variant |
| Settlement.SettleTask | src/engine/settlement.ts:19-36 | only the final gold and XP change: zero when not effectively completed (the override when present, else the child's flag), the catalog price otherwise |
| Settlement.SettleTaskIdempotent | src/engine/settlement.ts:19-36 | settling a settled task changes nothing |
| Settlement.IncompleteTasksAddNothing | src/engine/settlement.ts:24-28 | tasks not effectively completed add nothing to the sums |
| Settlement.BestTierIsHighest | src/engine/settlement.ts:74-78 | the chosen tier is the last one whose count is reached, and none exactly when no tier is reached |
| Settlement.HighestTier | src/engine/settlement.ts:74-80 | the downward loop returns that tier, or zero |
| Settlement.ComboIn | src/engine/settlement.ts:62-81 | the combo over any catalog is the highest tier reached by the count of effectively completed language tasks |
| Settlement.CalcLanguageCombo | src/engine/settlement.ts:62-81 | the same over the built-in catalog |
| Settlement.ComboTiers | src/engine/settlement.ts:62-81 | fewer than two such tasks earn nothing, exactly two the two-task tier, three or more the three-task tier |
| Settlement.SettlingKeepsCombo | src/engine/settlement.ts:39 | the combo computed on the settled tasks equals the one on the original tasks |
| Settlement.MultipliedIsFloor | src/engine/settlement.ts:44-48 | the multiplied total is floor(total x multiplier), a missing multiplier counting as one |
| Settlement.SettleTasks | src/engine/settlement.ts:19-36 | every task settled in place and the running sums equal the sums of their final rewards |
| Settlement.ApplySheetBonuses | src/engine/settlement.ts:44-50 | the multiplier on both totals, then the flat gold and XP bonuses unmultiplied |
| Settlement.SettleIn | src/engine/settlement.ts:13-57 | a new sheet with every task settled, totals = floor((final sums + combo) x multiplier) + bonuses, settled set and every other field (status included) untouched |
| Settlement.SettleProgressSheet | src/engine/settlement.ts:13-57 | the same over the built-in catalog; the input sheet is a value and is not changed |
| Settlement.PreviewSettlement | src/engine/settlement.ts:94-102 | the preview totals equal the settlement's, and the combo is the one of the sheet's tasks |
| Settlement.NothingCompletedSettlesToNothing | src/engine/settlement.ts:13-57 | with nothing effectively completed and no bonuses, the totals are zero |
| Settlement.NoneCompletedCountsZero | src/engine/settlement.ts:63-72 | with nothing effectively completed no language task counts |
| AllAnchors.AnchorsIff | src/engine/all-anchors-bonus.ts:13-29 | true iff some known academic task and some known language task were done and the reflection is present and not blank after trimming |
| AllAnchors.IgnoresOverrides | src/engine/all-anchors-bonus.ts:16-24 | the approver's overrides make no difference; only the child's flag counts |
| AllAnchors.UnknownTasksCountForNothing | src/engine/all-anchors-bonus.ts:14-24 | tasks whose ids are not in the catalog count toward neither anchor |
| AllAnchors.BlankReflectionFails | src/engine/all-anchors-bonus.ts:26 | a missing or whitespace-only reflection gives false |
| ReflectionAnchor.CalcReflectionGold | src/engine/reflection-anchor.ts:3-11 | 2 gold for an open question, 3 for a discovery or a method log |
| ReflectionAnchor.ValidateMethodLog | src/engine/reflection-anchor.ts:13-15 | true iff problem, method and principle are all non-blank after trimming |
| ReflectionAnchor.OneBlankFieldFails | src/engine/reflection-anchor.ts:14 | a log with any of its three fields empty or white space only is invalid |
| ReflectionAnchor.TablesDistinguishKinds | src/engine/reflection-anchor.ts:17-27 | the label and icon tables cover the three types with distinct non-empty entries |
| WeeklyPlans.CreateWeeklyPlan | src/engine/weekly-plan.ts:6-17 | seven empty days in week-date order, status draft, start and end the first and last date |
| WeeklyPlans.DayIndex | src/engine/weekly-plan.ts:26 | the first day with the date, or -1 exactly when no day has it |
| WeeklyPlans.WithDayTasks | src/engine/weekly-plan.ts:29-32 | only that day's task list changes (and the update time); every other day is as it was |
| WeeklyPlans.AddTaskToPlan | src/engine/weekly-plan.ts:19-33 | unchanged for an unknown date; otherwise only that day grows, by the new task at its end |
| WeeklyPlans.RemoveTaskFromPlan | src/engine/weekly-plan.ts:35-43 | unchanged for an unknown date; otherwise only that day loses the task at the index (splice: negative counts from the end, past the end removes nothing) |
| WeeklyPlans.AddThenRemoveLast | src/engine/weekly-plan.ts:19-43 | adding a task and splicing out index -1 gives back every day's tasks |
| WeeklyPlans.Merge | src/engine/weekly-plan.ts:57 | each supplied field overwrites, each other field is kept |
| WeeklyPlans.MergeNothing | src/engine/weekly-plan.ts:57 | supplying nothing changes nothing |
| WeeklyPlans.UpdatePlanTask | src/engine/weekly-plan.ts:45-60 | unchanged for a missing date or index; otherwise only that task of that day is merged with the changes |
| WeeklyPlans.ActivatePlan | src/engine/weekly-plan.ts:62-64 | status active, everything else but the update time unchanged |
| WeeklyPlans.GenerateProgressSheet | src/engine/weekly-plan.ts:68-85 | a pending, unsettled sheet for the same date and week, one task per planned item with its id, target variant and note, not completed, all money 0 |
| WeeklyPlans.FreshSheetSettlesToNothing | src/engine/weekly-plan.ts:68-85 | settling a freshly generated sheet pays nothing |
| WeeklyPlans.GenerateAllProgressSheets | src/engine/weekly-plan.ts:87-89 | one sheet per day, in order |
| WeeklyPlans.NeedsProgressSheetIff | src/engine/weekly-plan.ts:97-102 | true iff the plan is active, the first day with the date has a task, and no existing sheet has that date |
| WeeklyPlans.GeneratedSheetSatisfiesNeed | src/engine/weekly-plan.ts:97-102 | once the day's sheet exists, no sheet is needed |
| PlayerStores.DefaultPlayer | src/stores/player.store.ts:16-21 | the default player has the default name, 0 gold, 0 XP, today's creation date and no settled date |
| PlayerStores.Credited | src/stores/player.store.ts:34-35 | gold grows by exactly the gold and XP by exactly the XP; name, creation date and last settled date unchanged |
| PlayerStores.CreditAdditive | src/stores/player.store.ts:32-36 | two credits equal one credit of the sums, in either order |
| PlayerStores.CreditNothing | src/stores/player.store.ts:32-36 | crediting nothing changes nothing |
| PlayerStores.PlayerStore.Load | src/stores/player.store.ts:12-25 | the stored player, or with nothing stored the default player with 0 gold and 0 XP |
| PlayerStores.PlayerStore.Save | src/stores/player.store.ts:27-30 | the loaded player is written; nothing is written when none is loaded |
| PlayerStores.PlayerStore.AddRewards | src/stores/player.store.ts:32-36 | a no-op without a player; otherwise the player credited with exactly the gold and XP |
| ProgressStores.StoredSheets | src/stores/progress.store.ts:34-38 | at most one sheet per date, each a stored one |
| ProgressStores.AllStoredLoadsAll | src/stores/progress.store.ts:34-38 | when every date has a stored sheet, the sheets of the dates in order |
| ProgressStores.Reported | src/stores/progress.store.ts:53-55 | only the completed flag, the achieved variant and the child's comment are overwritten |
| ProgressStores.Overridden | src/stores/progress.store.ts:71-73 | only the supplied override fields are written, the others keep their values |
| ProgressStores.ReportAndOverrideCommute | src/stores/progress.store.ts:49-74 | the child's report and the approver's override touch different fields, so their order does not matter, and an override verdict stands whatever the child reports |
| ProgressStores.OverrideNothing | src/stores/progress.store.ts:67-74 | an override with no arguments changes nothing |
| ProgressStores.WithTask | src/stores/progress.store.ts:51-55 | only the task at the index is replaced |
| ProgressStores.ApprovedTotalsAreBonused | src/stores/progress.store.ts:83-95 | the approval totals are the stored finals with the settlement's multiplier and bonuses, and no combo and no recomputation |
| ProgressStores.StoredFinalsOfSettled | src/stores/progress.store.ts:85-88 | on a settled sheet the stored finals add up to the settlement's final sums |
| ProgressStores.ApprovalOfSettledSheet | src/stores/progress.store.ts:83-95 | approving a settled sheet pays its final sums with the multiplier and bonuses |
| ProgressStores.SumFinals | src/stores/progress.store.ts:83-88 | the loop adds up every task's stored final gold and XP |
| ProgressStores.ApprovedSheet | src/stores/progress.store.ts:91-102 | status approved and settled, totals floor(sum x multiplier) + bonuses, tasks and bonus fields untouched |
| ProgressStores.ReapprovalSameTotals | src/stores/progress.store.ts:77-102 | approving an approved sheet again computes the same totals |
| ProgressStores.ProgressStore.LoadSheet | src/stores/progress.store.ts:19-30 | the stored sheet at the week and date, or none |
| ProgressStores.ProgressStore.LoadWeekSheets | src/stores/progress.store.ts:32-41 | the stored sheets of the dates, missing ones skipped, in date order |
| ProgressStores.ProgressStore.SaveSheet | src/stores/progress.store.ts:43-45 | the sheet written under its week and date, nothing else |
| ProgressStores.ProgressStore.UpdateTaskProgress | src/stores/progress.store.ts:49-56 | a no-op without a sheet or with an index out of range; otherwise only that task's report fields |
| ProgressStores.ProgressStore.SubmitSheet | src/stores/progress.store.ts:58-63 | status submitted with the submission time, and the sheet saved |
| ProgressStores.ProgressStore.OverrideTask | src/stores/progress.store.ts:67-74 | a no-op without a sheet or with an index out of range; otherwise only the supplied override fields of that task |
| ProgressStores.ProgressStore.ApproveSheet | src/stores/progress.store.ts:77-111 | the sheet approved with the approval totals and saved; the player (stored, or the default) credited with exactly those totals and saved; no status check |
| ProgressStores.ProgressStore.ApproveSheetOnce | src/stores/progress.store.ts:77-111 | an already approved sheet, or no sheet, leaves the sheet, the storage and the player untouched; any other sheet is approved, saved and its totals credited to the player (stored, or the default) exactly as by ApproveSheet |
| ProgressStores.ProgressStore.RejectSheet | src/stores/progress.store.ts:114-120 | status rejected with the review time and comment, totals and settled untouched, sheet saved |
| ProgressStores.ApproveTwice | src/stores/progress.store.ts:77-111 | approving the same sheet twice credits the stored player twice the totals |
| ProgressStores.ApproveOnceTwice | src/stores/progress.store.ts:77-111 | with the guard, two approvals credit the totals once |
| PlanStores.SheetPathInjective | src/stores/progress.store.ts:7-9 | within one week, two different dates have different sheet paths, so activation never overwrites one day's sheet with another's |
| PlanStores.WrittenFinds | src/stores/plan.store.ts:77-82 | after the sheet loop a written sheet is found at its path unless a later written sheet shares the path |
| PlanStores.WrittenSkips | src/stores/plan.store.ts:77-82 | a path no written sheet has keeps exactly what was stored there |
| PlanStores.WrittenDays | src/stores/plan.store.ts:74-96 | for a plan with distinct dates, each written day's path holds that day's freshly generated sheet, and an unwritten day's path keeps what was stored |
| PlanStores.PlanStore.LoadWeek | src/stores/plan.store.ts:22-33 | the stored plan of the week, or a new draft for the week |
| PlanStores.PlanStore.Save | src/stores/plan.store.ts:39-42 | the plan, if any, written at its week's path, nothing else |
| PlanStores.PlanStore.AddTask | src/stores/plan.store.ts:44-50 | nothing without a plan; otherwise the engine's add-task result, not saved |
| PlanStores.PlanStore.RemoveTask | src/stores/plan.store.ts:52-58 | nothing without a plan; otherwise the engine's remove-task result, not saved |
| PlanStores.PlanStore.EditTask | src/stores/plan.store.ts:60-66 | nothing without a plan; otherwise the engine's update-task result, not saved |
| PlanStores.PlanStore.WriteSheets | src/stores/plan.store.ts:77-82 | the loop's storage is the sheets written in order (all of them, or only those with a task); the progress store's loaded sheets untouched |
| PlanStores.PlanStore.Activate | src/stores/plan.store.ts:69-83 | the plan activated and saved, and the sheet of every day with a task written; the progress store's loaded sheets untouched; nothing without a plan |
| PlanStores.PlanStore.Reactivate | src/stores/plan.store.ts:86-97 | the plan saved with a new update time and every day's fresh sheet written over what was stored; the progress store's loaded sheets untouched; nothing without a plan |
| PlanStores.PlanStore.DeletePlan | src/stores/plan.store.ts:99-104 | the plan replaced by a new empty draft of the same week and saved; nothing without a plan |
| DailyLogStores.CreateEmptyLog | src/stores/daily-log.store.ts:55-70 | a log of the date with nothing completed, no sessions or drops, zero rewards, multiplier 1.0 and streak day 0 |
| DailyLogStores.EmptyLogIsEmpty | src/stores/daily-log.store.ts:20-26 | a new empty log counts as empty |
| DailyLogStores.LanguageMakesNonEmpty | src/stores/daily-log.store.ts:20-26 | a log with a language session is never empty |
| DailyLogStores.EmptyLogInactive | src/stores/daily-log.store.ts:20-26 | an empty log is not an active day for the streak |
| DailyLogStores.MergeHomework | src/stores/daily-log.store.ts:135-138 | each supplied field overwrites, each missing field keeps its value |
| DailyLogStores.MergeMath | src/stores/daily-log.store.ts:140-143 | each supplied field overwrites, each missing field keeps its value |
| DailyLogStores.MergeJuggling | src/stores/daily-log.store.ts:145-148 | each supplied field overwrites, each missing field keeps its value |
| DailyLogStores.MergesIdempotent | src/stores/daily-log.store.ts:135-148 | applying the same changes twice is applying them once |
| DailyLogStores.StoredLogs | src/stores/daily-log.store.ts:81-94 | no more logs than dates |
| DailyLogStores.StoredLogsAppend | src/stores/daily-log.store.ts:81-94 | reading two runs of dates is reading each and joining the results |
| DailyLogStores.MissingDateSkipped | src/stores/daily-log.store.ts:84-85 | a date without a stored log contributes nothing |
| DailyLogStores.WeekLogsLeaveOutToday | src/stores/daily-log.store.ts:76 | the week's logs passed to the engine are the stored logs of the week without today's |
| DailyLogStores.ReadLogs | src/stores/daily-log.store.ts:80-94 | the loop collects the stored logs of the dates in order, missing ones skipped |
| DailyLogStores.DailyLogStore.LoadDate | src/stores/daily-log.store.ts:28-49 | the date becomes current and its stored log, or an empty log, is loaded |
| DailyLogStores.DailyLogStore.Recalculate | src/stores/daily-log.store.ts:72-106 | nothing without a log or a player; otherwise the engine's rewards, multiplier and streak day for the log, the player, the previous and the week's other stored logs |
| DailyLogStores.DailyLogStore.Save | src/stores/daily-log.store.ts:108-133 | recalculated, stored under its date, and credited to the player only when the day's total gold is positive |
| DailyLogStores.DailyLogStore.UpdateHomework | src/stores/daily-log.store.ts:135-138 | only the homework changes, by the merge; nothing without a log |
| DailyLogStores.DailyLogStore.UpdateMath | src/stores/daily-log.store.ts:140-143 | only the math task changes, by the merge; nothing without a log |
| DailyLogStores.DailyLogStore.UpdateJuggling | src/stores/daily-log.store.ts:145-148 | only the juggling task changes, by the merge; nothing without a log |
| DailyLogStores.DailyLogStore.AddLanguage | src/stores/daily-log.store.ts:150-153 | the session appended; nothing without a log |
| DailyLogStores.DailyLogStore.RemoveLanguage | src/stores/daily-log.store.ts:155-158 | the session at the index removed with splice's index rules; nothing without a log |
| DailyLogStores.DailyLogStore.AddRandomDrop | src/stores/daily-log.store.ts:160-163 | the drop appended; nothing without a log |
| DailyLogStores.DailyLogStore.RemoveRandomDrop | src/stores/daily-log.store.ts:165-168 | the drop at the index removed with splice's index rules; nothing without a log |
| DailyLogStores.AddThenRemoveLanguage | src/stores/daily-log.store.ts:150-158 | adding a session and then removing index -1 restores the sessions |
| TaskDefinitionsStores.CandidateInjective | src/stores/task-definitions.store.ts:52-60 | different attempt numbers give different candidate ids, so every attempt tests a new id |
| TaskDefinitionsStores.IdsBound | src/stores/task-definitions.store.ts:47-49 | a task list has no more distinct ids than tasks |
| TaskDefinitionsStores.TriedSize | src/stores/task-definitions.store.ts:52-60 | the first n attempts are n distinct ids |
| TaskDefinitionsStores.TakenAttemptsBound | src/stores/task-definitions.store.ts:55-58 | if the first n attempts are all taken, there are at least n tasks, so the id loop ends |
| TaskDefinitionsStores.GenerateIdIn | src/stores/task-definitions.store.ts:52-60 | the result is an id no task has, and it is the first candidate (the lower-cased, dashed base, then base-1, base-2, ...) that is free |
| TaskDefinitionsStores.IdTakenAppend | src/stores/task-definitions.store.ts:47-49 | an id is taken in the combined catalog exactly when the built-ins or the custom tasks have it |
| TaskDefinitionsStores.FreshIdKeepsUnique | src/stores/task-definitions.store.ts:23-26 | adding a task under a free id keeps every id unique |
| TaskDefinitionsStores.MergeTask | src/stores/task-definitions.store.ts:32 | for each of the seven fields, a supplied value overwrites and a missing one keeps the task's value; no changes leaves the task as it was |
| TaskDefinitionsStores.IndexOfId | src/stores/task-definitions.store.ts:30 | the first position with the id, or -1 exactly when no task has it |
| TaskDefinitionsStores.TaskDefinitionsStore.GetAllTasks | src/stores/task-definitions.store.ts:13-15 | the built-in catalog followed by the custom tasks |
| TaskDefinitionsStores.TaskDefinitionsStore.TaskIdExists | src/stores/task-definitions.store.ts:47-49 | true exactly when a built-in or a custom task has the id |
| TaskDefinitionsStores.TaskDefinitionsStore.GenerateTaskId | src/stores/task-definitions.store.ts:52-60 | an id that does not exist yet, the first free candidate for the base name |
| TaskDefinitionsStores.TaskDefinitionsStore.Save | src/stores/task-definitions.store.ts:63-69 | the custom tasks written to storage |
| TaskDefinitionsStores.TaskDefinitionsStore.AddTask | src/stores/task-definitions.store.ts:23-26 | the task appended, without any id check, and stored |
| TaskDefinitionsStores.TaskDefinitionsStore.UpdateTask | src/stores/task-definitions.store.ts:29-35 | the first custom task with the id merged with the changes and stored; nothing for an unknown id |
| TaskDefinitionsStores.TaskDefinitionsStore.DeleteTask | src/stores/task-definitions.store.ts:38-44 | the first custom task with the id removed and the list stored; nothing for an unknown id |
| TaskDefinitionsStores.TaskDefinitionsStore.Load | src/stores/task-definitions.store.ts:72-86 | the stored list, if any, read once; later calls do nothing |
| TaskDefinitionsStores.UpdateKeepsBuiltins | src/stores/task-definitions.store.ts:13-15 | editing a custom task never changes the built-in part of the catalog |
| TaskDefinitionsStores.DeleteRemovesOne | src/stores/task-definitions.store.ts:38-44 | a deletion removes exactly one task, and the id stays taken exactly when a later custom task shares it |
| WeeklyTemplateStores.BuiltinTemplateShape | src/data/default-weekly-template.ts:17-43 | the built-in template is the default, covers all seven days, and its weekend drops the homework item |
| WeeklyTemplateStores.DefaultOf | src/stores/weekly-template.store.ts:13-15 | the first template flagged default, else the first template, else the shared built-in object as it now stands |
| WeeklyTemplateStores.IndexOfId | src/stores/weekly-template.store.ts:60 | the first position with the id, or -1 exactly when no template has it |
| WeeklyTemplateStores.SetDefaultSelects | src/stores/weekly-template.store.ts:80-85 | with unique ids, after setting a default at most one template is the default, and the default selection returns the chosen template, or the first one when the id is unknown |
| WeeklyTemplateStores.Assign | src/stores/weekly-template.store.ts:59-64 | supplied fields overwrite; id and creation time never change |
| WeeklyTemplateStores.WeeklyTemplateStore.Save | src/stores/weekly-template.store.ts:33-35 | the templates written to storage |
| WeeklyTemplateStores.WeeklyTemplateStore.Load | src/stores/weekly-template.store.ts:17-31 | a non-empty stored list is loaded and no entry is the shared built-in object; otherwise the list is exactly that object, with whatever earlier updates did to it, and is stored |
| WeeklyTemplateStores.WeeklyTemplateStore.CreateFromTemplate | src/stores/weekly-template.store.ts:42-52 | a copy of the source (or of the default template) with a fresh id, the name, not the default, created now; the store unchanged |
| WeeklyTemplateStores.WeeklyTemplateStore.AddTemplate | src/stores/weekly-template.store.ts:54-57 | appended and stored; the shared built-in object keeps its contents and position |
| WeeklyTemplateStores.WeeklyTemplateStore.UpdateTemplate | src/stores/weekly-template.store.ts:59-64 | the first template with the id takes the changes and is stored, and when it is the shared built-in object that object changes too; nothing for an unknown id |
| WeeklyTemplateStores.WeeklyTemplateStore.UpdateDayConfig | src/stores/weekly-template.store.ts:66-71 | only that day of the first template with the id replaced, and stored, and when it is the shared built-in object that object changes too; nothing for an unknown id |
| WeeklyTemplateStores.WeeklyTemplateStore.DeleteTemplate | src/stores/weekly-template.store.ts:73-78 | refused for an unknown id or the default template; otherwise every template with the id removed, and stored; the shared built-in object leaves the list with them or moves down past them, its contents unchanged |
| WeeklyTemplateStores.WeeklyTemplateStore.SetDefault | src/stores/weekly-template.store.ts:80-85 | the loop sets the flag on exactly the templates with the id, and clears it on all others, the shared built-in object included when it is in the list; stored |
| WeeklyTemplateStores.BuiltinChangedInPlace | src/stores/weekly-template.store.ts:13-31 | from empty storage: load, make another id the default and delete the built-in template; the default selection and a second load then return the built-in object with its flag cleared, and it can be deleted again |
| WeeklyTemplateStores.DeletionRemovesId | src/stores/weekly-template.store.ts:76 | no template with the id is left and every other template is kept |
| ThinkingArchiveStores.NewEntriesSnoc | src/stores/thinking-archive.store.ts:20-24 | one more loaded entry is added exactly when its id was not loaded before the call |
| ThinkingArchiveStores.MergeAddsOnlyAbsent | src/stores/thinking-archive.store.ts:14-27 | a week's merge keeps the entries already there and adds only loaded entries whose ids were absent |
| ThinkingArchiveStores.RepeatsNotDeduplicated | src/stores/thinking-archive.store.ts:19-24 | ids are checked against those present before the call, so a new entry repeated in the stored list is added twice |
| ThinkingArchiveStores.UpsertedHasOneCopy | src/stores/thinking-archive.store.ts:30-33 | the stored week list ends with the entry, holds no other entry with its id, and keeps every other entry |
| ThinkingArchiveStores.ConcatenatedAppend | src/stores/thinking-archive.store.ts:40-51 | loading two runs of weeks is loading each and joining the results |
| ThinkingArchiveStores.ThinkingArchiveStore.LoadWeek | src/stores/thinking-archive.store.ts:14-27 | the week's stored entries with new ids appended in order; nothing for a week with no list |
| ThinkingArchiveStores.ThinkingArchiveStore.AddEntry | src/stores/thinking-archive.store.ts:29-38 | the week's stored list upserted; in memory the first entry with the id replaced, or the entry appended, so the entry is present and at most one entry is added |
| ThinkingArchiveStores.ThinkingArchiveStore.LoadAll | src/stores/thinking-archive.store.ts:40-51 | the entries are exactly the weeks' stored lists joined in order |
| DailyTemplates.IndexOfId | src/composables/useTemplates.ts:37 | the first position with the id, or -1 exactly when no template has it |
| DailyTemplates.Updated | src/composables/useTemplates.ts:36-44 | supplied fields overwrite, missing ones stay; id and creation time never change |
| DailyTemplates.UpdateNothing | src/composables/useTemplates.ts:36-44 | an update with no fields changes nothing |
| DailyTemplates.TemplateLibrary.Load | src/composables/useTemplates.ts:10-17 | the stored list, if any, read once; later calls do nothing |
| DailyTemplates.TemplateLibrary.Save | src/composables/useTemplates.ts:19-21 | the list written to storage |
| DailyTemplates.TemplateLibrary.AddTemplate | src/composables/useTemplates.ts:23-34 | one template with the time-based id, the name, description and tasks appended, stored and returned |
| DailyTemplates.TemplateLibrary.UpdateTemplate | src/composables/useTemplates.ts:36-44 | the first template with the id updated and stored; nothing for an unknown id |
| DailyTemplates.TemplateLibrary.DeleteTemplate | src/composables/useTemplates.ts:46-52 | the first template with the id removed and stored; nothing for an unknown id |
| DailyTemplates.TemplateLibrary.GetTemplate | src/composables/useTemplates.ts:54-56 | found exactly when some template has the id, and then it is the first such template |
| DailyTemplates.AddedIsFound | src/composables/useTemplates.ts:23-56 | a template added under a new id is found at the end of the list |
| AuthStores.MatchUnique | src/stores/auth.store.ts:37-52 | with a faithful encoding (`FaithfulEncoding`: injective, and non-empty for a non-empty password) at most one password matches the stored one |
| AuthStores.AuthStore.Init | src/stores/auth.store.ts:12-19 | a password exists exactly when a non-empty one is stored; logged in exactly when the session flag is "true" |
| AuthStores.AuthStore.SetPassword | src/stores/auth.store.ts:22-34 | refused, with nothing changed, for an empty or shorter-than-4 password; otherwise its encoding stored and the user logged in |
| AuthStores.AuthStore.VerifyPassword | src/stores/auth.store.ts:37-52 | succeeds exactly when a password is stored and this one's encoding equals it; success logs in, failure changes nothing |
| AuthStores.AuthStore.Logout | src/stores/auth.store.ts:55-58 | logged out and the session flag removed; the password stays |
| AuthStores.AuthStore.ResetPassword | src/stores/auth.store.ts:61-83 | succeeds exactly when logged in, the old password matches and the new one is acceptable; only then is the new encoding stored; the login state never changes |
| AuthStores.AuthStore.ClearAll | src/stores/auth.store.ts:86-91 | the password and the session flag removed; no password and no login remain |
| AuthStores.SetThenVerify | src/stores/auth.store.ts:22-52 | after a password is set, exactly that password verifies |
| AuthStores.ResetThenVerify | src/stores/auth.store.ts:37-83 | after a successful reset only the new password verifies; after a refused one only the old one does |
| AuthStores.LogoutThenInit | src/stores/auth.store.ts:12-58 | after a logout and a reload the user is logged out and the stored password still counts |
| AuthStores.ClearThenInit | src/stores/auth.store.ts:12-91 | after clearing and reloading there is no password, no login, and no password verifies |
| Seqs.SpliceOut | src/stores/daily-log.store.ts:155-168 | `splice(i, 1)`: a negative index counts from the end, an index past the end removes nothing, otherwise exactly that element is removed and the rest keep their order |
| Strings.DashWhitespaceRuns | src/stores/task-definitions.store.ts:53 | `replace(/\s+/g, '-')`: no white space is left in the result |
| Strings.DashWhitespaceRunsPlain | src/stores/task-definitions.store.ts:53 | a string without white space comes back unchanged |
| Strings.DashWhitespaceRunsJoin | src/stores/task-definitions.store.ts:53 | a maximal white-space run between two pieces of text (or the ends of the string) becomes exactly one dash, and the text on either side is replaced independently |
| Strings.TrimStartAppend | src/stores/task-definitions.store.ts:53 | trimming the front of `x + y`, where `x` is not blank, trims only `x` |
| Strings.TrimEmptyIffBlank | src/engine/reflection-anchor.ts:14 | `s.trim()` is empty exactly when every character of `s` is white space |
| RandomDropRewards.DropsValueIgnoresOrder | src/engine/random-drop.ts:20-26 | the summed drop rewards do not depend on the order of the drops |

## Left out

- Floating point: every multiplier is an integer number of tenths. This covers the math multiplier, the level bonus percentage and a sheet's `bonusMultiplier`. A `bonusMultiplier` that is not a whole number of tenths cannot be expressed.
- `averageMathMultiplier` of the weekly summary (src/engine/weekly-aggregator.ts:40) is a float average and is not modelled.
- The display text of breakdown lines and notes (Chinese labels, drop notes) is replaced by a structural `Source` tag. Which line is which is kept; the wording is not.
- Storage I/O, `async`, the `loading` and `error` flags, and the `try`/`catch` paths of the stores are left out. A failed read or a JSON parse error is not modelled. A store's storage is a field that is always readable.
- Date utilities (`today`, `currentWeek`, `getISOWeek`, `getWeekDates`, `getPreviousDates`) become parameters: the week dates and previous dates are passed in. The wrappers `loadCurrentWeek` and `loadToday` only call them and are not modelled, and neither is `getTodayDate` (src/engine/weekly-plan.ts:93-95), which reads the clock. The daily-log store keys its stored logs by date alone, because the week path is a function of the date.
- The daily-log store's save calls a player API (`addRewards(rewards, dreamFund)`, `updateStreak`) that the player store in src/stores/player.store.ts does not have. The model records each credited `DailyRewards` in the `credited` log and leaves the player update out.
- `btoa` in src/stores/auth.store.ts is the `encode` function of the store. The predicate `FaithfulEncoding` states all that is assumed of it: it is injective and keeps non-empty strings non-empty. Base64 itself is not modelled. Nor is the exception `btoa` throws on characters outside Latin-1.
- String lengths are Dafny character counts. JavaScript counts UTF-16 code units, so the 4-character password minimum differs for characters outside the Basic Multilingual Plane.
- `toLowerCase` is modelled on ASCII letters only.
- A math task's `problems` count is a `nat`. In the source it is a `number`, so a negative or fractional count is not modelled.
- `JSON.parse(JSON.stringify(...))` and `structuredClone` copies are plain value copies: datatypes have no aliasing. The one sharing that matters, the weekly-template store's use of the `DEFAULT_WEEKLY_TEMPLATE` object itself, is modelled by the store fields `builtin` (what that object holds) and `builtinAt` (its position in the list).
- `getCustomTasks` (src/stores/task-definitions.store.ts:18-20) only returns the field `customTasks` and has no model of its own.
- `generateId` of the weekly-template store (random) and `Date.now()` are parameters (`freshId`, `nowMillis`).
- src/stores/weekly-plan.store.ts is not part of this model. It imports functions (`addTaskToDay`, `removeTaskFromDay`, `updateTaskCompletion`, ...) that src/engine/weekly-plan.ts does not export (src/stores/weekly-plan.store.ts:5-12), so it has no behaviour to model. The plan flow modelled is the one in src/stores/plan.store.ts.
- AllAnchors.CheckAllAnchorsCompleted: no contract of its own. It instantiates `AllAnchors.AnchorsIn` with the built-in catalog, and AllAnchors.AnchorsIff states its meaning.
- Level.XpToLevelUp: no contract of its own. It is `Level.XpToNextLevel`, whose contract states the result.
- Streak.IsDayActive: no contract of its own. It is the predicate the streak and the weekly count are stated with; Streak.ActivityDependsOnlyOnCompletion and DailyLogStores.EmptyLogInactive state what decides it.
- WeeklyPlans.NeedsProgressSheet: no contract of its own. WeeklyPlans.NeedsProgressSheetIff states its meaning.
- TaskCatalog.GetTasksByCategory, TaskCatalog.GetTaskById and TaskCatalog.GetTaskReward: no contract of their own. Each applies `TasksInCategory`, `FindTaskIn` or `RewardIn` to the built-in catalog, and those functions' contracts state the result; TaskCatalog.GetTaskByIdFindsEach states the lookup over the built-in catalog.
- TaskLookup.GetTasksByCategory, TaskLookup.GetTaskById and TaskLookup.GetTaskReward: no contract of their own. Each applies the same functions to the built-in catalog followed by the custom tasks; TaskLookup.CategoryListOrder, TaskLookup.BuiltinShadowsCustom and TaskLookup.RewardFollowsLookup state their results.
- ReflectionAnchor.TypeLabel and ReflectionAnchor.TypeIcon: no contract of their own. They are lookup tables; ReflectionAnchor.TablesDistinguishKinds states that they cover the three types with distinct non-empty entries.
- WeeklyTemplateStores.WeeklyTemplateStore.DefaultTemplate: no contract of its own. It applies `DefaultOf` to the store's templates and the shared built-in object, and WeeklyTemplateStores.DefaultOf states the choice.
- DailyLogStores.IsEmpty: no contract of its own. DailyLogStores.EmptyLogIsEmpty, DailyLogStores.LanguageMakesNonEmpty and DailyLogStores.EmptyLogInactive state what it accepts and rejects.
- DungeonScoring.CalcDungeonRewards: requires the previous list to cover the updated one (as many dungeons, and as many stages in each). The source reads `previousDungeons[i].stages[j]` and throws on a missing entry.
- BigGoals.CalcBigGoalRewards: requires the previous goals to be at least as many as the updated ones. The source reads `previousGoals[i].completed` and throws on a missing entry.
- Several loops are split into a method per loop, with a lemma per step, to keep each proof small. Examples are the dungeon stages and the daily log reads. The computed values are those of the source.

## Findings

| source | as written | input that shows it | evidently intended | confidence | as-written member | corrected member |
|---|---|---|---|---|---|---|
| src/stores/progress.store.ts:77-111 | `approveSheet` does not check the sheet's status before crediting the player | `approveSheet` called while the loaded sheet's status is already `approved`: the player is credited the same totals a second time | a sheet credits the player once; approving an approved sheet does nothing | medium; not executed | ProgressStores.ApproveTwice | ProgressStores.ApproveOnceTwice |
