/** The checklist workflow's records and the built-in task catalog
    (src/types/tasks.ts). Lookups are written once over an arbitrary catalog,
    then instantiated with the built-in one; TaskLookup reuses them for the
    built-in plus custom catalog. */
module TaskCatalog {
  import opened Types
  import Seqs

  // ==================== Task definitions ====================

  datatype TaskCategory = Academic | Sports | Language | Art | Behavior

  datatype TaskVariant = TaskVariant(level: string, gold: int, xp: int)

  datatype TaskDefinition = TaskDefinition(
    id: string, category: TaskCategory, name: string, description: string,
    gold: int, xp: int, variants: Option<seq<TaskVariant>>)

  /** A `{ gold, xp }` pair. */
  datatype GoldXp = GoldXp(gold: int, xp: int)

  // ==================== Weekly plan ====================

  datatype WeeklyPlanStatus = Draft | Active | Completed

  datatype PlannedTaskItem = PlannedTaskItem(taskId: string, targetVariant: Option<string>, note: string)

  datatype DailyPlan = DailyPlan(date: string, tasks: seq<PlannedTaskItem>)

  datatype WeeklyPlan = WeeklyPlan(
    weekId: string, startDate: string, endDate: string, status: WeeklyPlanStatus,
    dailyPlans: seq<DailyPlan>, createdAt: string, updatedAt: string)

  // ==================== Progress sheet ====================

  datatype ProgressSheetStatus = Pending | Submitted | Approved | Rejected

  datatype Reflection = Reflection(kind: ReflectionType, content: string, methodLog: Option<MethodLog>, goldEarned: int)

  datatype ReviewAnswers = ReviewAnswers(proudest: string, discovery: string, nextWeek: string)

  datatype WeeklyReview = WeeklyReview(completed: bool, answers: ReviewAnswers, goldEarned: int)

  datatype ProgressTaskItem = ProgressTaskItem(
    taskId: string, targetVariant: Option<string>, note: string,
    completed: bool, achievedVariant: Option<string>, kidComment: Option<string>,
    approverOverrideCompleted: Option<bool>, approverOverrideVariant: Option<string>,
    approverComment: Option<string>,
    finalGold: int, finalXp: int)

  /** `bonusMultiplier` is kept in tenths (1.5 is 15). */
  datatype DailyProgressSheet = DailyProgressSheet(
    date: string, weekId: string, status: ProgressSheetStatus, tasks: seq<ProgressTaskItem>,
    submittedAt: Option<string>, reviewedAt: Option<string>, reviewComment: Option<string>,
    reflection: Option<Reflection>,
    allAnchorsCompleted: Option<bool>, allAnchorsBonusGold: Option<int>, allAnchorsBonusXp: Option<int>,
    weeklyReview: Option<WeeklyReview>,
    bonusMultiplier: Option<nat>, bonusGold: Option<int>, bonusXp: Option<int>,
    settled: bool, totalGold: int, totalXp: int)

  datatype PlayerState = PlayerState(name: string, gold: int, xp: int, lastSettledDate: Option<string>, createdAt: string)

  datatype DailyTemplate = DailyTemplate(id: string, name: string, description: string, tasks: seq<PlannedTaskItem>, createdAt: string)

  // ==================== Built-in catalog ====================

  const TASK_DEFINITIONS: seq<TaskDefinition> := [
    TaskDefinition("homework", Academic, "学校作业", "完成当天学校布置的作业", 1, 0, None),
    TaskDefinition("math-simple", Academic, "奥数简单版", "基础奥数练习", 2, 0, Some([
      TaskVariant("基础完成", 2, 0), TaskVariant("正确率80%+", 3, 0), TaskVariant("正确率100%", 4, 0)])),
    TaskDefinition("math-challenge", Academic, "数学挑战题", "数学挑战题（难度低于奥数难版）", 2, 5, Some([
      TaskVariant("完成1题", 2, 5), TaskVariant("完成2题", 4, 10), TaskVariant("完成3题", 6, 15)])),
    TaskDefinition("math-hard", Academic, "奥数难版", "高难度奥数练习", 3, 5, Some([
      TaskVariant("基础完成", 3, 5), TaskVariant("正确率80%+", 5, 10), TaskVariant("正确率100%", 7, 15)])),
    TaskDefinition("juggling", Sports, "抛接球挑战", "连续抛接球", 1, 0, Some([
      TaskVariant("连续30个", 1, 0), TaskVariant("连续50个", 2, 0), TaskVariant("连续100个", 3, 0)])),
    TaskDefinition("recitation", Language, "背诵任务", "完成背诵内容", 1, 0, None),
    TaskDefinition("french-reading", Language, "法语阅读", "完成法语阅读（固定4金）", 4, 0, None),
    TaskDefinition("french-advanced-reading", Language, "法语高阶阅读", "法语高级难度阅读材料", 3, 5, Some([
      TaskVariant("完成阅读", 3, 5), TaskVariant("完成阅读+理解练习", 5, 10)])),
    TaskDefinition("english-reading", Language, "英语阅读", "完成阅读", 1, 0, None),
    TaskDefinition("piano", Art, "钢琴练习", "钢琴练习", 1, 0, Some([
      TaskVariant("练习20分钟", 1, 0), TaskVariant("练习30分钟", 2, 0)])),
    TaskDefinition("handwriting", Art, "写字练习", "写字练习", 1, 0, Some([
      TaskVariant("练习20分钟", 1, 0), TaskVariant("练习40分钟", 2, 0)])),
    TaskDefinition("polite", Behavior, "有礼貌", "有礼貌", 2, 0, None),
    TaskDefinition("conflict-resolution", Behavior, "处理矛盾", "处理矛盾", 3, 15, None)
  ]

  lemma CatalogIdsUnique()
    ensures forall i, j :: 0 <= i < j < |TASK_DEFINITIONS| ==> TASK_DEFINITIONS[i].id != TASK_DEFINITIONS[j].id
  {
  }

  /** A task with variants pays its first variant's reward as its base reward. */
  lemma CatalogBaseIsFirstVariant()
    ensures forall i :: 0 <= i < |TASK_DEFINITIONS| && TASK_DEFINITIONS[i].variants.Some? ==>
              |TASK_DEFINITIONS[i].variants.value| > 0 &&
              TASK_DEFINITIONS[i].gold == TASK_DEFINITIONS[i].variants.value[0].gold &&
              TASK_DEFINITIONS[i].xp == TASK_DEFINITIONS[i].variants.value[0].xp
  {
  }

  // ==================== Language combo tiers ====================

  datatype ComboTier = ComboTier(count: nat, gold: int, xp: int, caption: string)

  const LANGUAGE_COMBO_REWARDS: seq<ComboTier> := [
    ComboTier(2, 2, 0, "完成2项语言学习"),
    ComboTier(3, 3, 0, "完成3项语言学习")
  ]

  lemma ComboTiersAscending()
    ensures |LANGUAGE_COMBO_REWARDS| == 2
    ensures LANGUAGE_COMBO_REWARDS[0].count == 2 && LANGUAGE_COMBO_REWARDS[1].count == 3
  {
  }

  // ==================== Lookups over a catalog ====================

  /** `catalog.find(t => t.id === id)`. */
  function FindTaskIn(catalog: seq<TaskDefinition>, id: string): (r: Option<TaskDefinition>)
    ensures r.None? <==> forall k :: 0 <= k < |catalog| ==> catalog[k].id != id
    ensures r.Some? ==> exists k :: 0 <= k < |catalog| && catalog[k] == r.value && r.value.id == id &&
                          forall j :: 0 <= j < k ==> catalog[j].id != id
  {
    var k := Seqs.FirstIndex(catalog, (t: TaskDefinition) => t.id == id);
    if k < 0 then None else Some(catalog[k])
  }

  /** `catalog.filter(t => t.category === category)`. */
  function TasksInCategory(catalog: seq<TaskDefinition>, category: TaskCategory): (r: seq<TaskDefinition>)
    ensures forall t :: t in r <==> t in catalog && t.category == category
  {
    Seqs.Filter(catalog, (t: TaskDefinition) => t.category == category)
  }

  /** A variant name is used only when it is a non-empty string (JavaScript truthiness). */
  predicate Truthy(variant: Option<string>)
  {
    variant.Some? && variant.value != ""
  }

  /** `variants.find(v => v.level === variant)`. */
  function FindVariant(variants: seq<TaskVariant>, level: string): (r: Option<TaskVariant>)
    ensures r.None? <==> forall k :: 0 <= k < |variants| ==> variants[k].level != level
    ensures r.Some? ==> exists k :: 0 <= k < |variants| && variants[k] == r.value && r.value.level == level &&
                          forall j :: 0 <= j < k ==> variants[j].level != level
  {
    var k := Seqs.FirstIndex(variants, (v: TaskVariant) => v.level == level);
    if k < 0 then None else Some(variants[k])
  }

  /** The reward fallback chain: unknown task pays nothing; a truthy variant
      that names one of the task's levels pays that level; otherwise the base reward. */
  function RewardIn(catalog: seq<TaskDefinition>, taskId: string, variant: Option<string>): (r: GoldXp)
    ensures FindTaskIn(catalog, taskId).None? ==> r == GoldXp(0, 0)
    ensures FindTaskIn(catalog, taskId).Some? ==>
              var t := FindTaskIn(catalog, taskId).value;
              if Truthy(variant) && t.variants.Some? && FindVariant(t.variants.value, variant.value).Some?
              then r == GoldXp(FindVariant(t.variants.value, variant.value).value.gold,
                               FindVariant(t.variants.value, variant.value).value.xp)
              else r == GoldXp(t.gold, t.xp)
  {
    match FindTaskIn(catalog, taskId)
    case None => GoldXp(0, 0)
    case Some(t) =>
      if Truthy(variant) && t.variants.Some? then
        match FindVariant(t.variants.value, variant.value)
        case Some(v) => GoldXp(v.gold, v.xp)
        case None => GoldXp(t.gold, t.xp)
      else GoldXp(t.gold, t.xp)
  }

  // ==================== Built-in lookups ====================

  function GetTasksByCategory(category: TaskCategory): seq<TaskDefinition>
  {
    TasksInCategory(TASK_DEFINITIONS, category)
  }

  function GetTaskById(id: string): Option<TaskDefinition>
  {
    FindTaskIn(TASK_DEFINITIONS, id)
  }

  function GetTaskReward(taskId: string, variant: Option<string>): GoldXp
  {
    RewardIn(TASK_DEFINITIONS, taskId, variant)
  }

  /** Filtering keeps catalog order: the category list of a catalog built from
      two parts is the first part's list followed by the second's. */
  lemma TasksInCategoryAppend(a: seq<TaskDefinition>, b: seq<TaskDefinition>, category: TaskCategory)
    ensures TasksInCategory(a + b, category) == TasksInCategory(a, category) + TasksInCategory(b, category)
  {
    Seqs.FilterAppend(a, b, (t: TaskDefinition) => t.category == category);
  }

  /** The built-in lookup finds a task by its own id. */
  lemma GetTaskByIdFindsEach(i: int)
    requires 0 <= i < |TASK_DEFINITIONS|
    ensures GetTaskById(TASK_DEFINITIONS[i].id) == Some(TASK_DEFINITIONS[i])
  {
    CatalogIdsUnique();
  }
}
