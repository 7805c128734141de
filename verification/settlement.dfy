/** Settling an approved progress sheet (src/engine/settlement.ts): each
    task's final reward from the approver's verdict, the language combo, then
    the sheet's multiplier (in tenths) and flat bonuses. */
module Settlement {
  import opened Types
  import opened TaskCatalog
  import Seqs

  // ==================== Per task ====================

  /** The approver's verdict when there is one, else the child's report. */
  predicate EffectiveCompleted(t: ProgressTaskItem)
  {
    if t.approverOverrideCompleted.Some? then t.approverOverrideCompleted.value else t.completed
  }

  /** `override || achieved || target`: the first non-empty variant name,
      falling through to the planned target whatever it holds. */
  function EffectiveVariant(t: ProgressTaskItem): (v: Option<string>)
    ensures Truthy(t.approverOverrideVariant) ==> v == t.approverOverrideVariant
    ensures !Truthy(t.approverOverrideVariant) && Truthy(t.achievedVariant) ==> v == t.achievedVariant
    ensures !Truthy(t.approverOverrideVariant) && !Truthy(t.achievedVariant) ==> v == t.targetVariant
    ensures Truthy(v) <==> Truthy(t.approverOverrideVariant) || Truthy(t.achievedVariant) || Truthy(t.targetVariant)
  {
    if Truthy(t.approverOverrideVariant) then t.approverOverrideVariant
    else if Truthy(t.achievedVariant) then t.achievedVariant
    else t.targetVariant
  }

  /** `calcTaskReward`: nothing for an incomplete task, else the catalog price. */
  function CalcTaskReward(taskId: string, isCompleted: bool, variant: Option<string>): (r: GoldXp)
    ensures !isCompleted ==> r == GoldXp(0, 0)
    ensures isCompleted ==> r == GetTaskReward(taskId, variant)
  {
    if !isCompleted then GoldXp(0, 0) else GetTaskReward(taskId, variant)
  }

  /** The final reward the settlement writes into a task, priced in a
      catalog (the built-in one in `settleProgressSheet`). */
  function FinalReward(catalog: seq<TaskDefinition>, t: ProgressTaskItem): GoldXp
  {
    if !EffectiveCompleted(t) then GoldXp(0, 0) else RewardIn(catalog, t.taskId, EffectiveVariant(t))
  }

  /** With the built-in catalog, the final reward is `calcTaskReward` of the
      task's effective completion and variant. */
  lemma FinalRewardIsTaskReward(t: ProgressTaskItem)
    ensures FinalReward(TASK_DEFINITIONS, t) == CalcTaskReward(t.taskId, EffectiveCompleted(t), EffectiveVariant(t))
  {
  }

  /** A task with its final reward written in; nothing else about it changes. */
  function SettleTask(catalog: seq<TaskDefinition>, t: ProgressTaskItem): (r: ProgressTaskItem)
    ensures r == t.(finalGold := r.finalGold, finalXp := r.finalXp)
    ensures !EffectiveCompleted(t) ==> r.finalGold == 0 && r.finalXp == 0
    ensures EffectiveCompleted(t) ==>
              GoldXp(r.finalGold, r.finalXp) == RewardIn(catalog, t.taskId, EffectiveVariant(t))
  {
    var reward := FinalReward(catalog, t);
    t.(finalGold := reward.gold, finalXp := reward.xp)
  }

  /** Settling a task again gives the same task: the final reward depends
      only on fields the settlement does not write. */
  lemma SettleTaskIdempotent(catalog: seq<TaskDefinition>, t: ProgressTaskItem)
    ensures SettleTask(catalog, SettleTask(catalog, t)) == SettleTask(catalog, t)
  {
  }

  /** The sums of the final rewards of the first `n` tasks. */
  function FinalSums(catalog: seq<TaskDefinition>, tasks: seq<ProgressTaskItem>, n: nat): GoldXp
    requires n <= |tasks|
  {
    if n == 0 then GoldXp(0, 0)
    else
      var before := FinalSums(catalog, tasks, n - 1);
      var last := FinalReward(catalog, tasks[n - 1]);
      GoldXp(before.gold + last.gold, before.xp + last.xp)
  }

  /** An incomplete task adds nothing to the sums. */
  lemma {:induction false} IncompleteTasksAddNothing(catalog: seq<TaskDefinition>, tasks: seq<ProgressTaskItem>, n: nat)
    requires n <= |tasks|
    requires forall i :: 0 <= i < n ==> !EffectiveCompleted(tasks[i])
    ensures FinalSums(catalog, tasks, n) == GoldXp(0, 0)
  {
    if n > 0 {
      IncompleteTasksAddNothing(catalog, tasks, n - 1);
    }
  }

  // ==================== Language combo ====================

  /** A task of the catalog's language category that counts as completed. */
  predicate CompletedLanguageTask(catalog: seq<TaskDefinition>, t: ProgressTaskItem)
  {
    var def := FindTaskIn(catalog, t.taskId);
    def.Some? && def.value.category == Language && EffectiveCompleted(t)
  }

  /** The combo result: a tier's reward and caption, or nothing. */
  datatype Combo = Combo(gold: int, xp: int, caption: Option<string>)

  const NO_COMBO := Combo(0, 0, None)

  /** The highest of the first `n` tiers whose count is reached, as an index. */
  function BestTier(tiers: seq<ComboTier>, count: nat, n: nat): (r: Option<nat>)
    requires n <= |tiers|
  {
    if n == 0 then None
    else if count >= tiers[n - 1].count then Some(n - 1)
    else BestTier(tiers, count, n - 1)
  }

  /** The tier found is reached and no later tier is; none is found exactly
      when no tier is reached. */
  lemma {:induction false} BestTierIsHighest(tiers: seq<ComboTier>, count: nat, n: nat)
    requires n <= |tiers|
    ensures BestTier(tiers, count, n).None? <==> forall j :: 0 <= j < n ==> count < tiers[j].count
    ensures BestTier(tiers, count, n).Some? ==>
              var k := BestTier(tiers, count, n).value;
              k < n && count >= tiers[k].count && forall j :: k < j < n ==> count < tiers[j].count
  {
    if n > 0 && count < tiers[n - 1].count {
      BestTierIsHighest(tiers, count, n - 1);
    }
  }

  function ComboOf(tiers: seq<ComboTier>, k: Option<nat>): Combo
    requires k.Some? ==> k.value < |tiers|
  {
    if k.None? then NO_COMBO
    else Combo(tiers[k.value].gold, tiers[k.value].xp, Some(tiers[k.value].caption))
  }

  /** The reverse scan for the highest tier reached. */
  method HighestTier(tiers: seq<ComboTier>, count: nat) returns (r: Combo)
    ensures BestTier(tiers, count, |tiers|).Some? ==> BestTier(tiers, count, |tiers|).value < |tiers|
    ensures r == ComboOf(tiers, BestTier(tiers, count, |tiers|))
  {
    BestTierIsHighest(tiers, count, |tiers|);
    var i := |tiers|;
    while i > 0
      invariant 0 <= i <= |tiers|
      invariant BestTier(tiers, count, |tiers|) == BestTier(tiers, count, i)
    {
      if count >= tiers[i - 1].count {
        return Combo(tiers[i - 1].gold, tiers[i - 1].xp, Some(tiers[i - 1].caption));
      }
      i := i - 1;
    }
    r := NO_COMBO;
  }

  /** The number of completed language tasks. */
  function LanguageCount(catalog: seq<TaskDefinition>, tasks: seq<ProgressTaskItem>): nat
  {
    Seqs.Count(tasks, t => CompletedLanguageTask(catalog, t))
  }

  /** The language combo a list of tasks earns. */
  function LanguageCombo(catalog: seq<TaskDefinition>, tasks: seq<ProgressTaskItem>): Combo
  {
    var count := LanguageCount(catalog, tasks);
    BestTierIsHighest(LANGUAGE_COMBO_REWARDS, count, |LANGUAGE_COMBO_REWARDS|);
    ComboOf(LANGUAGE_COMBO_REWARDS, BestTier(LANGUAGE_COMBO_REWARDS, count, |LANGUAGE_COMBO_REWARDS|))
  }

  /** `calcLanguageCombo` over a catalog. */
  method ComboIn(catalog: seq<TaskDefinition>, tasks: seq<ProgressTaskItem>) returns (r: Combo)
    ensures r == LanguageCombo(catalog, tasks)
  {
    var count := LanguageCount(catalog, tasks);
    r := HighestTier(LANGUAGE_COMBO_REWARDS, count);
  }

  /** `calcLanguageCombo`, with the built-in catalog. */
  method CalcLanguageCombo(tasks: seq<ProgressTaskItem>) returns (r: Combo)
    ensures r == LanguageCombo(TASK_DEFINITIONS, tasks)
  {
    r := ComboIn(TASK_DEFINITIONS, tasks);
  }

  /** With the built-in tiers: fewer than two completed language tasks earn
      nothing, exactly two earn the two-task tier, three or more the
      three-task tier. */
  lemma ComboTiers(catalog: seq<TaskDefinition>, tasks: seq<ProgressTaskItem>)
    ensures var count := LanguageCount(catalog, tasks);
            && (count < 2 ==> LanguageCombo(catalog, tasks) == NO_COMBO)
            && (count == 2 ==> LanguageCombo(catalog, tasks) == Combo(2, 0, Some(LANGUAGE_COMBO_REWARDS[0].caption)))
            && (count >= 3 ==> LanguageCombo(catalog, tasks) == Combo(3, 0, Some(LANGUAGE_COMBO_REWARDS[1].caption)))
  {
  }

  /** Settling tasks keeps which of them count toward the combo. */
  lemma {:induction false} SettlingKeepsCombo(catalog: seq<TaskDefinition>, tasks: seq<ProgressTaskItem>, settled: seq<ProgressTaskItem>)
    requires |settled| == |tasks|
    requires forall i :: 0 <= i < |tasks| ==> settled[i] == SettleTask(catalog, tasks[i])
    ensures LanguageCount(catalog, settled) == LanguageCount(catalog, tasks)
    ensures LanguageCombo(catalog, settled) == LanguageCombo(catalog, tasks)
  {
    if tasks != [] {
      SettlingKeepsCombo(catalog, tasks[1..], settled[1..]);
    }
  }

  // ==================== The sheet ====================

  /** `Math.floor(total * multiplier)` when the multiplier is not one; a
      missing multiplier is one. */
  function Multiplied(total: int, multiplier: Option<nat>): int
  {
    var m := if multiplier.Some? then multiplier.value else 10;
    if m != 10 then (total * m) / 10 else total
  }

  /** Skipping the multiplication at one changes nothing, and the result is
      the product rounded down. */
  lemma MultipliedIsFloor(total: int, multiplier: Option<nat>)
    ensures var m := if multiplier.Some? then multiplier.value else 10;
            10 * Multiplied(total, multiplier) <= total * m < 10 * Multiplied(total, multiplier) + 10
  {
  }

  function OrZero(x: Option<int>): int
  {
    if x.Some? then x.value else 0
  }

  /** The totals before the multiplier: the final rewards plus the combo. */
  function PreTotals(catalog: seq<TaskDefinition>, sheet: DailyProgressSheet): GoldXp
  {
    var sums := FinalSums(catalog, sheet.tasks, |sheet.tasks|);
    var combo := LanguageCombo(catalog, sheet.tasks);
    GoldXp(sums.gold + combo.gold, sums.xp + combo.xp)
  }

  /** The multiplier applied to both totals, then the flat bonuses added. */
  function WithBonuses(pre: GoldXp, sheet: DailyProgressSheet): GoldXp
  {
    GoldXp(Multiplied(pre.gold, sheet.bonusMultiplier) + OrZero(sheet.bonusGold),
           Multiplied(pre.xp, sheet.bonusMultiplier) + OrZero(sheet.bonusXp))
  }

  /** The loop of `settleProgressSheet`: every task settled in place, with
      the running sums of their final rewards. */
  method SettleTasks(catalog: seq<TaskDefinition>, sheetTasks: seq<ProgressTaskItem>)
    returns (tasks: seq<ProgressTaskItem>, totalGold: int, totalXp: int)
    ensures |tasks| == |sheetTasks|
    ensures forall i :: 0 <= i < |sheetTasks| ==> tasks[i] == SettleTask(catalog, sheetTasks[i])
    ensures GoldXp(totalGold, totalXp) == FinalSums(catalog, sheetTasks, |sheetTasks|)
  {
    tasks := sheetTasks;
    totalGold, totalXp := 0, 0;
    for i := 0 to |tasks|
      invariant |tasks| == |sheetTasks|
      invariant forall j :: 0 <= j < i ==> tasks[j] == SettleTask(catalog, sheetTasks[j])
      invariant forall j :: i <= j < |tasks| ==> tasks[j] == sheetTasks[j]
      invariant totalGold == FinalSums(catalog, sheetTasks, i).gold && totalXp == FinalSums(catalog, sheetTasks, i).xp
    {
      var task := tasks[i];
      var isCompleted := if task.approverOverrideCompleted.Some? then task.approverOverrideCompleted.value else task.completed;
      if !isCompleted {
        tasks := tasks[i := task.(finalGold := 0, finalXp := 0)];
        continue;
      }
      var finalVariant := EffectiveVariant(task);
      var reward := RewardIn(catalog, task.taskId, finalVariant);
      tasks := tasks[i := task.(finalGold := reward.gold, finalXp := reward.xp)];
      totalGold := totalGold + reward.gold;
      totalXp := totalXp + reward.xp;
    }
  }

  /** The multiplier step and the flat bonuses of `settleProgressSheet`. */
  method ApplySheetBonuses(pre: GoldXp, sheet: DailyProgressSheet) returns (totalGold: int, totalXp: int)
    ensures GoldXp(totalGold, totalXp) == WithBonuses(pre, sheet)
  {
    totalGold, totalXp := pre.gold, pre.xp;
    var multiplier := if sheet.bonusMultiplier.Some? then sheet.bonusMultiplier.value else 10;
    if multiplier != 10 {
      totalGold := (totalGold * multiplier) / 10;
      totalXp := (totalXp * multiplier) / 10;
    }
    totalGold := totalGold + OrZero(sheet.bonusGold);
    totalXp := totalXp + OrZero(sheet.bonusXp);
  }

  /** `settleProgressSheet` over a catalog: a settled copy whose tasks carry
      their final rewards and whose totals are the settled totals; status and
      every other field are kept. */
  method SettleIn(catalog: seq<TaskDefinition>, sheet: DailyProgressSheet) returns (r: DailyProgressSheet)
    ensures |r.tasks| == |sheet.tasks|
    ensures forall i :: 0 <= i < |sheet.tasks| ==> r.tasks[i] == SettleTask(catalog, sheet.tasks[i])
    ensures GoldXp(r.totalGold, r.totalXp) == WithBonuses(PreTotals(catalog, sheet), sheet)
    ensures r == sheet.(tasks := r.tasks, settled := true, totalGold := r.totalGold, totalXp := r.totalXp)
  {
    var tasks, sumGold, sumXp := SettleTasks(catalog, sheet.tasks);
    var combo := ComboIn(catalog, tasks);
    SettlingKeepsCombo(catalog, sheet.tasks, tasks);
    var pre := GoldXp(sumGold + combo.gold, sumXp + combo.xp);
    var totalGold, totalXp := ApplySheetBonuses(pre, sheet);
    r := sheet.(tasks := tasks, totalGold := totalGold, totalXp := totalXp, settled := true);
  }

  /** `settleProgressSheet`, priced in the built-in catalog. */
  method SettleProgressSheet(sheet: DailyProgressSheet) returns (r: DailyProgressSheet)
    ensures |r.tasks| == |sheet.tasks|
    ensures forall i :: 0 <= i < |sheet.tasks| ==> r.tasks[i] == SettleTask(TASK_DEFINITIONS, sheet.tasks[i])
    ensures GoldXp(r.totalGold, r.totalXp) == WithBonuses(PreTotals(TASK_DEFINITIONS, sheet), sheet)
    ensures r == sheet.(tasks := r.tasks, settled := true, totalGold := r.totalGold, totalXp := r.totalXp)
  {
    r := SettleIn(TASK_DEFINITIONS, sheet);
  }

  /** The preview's numbers. */
  datatype Preview = Preview(totalGold: int, totalXp: int, combo: Combo)

  /** `previewSettlement`: the totals a settlement would write, and the combo
      of the settled tasks, which is the combo of the sheet's own tasks. */
  method PreviewSettlement(sheet: DailyProgressSheet) returns (r: Preview)
    ensures GoldXp(r.totalGold, r.totalXp) == WithBonuses(PreTotals(TASK_DEFINITIONS, sheet), sheet)
    ensures r.combo == LanguageCombo(TASK_DEFINITIONS, sheet.tasks)
  {
    var preview := SettleProgressSheet(sheet);
    var combo := CalcLanguageCombo(preview.tasks);
    SettlingKeepsCombo(TASK_DEFINITIONS, sheet.tasks, preview.tasks);
    r := Preview(preview.totalGold, preview.totalXp, combo);
  }

  /** With no multiplier and no bonuses, a sheet whose tasks are all
      incomplete settles to nothing. */
  lemma NothingCompletedSettlesToNothing(catalog: seq<TaskDefinition>, sheet: DailyProgressSheet)
    requires forall i :: 0 <= i < |sheet.tasks| ==> !EffectiveCompleted(sheet.tasks[i])
    requires sheet.bonusMultiplier.None? && sheet.bonusGold.None? && sheet.bonusXp.None?
    ensures WithBonuses(PreTotals(catalog, sheet), sheet) == GoldXp(0, 0)
  {
    IncompleteTasksAddNothing(catalog, sheet.tasks, |sheet.tasks|);
    NoneCompletedCountsZero(catalog, sheet.tasks);
  }

  lemma {:induction false} NoneCompletedCountsZero(catalog: seq<TaskDefinition>, tasks: seq<ProgressTaskItem>)
    requires forall i :: 0 <= i < |tasks| ==> !EffectiveCompleted(tasks[i])
    ensures LanguageCount(catalog, tasks) == 0
  {
    if tasks != [] {
      NoneCompletedCountsZero(catalog, tasks[1..]);
    }
  }
}
