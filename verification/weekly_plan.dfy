/** Weekly plans and the progress sheets generated from them
    (src/engine/weekly-plan.ts). Every edit returns a changed copy and leaves
    its input alone; the week's dates and the clock are inputs. */
module WeeklyPlans {
  import opened Types
  import opened TaskCatalog
  import Seqs
  import Settlement

  /** `createWeeklyPlan`: seven empty days on the week's dates, in order, as a draft. */
  function CreateWeeklyPlan(weekId: string, dates: seq<string>, now: string): (p: WeeklyPlan)
    requires |dates| == 7
    ensures p.weekId == weekId && p.status == Draft
    ensures p.startDate == dates[0] && p.endDate == dates[6]
    ensures |p.dailyPlans| == 7
    ensures forall i :: 0 <= i < 7 ==> p.dailyPlans[i] == DailyPlan(dates[i], [])
    ensures p.createdAt == now && p.updatedAt == now
  {
    WeeklyPlan(weekId, dates[0], dates[6], Draft,
               seq(|dates|, i requires 0 <= i < |dates| => DailyPlan(dates[i], [])), now, now)
  }

  /** The position of the day with the given date, or -1. */
  function DayIndex(plan: WeeklyPlan, date: string): (k: int)
    ensures -1 <= k < |plan.dailyPlans|
    ensures k >= 0 ==> plan.dailyPlans[k].date == date && forall j :: 0 <= j < k ==> plan.dailyPlans[j].date != date
    ensures k < 0 <==> forall j :: 0 <= j < |plan.dailyPlans| ==> plan.dailyPlans[j].date != date
  {
    Seqs.FirstIndex(plan.dailyPlans, (d: DailyPlan) => d.date == date)
  }

  /** The plan with one day's task list replaced and the update time set. */
  function WithDayTasks(plan: WeeklyPlan, k: nat, tasks: seq<PlannedTaskItem>, now: string): (p: WeeklyPlan)
    requires k < |plan.dailyPlans|
    ensures |p.dailyPlans| == |plan.dailyPlans|
    ensures p.dailyPlans[k] == plan.dailyPlans[k].(tasks := tasks)
    ensures forall j :: 0 <= j < |plan.dailyPlans| && j != k ==> p.dailyPlans[j] == plan.dailyPlans[j]
    ensures p == plan.(dailyPlans := p.dailyPlans, updatedAt := now)
  {
    plan.(dailyPlans := plan.dailyPlans[k := plan.dailyPlans[k].(tasks := tasks)], updatedAt := now)
  }

  /** `addTaskToPlan`: the plan itself for an unknown date; otherwise the new
      task at the end of that day, and no other day changed. */
  function AddTaskToPlan(plan: WeeklyPlan, date: string, taskId: string, note: string,
                         targetVariant: Option<string>, now: string): (p: WeeklyPlan)
    ensures DayIndex(plan, date) < 0 ==> p == plan
    ensures DayIndex(plan, date) >= 0 ==>
              var k := DayIndex(plan, date);
              p == WithDayTasks(plan, k, plan.dailyPlans[k].tasks + [PlannedTaskItem(taskId, targetVariant, note)], now)
  {
    var k := DayIndex(plan, date);
    if k == -1 then plan
    else WithDayTasks(plan, k, plan.dailyPlans[k].tasks + [PlannedTaskItem(taskId, targetVariant, note)], now)
  }

  /** `removeTaskFromPlan`: `splice(taskIndex, 1)` on that day's tasks. */
  function RemoveTaskFromPlan(plan: WeeklyPlan, date: string, taskIndex: int, now: string): (p: WeeklyPlan)
    ensures DayIndex(plan, date) < 0 ==> p == plan
    ensures DayIndex(plan, date) >= 0 ==>
              var k := DayIndex(plan, date);
              p == WithDayTasks(plan, k, Seqs.SpliceOut(plan.dailyPlans[k].tasks, taskIndex), now)
  {
    var k := DayIndex(plan, date);
    if k == -1 then plan
    else WithDayTasks(plan, k, Seqs.SpliceOut(plan.dailyPlans[k].tasks, taskIndex), now)
  }

  /** A task added to a day and then spliced out from the end leaves every
      day's tasks as they were. */
  lemma AddThenRemoveLast(plan: WeeklyPlan, date: string, taskId: string, note: string,
                          targetVariant: Option<string>, now: string)
    requires DayIndex(plan, date) >= 0
    ensures RemoveTaskFromPlan(AddTaskToPlan(plan, date, taskId, note, targetVariant, now), date, -1, now).dailyPlans
            == plan.dailyPlans
  {
    var k := DayIndex(plan, date);
    var added := AddTaskToPlan(plan, date, taskId, note, targetVariant, now);
    var t := plan.dailyPlans[k].tasks;
    assert added.dailyPlans[..k] == plan.dailyPlans[..k];
    assert DayIndex(added, date) == k by {
      assert forall j :: 0 <= j < k ==> added.dailyPlans[j].date != date;
    }
    assert Seqs.SpliceOut(t + [PlannedTaskItem(taskId, targetVariant, note)], -1) == t;
  }

  /** The fields `Object.assign` copies: a present key overwrites, even
      with `undefined` for the target variant. */
  datatype TaskChanges = TaskChanges(taskId: Option<string>, targetVariant: Option<Option<string>>, note: Option<string>)

  function Merge(t: PlannedTaskItem, changes: TaskChanges): (r: PlannedTaskItem)
    ensures r.taskId == (if changes.taskId.Some? then changes.taskId.value else t.taskId)
    ensures r.targetVariant == (if changes.targetVariant.Some? then changes.targetVariant.value else t.targetVariant)
    ensures r.note == (if changes.note.Some? then changes.note.value else t.note)
  {
    PlannedTaskItem(
      if changes.taskId.Some? then changes.taskId.value else t.taskId,
      if changes.targetVariant.Some? then changes.targetVariant.value else t.targetVariant,
      if changes.note.Some? then changes.note.value else t.note)
  }

  /** Merging no changes keeps the task. */
  lemma MergeNothing(t: PlannedTaskItem)
    ensures Merge(t, TaskChanges(None, None, None)) == t
  {
  }

  /** `updatePlanTask`: the plan itself for an unknown date or a missing
      task; otherwise that one task merged with the changes. */
  function UpdatePlanTask(plan: WeeklyPlan, date: string, taskIndex: int, changes: TaskChanges, now: string): (p: WeeklyPlan)
    ensures DayIndex(plan, date) < 0 ==> p == plan
    ensures DayIndex(plan, date) >= 0 && !(0 <= taskIndex < |plan.dailyPlans[DayIndex(plan, date)].tasks|) ==> p == plan
    ensures DayIndex(plan, date) >= 0 && 0 <= taskIndex < |plan.dailyPlans[DayIndex(plan, date)].tasks| ==>
              var k := DayIndex(plan, date);
              var tasks := plan.dailyPlans[k].tasks;
              p == WithDayTasks(plan, k, tasks[taskIndex := Merge(tasks[taskIndex], changes)], now)
  {
    var k := DayIndex(plan, date);
    if k == -1 then plan
    else
      var tasks := plan.dailyPlans[k].tasks;
      if !(0 <= taskIndex < |tasks|) then plan
      else WithDayTasks(plan, k, tasks[taskIndex := Merge(tasks[taskIndex], changes)], now)
  }

  /** `activatePlan`: status active, only the update time changed besides. */
  function ActivatePlan(plan: WeeklyPlan, now: string): (p: WeeklyPlan)
    ensures p.status == Active
    ensures p == plan.(status := Active, updatedAt := now)
  {
    plan.(status := Active, updatedAt := now)
  }

  // ==================== Progress sheets ====================

  /** A planned task as a fresh sheet entry: not completed, nothing paid. */
  function FreshTask(t: PlannedTaskItem): ProgressTaskItem
  {
    ProgressTaskItem(t.taskId, t.targetVariant, t.note, false, None, None, None, None, None, 0, 0)
  }

  /** `generateProgressSheet`: a pending, unsettled sheet for the day, one
      entry per planned task in order, carrying its id, target and note. */
  function GenerateProgressSheet(dailyPlan: DailyPlan, weekId: string): (s: DailyProgressSheet)
    ensures s.date == dailyPlan.date && s.weekId == weekId
    ensures s.status == Pending && !s.settled && s.totalGold == 0 && s.totalXp == 0
    ensures |s.tasks| == |dailyPlan.tasks|
    ensures forall i :: 0 <= i < |s.tasks| ==>
              var t := s.tasks[i];
              t.taskId == dailyPlan.tasks[i].taskId && t.targetVariant == dailyPlan.tasks[i].targetVariant &&
              t.note == dailyPlan.tasks[i].note && !t.completed && t.finalGold == 0 && t.finalXp == 0 &&
              t.approverOverrideCompleted.None?
  {
    DailyProgressSheet(
      dailyPlan.date, weekId, Pending,
      seq(|dailyPlan.tasks|, i requires 0 <= i < |dailyPlan.tasks| => FreshTask(dailyPlan.tasks[i])),
      None, None, None, None, None, None, None, None, None, None, None,
      false, 0, 0)
  }

  /** A freshly generated sheet, settled as it stands, pays nothing. */
  lemma FreshSheetSettlesToNothing(catalog: seq<TaskDefinition>, dailyPlan: DailyPlan, weekId: string)
    ensures var s := GenerateProgressSheet(dailyPlan, weekId);
            Settlement.WithBonuses(Settlement.PreTotals(catalog, s), s) == GoldXp(0, 0)
  {
    var s := GenerateProgressSheet(dailyPlan, weekId);
    assert forall i :: 0 <= i < |s.tasks| ==> !Settlement.EffectiveCompleted(s.tasks[i]);
    Settlement.NothingCompletedSettlesToNothing(catalog, s);
  }

  /** `generateAllProgressSheets`: one sheet per day, in order. */
  function GenerateAllProgressSheets(plan: WeeklyPlan): (r: seq<DailyProgressSheet>)
    ensures |r| == |plan.dailyPlans|
    ensures forall i :: 0 <= i < |r| ==> r[i] == GenerateProgressSheet(plan.dailyPlans[i], plan.weekId)
  {
    seq(|plan.dailyPlans|, i requires 0 <= i < |plan.dailyPlans| => GenerateProgressSheet(plan.dailyPlans[i], plan.weekId))
  }

  /** `needsProgressSheet`. */
  function NeedsProgressSheet(plan: WeeklyPlan, date: string, existingSheets: seq<DailyProgressSheet>): (b: bool)
  {
    if plan.status != Active then false
    else
      var k := DayIndex(plan, date);
      if k == -1 || |plan.dailyPlans[k].tasks| == 0 then false
      else !Seqs.Any(existingSheets, (s: DailyProgressSheet) => s.date == date)
  }

  /** A sheet is needed exactly when the plan is active, the first day with
      that date has a task, and no existing sheet has that date. */
  lemma NeedsProgressSheetIff(plan: WeeklyPlan, date: string, existingSheets: seq<DailyProgressSheet>)
    ensures NeedsProgressSheet(plan, date, existingSheets) <==>
              plan.status == Active &&
              (exists k :: 0 <= k < |plan.dailyPlans| && plan.dailyPlans[k].date == date &&
                 |plan.dailyPlans[k].tasks| > 0 && forall j :: 0 <= j < k ==> plan.dailyPlans[j].date != date) &&
              forall i :: 0 <= i < |existingSheets| ==> existingSheets[i].date != date
  {
    var k := DayIndex(plan, date);
    Seqs.AnyIffFirstIndex(existingSheets, (s: DailyProgressSheet) => s.date == date);
    if k >= 0 {
      assert 0 <= k < |plan.dailyPlans| && plan.dailyPlans[k].date == date &&
             forall j :: 0 <= j < k ==> plan.dailyPlans[j].date != date;
    }
  }

  /** Once a sheet for the date exists, none is needed. */
  lemma GeneratedSheetSatisfiesNeed(plan: WeeklyPlan, date: string, existingSheets: seq<DailyProgressSheet>)
    requires DayIndex(plan, date) >= 0
    ensures !NeedsProgressSheet(plan, date,
               existingSheets + [GenerateProgressSheet(plan.dailyPlans[DayIndex(plan, date)], plan.weekId)])
  {
    var s := GenerateProgressSheet(plan.dailyPlans[DayIndex(plan, date)], plan.weekId);
    var all := existingSheets + [s];
    assert all[|existingSheets|].date == date;
  }
}
