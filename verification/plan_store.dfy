/** The week's plan being edited (src/stores/plan.store.ts). Its edits are
    those of the weekly-plan engine done in place; activation writes the
    generated progress sheets through the progress store. Storage is the map
    `savedPlans` from a plan's path to the plan last written there. */
module PlanStores {
  import opened Types
  import opened TaskCatalog
  import WeeklyPlans
  import ProgressStores
  import Seqs

  /** `weeks/<weekId>/plan.json`. */
  function PlanPath(weekId: string): string
  {
    "weeks/" + weekId + "/plan.json"
  }

  /** Where a sheet is saved. */
  function PathOf(s: DailyProgressSheet): string
  {
    ProgressStores.SheetPath(s.weekId, s.date)
  }

  /** Within one week, different dates are saved at different paths. */
  lemma SheetPathInjective(weekId: string, d1: string, d2: string)
    requires d1 != d2
    ensures ProgressStores.SheetPath(weekId, d1) != ProgressStores.SheetPath(weekId, d2)
  {
    var pre := "weeks/" + weekId + "/progress/";
    var p1 := ProgressStores.SheetPath(weekId, d1);
    var p2 := ProgressStores.SheetPath(weekId, d2);
    assert p1 == pre + d1 + ".json";
    assert p2 == pre + d2 + ".json";
    assert d1 == p1[|pre|..|pre| + |d1|];
    assert d2 == p2[|pre|..|pre| + |d2|];
  }

  /** Whether the sheet loop writes a sheet: every sheet on reactivation,
      only sheets with a task on activation. */
  predicate Writes(all: bool, s: DailyProgressSheet)
  {
    all || |s.tasks| > 0
  }

  /** The storage after the first `n` sheets have been offered to the loop. */
  function Written(saved: map<string, DailyProgressSheet>, sheets: seq<DailyProgressSheet>, n: nat, all: bool): map<string, DailyProgressSheet>
    requires n <= |sheets|
  {
    if n == 0 then saved
    else
      var before := Written(saved, sheets, n - 1, all);
      if Writes(all, sheets[n - 1]) then before[PathOf(sheets[n - 1]) := sheets[n - 1]] else before
  }

  /** A written sheet is found at its path unless a later written sheet
      shares that path. */
  lemma {:induction false} WrittenFinds(saved: map<string, DailyProgressSheet>, sheets: seq<DailyProgressSheet>, n: nat, all: bool, i: nat)
    requires i < n <= |sheets| && Writes(all, sheets[i])
    requires forall j :: i < j < n ==> PathOf(sheets[j]) != PathOf(sheets[i])
    ensures PathOf(sheets[i]) in Written(saved, sheets, n, all)
    ensures Written(saved, sheets, n, all)[PathOf(sheets[i])] == sheets[i]
  {
    if n - 1 != i {
      WrittenFinds(saved, sheets, n - 1, all, i);
    }
  }

  /** A path no written sheet has keeps what was stored there. */
  lemma {:induction false} WrittenSkips(saved: map<string, DailyProgressSheet>, sheets: seq<DailyProgressSheet>, n: nat, all: bool, p: string)
    requires n <= |sheets|
    requires forall j :: 0 <= j < n && Writes(all, sheets[j]) ==> PathOf(sheets[j]) != p
    ensures p in Written(saved, sheets, n, all) <==> p in saved
    ensures p in saved ==> Written(saved, sheets, n, all)[p] == saved[p]
  {
    if n > 0 {
      WrittenSkips(saved, sheets, n - 1, all, p);
    }
  }

  /** The days of a plan have pairwise different dates. */
  predicate DistinctDates(plan: WeeklyPlan)
  {
    forall i, j :: 0 <= i < j < |plan.dailyPlans| ==> plan.dailyPlans[i].date != plan.dailyPlans[j].date
  }

  /** After the sheet loop, each written day's path holds that day's fresh
      sheet, and the path of a day not written keeps what was stored. */
  lemma WrittenDays(saved: map<string, DailyProgressSheet>, plan: WeeklyPlan, all: bool, k: nat)
    requires DistinctDates(plan) && k < |plan.dailyPlans|
    ensures var sheets := WeeklyPlans.GenerateAllProgressSheets(plan);
            var w := Written(saved, sheets, |sheets|, all);
            var p := ProgressStores.SheetPath(plan.weekId, plan.dailyPlans[k].date);
            (Writes(all, sheets[k]) ==> p in w && w[p] == WeeklyPlans.GenerateProgressSheet(plan.dailyPlans[k], plan.weekId)) &&
            (!Writes(all, sheets[k]) ==> (p in w <==> p in saved) && (p in saved ==> w[p] == saved[p]))
  {
    var sheets := WeeklyPlans.GenerateAllProgressSheets(plan);
    var days := plan.dailyPlans;
    forall j | 0 <= j < |sheets| && j != k
      ensures PathOf(sheets[j]) != PathOf(sheets[k])
    {
      if j < k {
        assert days[j].date != days[k].date;
      } else {
        assert days[k].date != days[j].date;
      }
      SheetPathInjective(plan.weekId, days[j].date, days[k].date);
    }
    if Writes(all, sheets[k]) {
      WrittenFinds(saved, sheets, |sheets|, all, k);
    } else {
      WrittenSkips(saved, sheets, |sheets|, all, PathOf(sheets[k]));
    }
  }

  class PlanStore {
    var plan: Option<WeeklyPlan>
    /** The storage of plans: the plan last written at each path. */
    var savedPlans: map<string, WeeklyPlan>
    /** The progress store that activation writes sheets through. */
    const progress: ProgressStores.ProgressStore

    constructor (savedPlans: map<string, WeeklyPlan>, progress: ProgressStores.ProgressStore)
      ensures plan.None? && this.savedPlans == savedPlans && this.progress == progress
    {
      plan := None;
      this.savedPlans := savedPlans;
      this.progress := progress;
    }

    /** `loadWeek`: the stored plan of the week, or a fresh draft on the
        week's dates. */
    method LoadWeek(wk: string, dates: seq<string>, now: string)
      requires |dates| == 7
      modifies this
      ensures plan == Some(if PlanPath(wk) in savedPlans then savedPlans[PlanPath(wk)] else WeeklyPlans.CreateWeeklyPlan(wk, dates, now))
      ensures savedPlans == old(savedPlans)
    {
      var path := PlanPath(wk);
      plan := Some(if path in savedPlans then savedPlans[path] else WeeklyPlans.CreateWeeklyPlan(wk, dates, now));
    }

    /** `save`: writes the plan, if any, at its week's path. */
    method Save()
      modifies this
      ensures plan == old(plan)
      ensures savedPlans == if plan.Some? then old(savedPlans)[PlanPath(plan.value.weekId) := plan.value] else old(savedPlans)
    {
      if plan.None? {
        return;
      }
      savedPlans := savedPlans[PlanPath(plan.value.weekId) := plan.value];
    }

    /** `addTask`: the engine's `addTaskToPlan`, done in place; nothing
        without a plan. */
    method AddTask(date: string, taskId: string, note: string, targetVariant: Option<string>, now: string)
      modifies this
      ensures old(plan).None? ==> plan.None?
      ensures old(plan).Some? ==> plan == Some(WeeklyPlans.AddTaskToPlan(old(plan).value, date, taskId, note, targetVariant, now))
      ensures savedPlans == old(savedPlans)
    {
      if plan.None? {
        return;
      }
      var p := plan.value;
      var k := WeeklyPlans.DayIndex(p, date);
      if k < 0 {
        return;
      }
      var dp := p.dailyPlans[k];
      dp := dp.(tasks := dp.tasks + [PlannedTaskItem(taskId, targetVariant, note)]);
      plan := Some(p.(dailyPlans := p.dailyPlans[k := dp], updatedAt := now));
    }

    /** `removeTask`: the engine's `removeTaskFromPlan`, done in place. */
    method RemoveTask(date: string, idx: int, now: string)
      modifies this
      ensures old(plan).None? ==> plan.None?
      ensures old(plan).Some? ==> plan == Some(WeeklyPlans.RemoveTaskFromPlan(old(plan).value, date, idx, now))
      ensures savedPlans == old(savedPlans)
    {
      if plan.None? {
        return;
      }
      var p := plan.value;
      var k := WeeklyPlans.DayIndex(p, date);
      if k < 0 {
        return;
      }
      var dp := p.dailyPlans[k];
      dp := dp.(tasks := Seqs.SpliceOut(dp.tasks, idx));
      plan := Some(p.(dailyPlans := p.dailyPlans[k := dp], updatedAt := now));
    }

    /** `editTask`: the engine's `updatePlanTask`, done in place. */
    method EditTask(date: string, idx: int, changes: WeeklyPlans.TaskChanges, now: string)
      modifies this
      ensures old(plan).None? ==> plan.None?
      ensures old(plan).Some? ==> plan == Some(WeeklyPlans.UpdatePlanTask(old(plan).value, date, idx, changes, now))
      ensures savedPlans == old(savedPlans)
    {
      if plan.None? {
        return;
      }
      var p := plan.value;
      var k := WeeklyPlans.DayIndex(p, date);
      if k < 0 || !(0 <= idx < |p.dailyPlans[k].tasks|) {
        return;
      }
      var dp := p.dailyPlans[k];
      dp := dp.(tasks := dp.tasks[idx := WeeklyPlans.Merge(dp.tasks[idx], changes)]);
      plan := Some(p.(dailyPlans := p.dailyPlans[k := dp], updatedAt := now));
    }

    /** The sheet loop shared by `activate` and `reactivate`. */
    method WriteSheets(sheets: seq<DailyProgressSheet>, all: bool)
      modifies progress
      ensures progress.saved == Written(old(progress.saved), sheets, |sheets|, all)
      ensures progress.currentSheet == old(progress.currentSheet) && progress.weekSheets == old(progress.weekSheets)
    {
      for i := 0 to |sheets|
        invariant progress.saved == Written(old(progress.saved), sheets, i, all)
        invariant progress.currentSheet == old(progress.currentSheet) && progress.weekSheets == old(progress.weekSheets)
      {
        var sheet := sheets[i];
        if all || |sheet.tasks| > 0 {
          progress.SaveSheet(sheet);
        }
      }
    }

    /** `activate`: the plan made active and saved, and a fresh sheet
        written for every day that has a task. */
    method Activate(now: string)
      modifies this, progress
      ensures old(plan).None? ==> plan.None? && savedPlans == old(savedPlans) && progress.saved == old(progress.saved)
      ensures old(plan).Some? ==>
                var p := WeeklyPlans.ActivatePlan(old(plan).value, now);
                var sheets := WeeklyPlans.GenerateAllProgressSheets(p);
                plan == Some(p) && savedPlans == old(savedPlans)[PlanPath(p.weekId) := p] &&
                progress.saved == Written(old(progress.saved), sheets, |sheets|, false)
      ensures progress.currentSheet == old(progress.currentSheet) && progress.weekSheets == old(progress.weekSheets)
    {
      if plan.None? {
        return;
      }
      plan := Some(WeeklyPlans.ActivatePlan(plan.value, now));
      Save();
      var sheets := WeeklyPlans.GenerateAllProgressSheets(plan.value);
      WriteSheets(sheets, false);
    }

    /** `reactivate`: the plan saved with a new update time, and a fresh
        sheet written for every day, replacing what was stored. */
    method Reactivate(now: string)
      modifies this, progress
      ensures old(plan).None? ==> plan.None? && savedPlans == old(savedPlans) && progress.saved == old(progress.saved)
      ensures old(plan).Some? ==>
                var p := old(plan).value.(updatedAt := now);
                var sheets := WeeklyPlans.GenerateAllProgressSheets(p);
                plan == Some(p) && savedPlans == old(savedPlans)[PlanPath(p.weekId) := p] &&
                progress.saved == Written(old(progress.saved), sheets, |sheets|, true)
      ensures progress.currentSheet == old(progress.currentSheet) && progress.weekSheets == old(progress.weekSheets)
    {
      if plan.None? {
        return;
      }
      plan := Some(plan.value.(updatedAt := now));
      Save();
      var sheets := WeeklyPlans.GenerateAllProgressSheets(plan.value);
      WriteSheets(sheets, true);
    }

    /** `deletePlan`: a fresh empty draft for the same week, saved. */
    method DeletePlan(dates: seq<string>, now: string)
      requires |dates| == 7
      modifies this
      ensures old(plan).None? ==> plan.None? && savedPlans == old(savedPlans)
      ensures old(plan).Some? ==>
                var p := WeeklyPlans.CreateWeeklyPlan(old(plan).value.weekId, dates, now);
                plan == Some(p) && savedPlans == old(savedPlans)[PlanPath(p.weekId) := p]
    {
      if plan.None? {
        return;
      }
      var wk := plan.value.weekId;
      plan := Some(WeeklyPlans.CreateWeeklyPlan(wk, dates, now));
      Save();
    }
  }
}
