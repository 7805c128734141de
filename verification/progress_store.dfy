/** The review of a daily progress sheet (src/stores/progress.store.ts): the
    child reports each task, then the approver overrides, approves or
    rejects. Storage is the map `saved` from a sheet's path to the sheet last
    written there; the clock is a parameter. */
module ProgressStores {
  import opened Types
  import opened TaskCatalog
  import Seqs
  import Settlement
  import PlayerStores

  /** `weeks/<weekId>/progress/<date>.json`. */
  function SheetPath(weekId: string, date: string): string
  {
    "weeks/" + weekId + "/progress/" + date + ".json"
  }

  /** The sheets stored for the given dates, in date order, skipping dates
      with nothing stored. */
  function StoredSheets(saved: map<string, DailyProgressSheet>, weekId: string, dates: seq<string>): (r: seq<DailyProgressSheet>)
    ensures |r| <= |dates|
    ensures forall i :: 0 <= i < |r| ==> r[i] in saved.Values
  {
    if dates == [] then []
    else
      var before := StoredSheets(saved, weekId, dates[..|dates| - 1]);
      var path := SheetPath(weekId, dates[|dates| - 1]);
      if path in saved then before + [saved[path]] else before
  }

  /** When every date has a stored sheet, one sheet is loaded per date, in order. */
  lemma {:induction false} AllStoredLoadsAll(saved: map<string, DailyProgressSheet>, weekId: string, dates: seq<string>)
    requires forall i :: 0 <= i < |dates| ==> SheetPath(weekId, dates[i]) in saved
    ensures |StoredSheets(saved, weekId, dates)| == |dates|
    ensures forall i :: 0 <= i < |dates| ==> StoredSheets(saved, weekId, dates)[i] == saved[SheetPath(weekId, dates[i])]
  {
    if dates != [] {
      AllStoredLoadsAll(saved, weekId, dates[..|dates| - 1]);
    }
  }

  // ==================== Task edits ====================

  /** What the child reports about a task: the three fields are overwritten,
      absent values included. */
  function Reported(t: ProgressTaskItem, completed: bool, achievedVariant: Option<string>, kidComment: Option<string>): (r: ProgressTaskItem)
    ensures r.completed == completed && r.achievedVariant == achievedVariant && r.kidComment == kidComment
    ensures r == t.(completed := r.completed, achievedVariant := r.achievedVariant, kidComment := r.kidComment)
  {
    t.(completed := completed, achievedVariant := achievedVariant, kidComment := kidComment)
  }

  /** What the approver overrides: only the supplied values are written. */
  function Overridden(t: ProgressTaskItem, overrideCompleted: Option<bool>, overrideVariant: Option<string>, comment: Option<string>): (r: ProgressTaskItem)
    ensures r.approverOverrideCompleted == if overrideCompleted.Some? then overrideCompleted else t.approverOverrideCompleted
    ensures r.approverOverrideVariant == if overrideVariant.Some? then overrideVariant else t.approverOverrideVariant
    ensures r.approverComment == if comment.Some? then comment else t.approverComment
    ensures r == t.(approverOverrideCompleted := r.approverOverrideCompleted,
                    approverOverrideVariant := r.approverOverrideVariant, approverComment := r.approverComment)
  {
    var t1 := if overrideCompleted.Some? then t.(approverOverrideCompleted := overrideCompleted) else t;
    var t2 := if overrideVariant.Some? then t1.(approverOverrideVariant := overrideVariant) else t1;
    if comment.Some? then t2.(approverComment := comment) else t2
  }

  /** The child's report and the approver's override write disjoint fields,
      so their order does not matter, and an approver's verdict on completion
      stands whatever the child reports afterwards. */
  lemma ReportAndOverrideCommute(t: ProgressTaskItem, completed: bool, achievedVariant: Option<string>, kidComment: Option<string>,
                                 overrideCompleted: Option<bool>, overrideVariant: Option<string>, comment: Option<string>)
    ensures Reported(Overridden(t, overrideCompleted, overrideVariant, comment), completed, achievedVariant, kidComment)
            == Overridden(Reported(t, completed, achievedVariant, kidComment), overrideCompleted, overrideVariant, comment)
    ensures overrideCompleted.Some? ==>
              Settlement.EffectiveCompleted(Reported(Overridden(t, overrideCompleted, overrideVariant, comment), completed, achievedVariant, kidComment))
              == overrideCompleted.value
  {
  }

  /** An override with nothing supplied keeps the task. */
  lemma OverrideNothing(t: ProgressTaskItem)
    ensures Overridden(t, None, None, None) == t
  {
  }

  /** The sheet with task `i` replaced; nothing else changes. */
  function WithTask(s: DailyProgressSheet, i: nat, t: ProgressTaskItem): (r: DailyProgressSheet)
    requires i < |s.tasks|
    ensures |r.tasks| == |s.tasks| && r.tasks[i] == t
    ensures forall j :: 0 <= j < |s.tasks| && j != i ==> r.tasks[j] == s.tasks[j]
    ensures r == s.(tasks := r.tasks)
  {
    s.(tasks := s.tasks[i := t])
  }

  // ==================== Approval totals ====================

  /** The sums of the final rewards stored in the first `n` tasks. */
  function StoredFinals(tasks: seq<ProgressTaskItem>, n: nat): GoldXp
    requires n <= |tasks|
  {
    if n == 0 then GoldXp(0, 0)
    else
      var before := StoredFinals(tasks, n - 1);
      GoldXp(before.gold + tasks[n - 1].finalGold, before.xp + tasks[n - 1].finalXp)
  }

  /** The totals `approveSheet` writes: the stored finals times the
      multiplier (one when absent), rounded down, plus the flat bonuses. */
  function ApprovedTotals(s: DailyProgressSheet): GoldXp
  {
    var sums := StoredFinals(s.tasks, |s.tasks|);
    var m := if s.bonusMultiplier.Some? then s.bonusMultiplier.value else 10;
    GoldXp((sums.gold * m) / 10 + Settlement.OrZero(s.bonusGold), (sums.xp * m) / 10 + Settlement.OrZero(s.bonusXp))
  }

  /** The approval applies the multiplier and bonuses as the settlement does,
      but to the stored finals. */
  lemma ApprovedTotalsAreBonused(s: DailyProgressSheet)
    ensures ApprovedTotals(s) == Settlement.WithBonuses(StoredFinals(s.tasks, |s.tasks|), s)
  {
  }

  /** Over tasks that a settlement priced, the stored finals are the
      settlement's sums; the approval adds no language combo to them. */
  lemma {:induction false} StoredFinalsOfSettled(catalog: seq<TaskDefinition>, tasks: seq<ProgressTaskItem>,
                                                 settled: seq<ProgressTaskItem>, n: nat)
    requires |settled| == |tasks| && n <= |tasks|
    requires forall i :: 0 <= i < |tasks| ==> settled[i] == Settlement.SettleTask(catalog, tasks[i])
    ensures StoredFinals(settled, n) == Settlement.FinalSums(catalog, tasks, n)
  {
    if n > 0 {
      StoredFinalsOfSettled(catalog, tasks, settled, n - 1);
    }
  }

  /** Approving a settled sheet pays the settlement's totals without the
      language combo. */
  lemma ApprovalOfSettledSheet(catalog: seq<TaskDefinition>, sheet: DailyProgressSheet, settled: DailyProgressSheet)
    requires |settled.tasks| == |sheet.tasks|
    requires forall i :: 0 <= i < |sheet.tasks| ==> settled.tasks[i] == Settlement.SettleTask(catalog, sheet.tasks[i])
    requires settled.bonusMultiplier == sheet.bonusMultiplier
    requires settled.bonusGold == sheet.bonusGold && settled.bonusXp == sheet.bonusXp
    ensures ApprovedTotals(settled) == Settlement.WithBonuses(Settlement.FinalSums(catalog, sheet.tasks, |sheet.tasks|), sheet)
  {
    StoredFinalsOfSettled(catalog, sheet.tasks, settled.tasks, |sheet.tasks|);
    ApprovedTotalsAreBonused(settled);
  }

  /** The summing loop of `approveSheet`. */
  method SumFinals(tasks: seq<ProgressTaskItem>) returns (taskGold: int, taskXp: int)
    ensures GoldXp(taskGold, taskXp) == StoredFinals(tasks, |tasks|)
  {
    taskGold, taskXp := 0, 0;
    for i := 0 to |tasks|
      invariant GoldXp(taskGold, taskXp) == StoredFinals(tasks, i)
    {
      taskGold := taskGold + tasks[i].finalGold;
      taskXp := taskXp + tasks[i].finalXp;
    }
  }

  /** The sheet as `approveSheet` leaves it. */
  function ApprovedSheet(s: DailyProgressSheet, reviewComment: Option<string>, now: string): (r: DailyProgressSheet)
    ensures r.status == Approved && r.settled
    ensures GoldXp(r.totalGold, r.totalXp) == ApprovedTotals(s)
    ensures r.tasks == s.tasks && r.bonusMultiplier == s.bonusMultiplier
    ensures r.bonusGold == s.bonusGold && r.bonusXp == s.bonusXp
  {
    var t := ApprovedTotals(s);
    s.(totalGold := t.gold, totalXp := t.xp, settled := true, status := Approved,
       reviewedAt := Some(now), reviewComment := reviewComment)
  }

  /** The approval reads only fields it does not write, so approving an
      approved sheet again computes the same totals. */
  lemma ReapprovalSameTotals(s: DailyProgressSheet, c1: Option<string>, n1: string)
    ensures ApprovedTotals(ApprovedSheet(s, c1, n1)) == ApprovedTotals(s)
  {
  }

  class ProgressStore {
    var currentSheet: Option<DailyProgressSheet>
    var weekSheets: seq<DailyProgressSheet>
    /** The storage: the sheet last written at each path. */
    var saved: map<string, DailyProgressSheet>
    /** The player store that approvals credit. */
    const players: PlayerStores.PlayerStore

    constructor (saved: map<string, DailyProgressSheet>, players: PlayerStores.PlayerStore)
      ensures currentSheet.None? && weekSheets == [] && this.saved == saved && this.players == players
    {
      currentSheet := None;
      weekSheets := [];
      this.saved := saved;
      this.players := players;
    }

    /** `loadSheet`: the stored sheet for the date, or none. */
    method LoadSheet(weekId: string, date: string)
      modifies this
      ensures currentSheet == if SheetPath(weekId, date) in saved then Some(saved[SheetPath(weekId, date)]) else None
      ensures weekSheets == old(weekSheets) && saved == old(saved)
    {
      var path := SheetPath(weekId, date);
      currentSheet := if path in saved then Some(saved[path]) else None;
    }

    /** `loadWeekSheets`: the stored sheets of the dates, missing ones skipped. */
    method LoadWeekSheets(weekId: string, dates: seq<string>)
      modifies this
      ensures weekSheets == StoredSheets(saved, weekId, dates)
      ensures currentSheet == old(currentSheet) && saved == old(saved)
    {
      var sheets: seq<DailyProgressSheet> := [];
      for i := 0 to |dates|
        invariant sheets == StoredSheets(saved, weekId, dates[..i])
      {
        assert dates[..i + 1][..i] == dates[..i];
        var path := SheetPath(weekId, dates[i]);
        if path in saved {
          sheets := sheets + [saved[path]];
        }
      }
      assert dates[..|dates|] == dates;
      weekSheets := sheets;
    }

    /** `saveSheet`: the sheet is written at its path. */
    method SaveSheet(sheet: DailyProgressSheet)
      modifies this
      ensures saved == old(saved)[SheetPath(sheet.weekId, sheet.date) := sheet]
      ensures currentSheet == old(currentSheet) && weekSheets == old(weekSheets)
    {
      saved := saved[SheetPath(sheet.weekId, sheet.date) := sheet];
    }

    /** `updateTaskProgress`: nothing without a sheet or for an index that
        names no task; otherwise that task's report overwritten. */
    method UpdateTaskProgress(taskIndex: int, completed: bool, achievedVariant: Option<string>, kidComment: Option<string>)
      modifies this
      ensures old(currentSheet).None? || !(0 <= taskIndex < |old(currentSheet).value.tasks|) ==>
                currentSheet == old(currentSheet)
      ensures old(currentSheet).Some? && 0 <= taskIndex < |old(currentSheet).value.tasks| ==>
                var s := old(currentSheet).value;
                currentSheet == Some(WithTask(s, taskIndex, Reported(s.tasks[taskIndex], completed, achievedVariant, kidComment)))
      ensures weekSheets == old(weekSheets) && saved == old(saved)
    {
      if currentSheet.None? {
        return;
      }
      var s := currentSheet.value;
      if !(0 <= taskIndex < |s.tasks|) {
        return;
      }
      var task := s.tasks[taskIndex];
      task := task.(completed := completed, achievedVariant := achievedVariant, kidComment := kidComment);
      currentSheet := Some(s.(tasks := s.tasks[taskIndex := task]));
    }

    /** `submitSheet`: the sheet marked submitted at `now`, and saved. */
    method SubmitSheet(now: string)
      modifies this
      ensures old(currentSheet).None? ==> currentSheet == old(currentSheet) && saved == old(saved)
      ensures old(currentSheet).Some? ==>
                var s := old(currentSheet).value.(status := Submitted, submittedAt := Some(now));
                currentSheet == Some(s) && saved == old(saved)[SheetPath(s.weekId, s.date) := s]
      ensures weekSheets == old(weekSheets)
    {
      if currentSheet.None? {
        return;
      }
      currentSheet := Some(currentSheet.value.(status := Submitted, submittedAt := Some(now)));
      SaveSheet(currentSheet.value);
    }

    /** `overrideTask`: nothing without a sheet or for an index that names no
        task; otherwise the supplied override values written into that task. */
    method OverrideTask(taskIndex: int, overrideCompleted: Option<bool>, overrideVariant: Option<string>, comment: Option<string>)
      modifies this
      ensures old(currentSheet).None? || !(0 <= taskIndex < |old(currentSheet).value.tasks|) ==>
                currentSheet == old(currentSheet)
      ensures old(currentSheet).Some? && 0 <= taskIndex < |old(currentSheet).value.tasks| ==>
                var s := old(currentSheet).value;
                currentSheet == Some(WithTask(s, taskIndex, Overridden(s.tasks[taskIndex], overrideCompleted, overrideVariant, comment)))
      ensures weekSheets == old(weekSheets) && saved == old(saved)
    {
      if currentSheet.None? {
        return;
      }
      var s := currentSheet.value;
      if !(0 <= taskIndex < |s.tasks|) {
        return;
      }
      var task := s.tasks[taskIndex];
      if overrideCompleted.Some? {
        task := task.(approverOverrideCompleted := overrideCompleted);
      }
      if overrideVariant.Some? {
        task := task.(approverOverrideVariant := overrideVariant);
      }
      if comment.Some? {
        task := task.(approverComment := comment);
      }
      currentSheet := Some(s.(tasks := s.tasks[taskIndex := task]));
    }

    /** `approveSheet`: the stored finals totalled with the multiplier and
        bonuses, the sheet settled, approved and saved, and the player (as
        stored, or the default one) credited with exactly those totals and
        saved. There is no check of the sheet's status. */
    method ApproveSheet(reviewComment: Option<string>, now: string, today: string)
      modifies this, players
      ensures old(currentSheet).None? ==>
                currentSheet == old(currentSheet) && saved == old(saved) &&
                players.player == old(players.player) && players.stored == old(players.stored)
      ensures old(currentSheet).Some? ==>
                var s := ApprovedSheet(old(currentSheet).value, reviewComment, now);
                var before := if old(players.stored).Some? then old(players.stored).value else PlayerStores.DefaultPlayer(today);
                var credited := PlayerStores.Credited(before, s.totalGold, s.totalXp);
                currentSheet == Some(s) && saved == old(saved)[SheetPath(s.weekId, s.date) := s] &&
                players.player == Some(credited) && players.stored == Some(credited)
      ensures weekSheets == old(weekSheets)
    {
      if currentSheet.None? {
        return;
      }
      var s := currentSheet.value;
      var taskGold, taskXp := SumFinals(s.tasks);
      var multiplier := if s.bonusMultiplier.Some? then s.bonusMultiplier.value else 10;
      var totalGold := (taskGold * multiplier) / 10;
      var totalXp := (taskXp * multiplier) / 10;
      totalGold := totalGold + Settlement.OrZero(s.bonusGold);
      totalXp := totalXp + Settlement.OrZero(s.bonusXp);
      s := s.(totalGold := totalGold, totalXp := totalXp, settled := true, status := Approved,
              reviewedAt := Some(now), reviewComment := reviewComment);
      currentSheet := Some(s);
      SaveSheet(s);
      players.Load(today);
      players.AddRewards(totalGold, totalXp);
      players.Save();
    }

    /** `approveSheet` behind a guard: a sheet already approved is left
        alone and credits nothing; any other sheet is approved, saved and
        credited exactly as `ApproveSheet` does. */
    method ApproveSheetOnce(reviewComment: Option<string>, now: string, today: string)
      modifies this, players
      ensures old(currentSheet).None? || old(currentSheet).value.status == Approved ==>
                currentSheet == old(currentSheet) && saved == old(saved) &&
                players.player == old(players.player) && players.stored == old(players.stored)
      ensures old(currentSheet).Some? && old(currentSheet).value.status != Approved ==>
                var s := ApprovedSheet(old(currentSheet).value, reviewComment, now);
                var before := if old(players.stored).Some? then old(players.stored).value else PlayerStores.DefaultPlayer(today);
                var credited := PlayerStores.Credited(before, s.totalGold, s.totalXp);
                currentSheet == Some(s) && saved == old(saved)[SheetPath(s.weekId, s.date) := s] &&
                players.player == Some(credited) && players.stored == Some(credited)
      ensures weekSheets == old(weekSheets)
    {
      if currentSheet.Some? && currentSheet.value.status == Approved {
        return;
      }
      ApproveSheet(reviewComment, now, today);
    }

    /** `rejectSheet`: the sheet marked rejected and saved; totals and the
        settled flag are not touched. */
    method RejectSheet(reviewComment: Option<string>, now: string)
      modifies this
      ensures old(currentSheet).None? ==> currentSheet == old(currentSheet) && saved == old(saved)
      ensures old(currentSheet).Some? ==>
                var s := old(currentSheet).value.(status := Rejected, reviewedAt := Some(now), reviewComment := reviewComment);
                currentSheet == Some(s) && saved == old(saved)[SheetPath(s.weekId, s.date) := s]
      ensures weekSheets == old(weekSheets)
    {
      if currentSheet.None? {
        return;
      }
      currentSheet := Some(currentSheet.value.(status := Rejected, reviewedAt := Some(now), reviewComment := reviewComment));
      SaveSheet(currentSheet.value);
    }
  }

  /** Approving the same sheet twice, as written, credits the stored player
      twice with the same totals. */
  method ApproveTwice(store: ProgressStore, c1: Option<string>, c2: Option<string>, now: string, today: string)
    requires store.currentSheet.Some?
    modifies store, store.players
    ensures var t := ApprovedTotals(old(store.currentSheet).value);
            var before := if old(store.players.stored).Some? then old(store.players.stored).value else PlayerStores.DefaultPlayer(today);
            store.players.stored == Some(PlayerStores.Credited(before, 2 * t.gold, 2 * t.xp))
  {
    var s0 := store.currentSheet.value;
    store.ApproveSheet(c1, now, today);
    ReapprovalSameTotals(s0, c1, now);
    store.ApproveSheet(c2, now, today);
  }

  /** With the guard, the second approval credits nothing. */
  method ApproveOnceTwice(store: ProgressStore, c1: Option<string>, c2: Option<string>, now: string, today: string)
    requires store.currentSheet.Some? && store.currentSheet.value.status != Approved
    modifies store, store.players
    ensures var t := ApprovedTotals(old(store.currentSheet).value);
            var before := if old(store.players.stored).Some? then old(store.players.stored).value else PlayerStores.DefaultPlayer(today);
            store.players.stored == Some(PlayerStores.Credited(before, t.gold, t.xp))
  {
    store.ApproveSheetOnce(c1, now, today);
    store.ApproveSheetOnce(c2, now, today);
  }
}
