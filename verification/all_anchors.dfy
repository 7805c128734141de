/** The all-anchors bonus (src/engine/all-anchors-bonus.ts): an academic
    task done, a language task done, and a reflection written. */
module AllAnchors {
  import opened Types
  import opened TaskCatalog
  import Seqs
  import Strings

  const ALL_ANCHORS_BONUS_GOLD := 2
  const ALL_ANCHORS_BONUS_XP := 10

  /** A task the child marked completed whose catalog entry has the category.
      The catalog's ids are distinct (TaskCatalog.CatalogIdsUnique), so the
      source's id-to-definition map finds the same entry as a search. */
  predicate DoneIn(catalog: seq<TaskDefinition>, category: TaskCategory, t: ProgressTaskItem)
  {
    var def := FindTaskIn(catalog, t.taskId);
    def.Some? && def.value.category == category && t.completed
  }

  /** A reflection whose content is not empty after trimming. */
  predicate HasReflection(sheet: DailyProgressSheet)
  {
    sheet.reflection.Some? && Strings.Trim(sheet.reflection.value.content) != ""
  }

  /** The three anchors over a catalog. */
  predicate AnchorsIn(catalog: seq<TaskDefinition>, sheet: DailyProgressSheet)
  {
    Seqs.Any(sheet.tasks, t => DoneIn(catalog, Academic, t)) &&
    Seqs.Any(sheet.tasks, t => DoneIn(catalog, Language, t)) &&
    HasReflection(sheet)
  }

  /** `checkAllAnchorsCompleted`, with the built-in catalog. */
  function CheckAllAnchorsCompleted(sheet: DailyProgressSheet): bool
  {
    AnchorsIn(TASK_DEFINITIONS, sheet)
  }

  /** The anchors hold exactly when an academic task and a language task
      were done and the reflection is not blank. */
  lemma AnchorsIff(catalog: seq<TaskDefinition>, sheet: DailyProgressSheet)
    ensures AnchorsIn(catalog, sheet) <==>
              (exists i :: 0 <= i < |sheet.tasks| && DoneIn(catalog, Academic, sheet.tasks[i])) &&
              (exists i :: 0 <= i < |sheet.tasks| && DoneIn(catalog, Language, sheet.tasks[i])) &&
              sheet.reflection.Some? && !Strings.IsBlank(sheet.reflection.value.content)
  {
    if sheet.reflection.Some? {
      Strings.TrimEmptyIffBlank(sheet.reflection.value.content);
    }
  }

  /** Only the child's completed flag counts: the approver's overrides
      of every task may be anything without changing the answer. */
  lemma IgnoresOverrides(catalog: seq<TaskDefinition>, sheet: DailyProgressSheet, tasks: seq<ProgressTaskItem>)
    requires |tasks| == |sheet.tasks|
    requires forall i :: 0 <= i < |tasks| ==>
               tasks[i].taskId == sheet.tasks[i].taskId && tasks[i].completed == sheet.tasks[i].completed
    ensures AnchorsIn(catalog, sheet.(tasks := tasks)) == AnchorsIn(catalog, sheet)
  {
    var pa, pl := t => DoneIn(catalog, Academic, t), t => DoneIn(catalog, Language, t);
    Seqs.AnyPointwise(tasks, pa, sheet.tasks, pa);
    Seqs.AnyPointwise(tasks, pl, sheet.tasks, pl);
  }

  /** Tasks whose ids are not in the catalog count toward neither anchor:
      adding them changes nothing. */
  lemma UnknownTasksCountForNothing(catalog: seq<TaskDefinition>, sheet: DailyProgressSheet, extra: seq<ProgressTaskItem>)
    requires forall i :: 0 <= i < |extra| ==> FindTaskIn(catalog, extra[i].taskId).None?
    ensures AnchorsIn(catalog, sheet.(tasks := sheet.tasks + extra)) == AnchorsIn(catalog, sheet)
  {
    var pa, pl := t => DoneIn(catalog, Academic, t), t => DoneIn(catalog, Language, t);
    Seqs.AnyAppendNone(sheet.tasks, extra, pa);
    Seqs.AnyAppendNone(sheet.tasks, extra, pl);
  }

  /** A missing reflection, or one of white space only, fails the third anchor. */
  lemma BlankReflectionFails(catalog: seq<TaskDefinition>, sheet: DailyProgressSheet)
    requires sheet.reflection.None? || Strings.IsBlank(sheet.reflection.value.content)
    ensures !AnchorsIn(catalog, sheet)
  {
    if sheet.reflection.Some? {
      Strings.TrimEmptyIffBlank(sheet.reflection.value.content);
    }
  }
}
