/** The custom task catalog (src/stores/task-definitions.store.ts): a list
    of custom tasks kept beside the built-in ones, edited in place and
    written to local storage after every change, plus the generator of
    fresh task ids. Local storage's `custom_tasks` entry is the field
    `storedTasks` (absent when `None`). */
module TaskDefinitionsStores {
  import opened Types
  import opened TaskCatalog
  import Seqs
  import Strings
  import TaskLookup

  // ==================== Fresh ids ====================

  /** Some task of the list has the id. */
  predicate IdTaken(all: seq<TaskDefinition>, id: string)
  {
    exists i :: 0 <= i < |all| && all[i].id == id
  }

  /** `baseName.toLowerCase().replace(/\s+/g, '-')`. */
  function NormalisedBase(baseName: string): string
  {
    Strings.DashWhitespaceRuns(Strings.ToLower(baseName))
  }

  /** The ids the generator tries in turn: the base, then `base-1`, `base-2`, ... */
  function Candidate(base: string, k: nat): string
  {
    if k == 0 then base else base + "-" + Strings.NatToString(k)
  }

  /** Different attempts give different ids. */
  lemma CandidateInjective(base: string, j: nat, k: nat)
    requires Candidate(base, j) == Candidate(base, k)
    ensures j == k
  {
    if j > 0 && k > 0 {
      var sj, sk := Strings.NatToString(j), Strings.NatToString(k);
      assert sj == Candidate(base, j)[|base| + 1..];
      assert sk == Candidate(base, k)[|base| + 1..];
      Strings.NatToStringInjective(j, k);
    }
  }

  /** The ids of a list. */
  function Ids(all: seq<TaskDefinition>): set<string>
  {
    set i | 0 <= i < |all| :: all[i].id
  }

  lemma {:induction false} IdsBound(all: seq<TaskDefinition>)
    ensures |Ids(all)| <= |all|
  {
    if all != [] {
      var init := all[..|all| - 1];
      IdsBound(init);
      assert Ids(all) == Ids(init) + {all[|all| - 1].id} by {
        forall x | x in Ids(all) ensures x in Ids(init) + {all[|all| - 1].id}
        {
          var i :| 0 <= i < |all| && all[i].id == x;
          if i < |all| - 1 {
            assert init[i].id == x;
          }
        }
        forall x | x in Ids(init) ensures x in Ids(all)
        {
          var i :| 0 <= i < |init| && init[i].id == x;
          assert all[i].id == x;
        }
      }
    }
  }

  /** The first `n` attempts. */
  function Tried(base: string, n: nat): set<string>
  {
    set k | 0 <= k < n :: Candidate(base, k)
  }

  lemma {:induction false} TriedSize(base: string, n: nat)
    ensures |Tried(base, n)| == n
  {
    if n > 0 {
      TriedSize(base, n - 1);
      assert Tried(base, n) == Tried(base, n - 1) + {Candidate(base, n - 1)};
      if Candidate(base, n - 1) in Tried(base, n - 1) {
        var k :| 0 <= k < n - 1 && Candidate(base, k) == Candidate(base, n - 1);
        CandidateInjective(base, k, n - 1);
      }
    }
  }

  /** Only as many attempts as there are tasks can all be taken. */
  lemma TakenAttemptsBound(all: seq<TaskDefinition>, base: string, n: nat)
    requires forall k :: 0 <= k < n ==> IdTaken(all, Candidate(base, k))
    ensures n <= |all|
  {
    assert Tried(base, n) <= Ids(all) by {
      forall x | x in Tried(base, n) ensures x in Ids(all)
      {
        var k :| 0 <= k < n && Candidate(base, k) == x;
        assert IdTaken(all, Candidate(base, k));
      }
    }
    TriedSize(base, n);
    IdsBound(all);
    var extra := Ids(all) - Tried(base, n);
    assert Ids(all) == Tried(base, n) + extra;
  }

  /** `generateTaskId` over a task list: the first attempt whose id no task
      has; every earlier attempt was taken. The loop ends because only
      `|all|` attempts can be taken. */
  method GenerateIdIn(all: seq<TaskDefinition>, baseName: string) returns (id: string)
    ensures !IdTaken(all, id)
    ensures exists k: nat :: id == Candidate(NormalisedBase(baseName), k) &&
                             forall j :: 0 <= j < k ==> IdTaken(all, Candidate(NormalisedBase(baseName), j))
  {
    var base := NormalisedBase(baseName);
    id := base;
    var counter := 1;
    while IdTaken(all, id)
      invariant 1 <= counter && id == Candidate(base, counter - 1)
      invariant forall j :: 0 <= j < counter - 1 ==> IdTaken(all, Candidate(base, j))
      decreases |all| + 1 - counter
    {
      TakenAttemptsBound(all, base, counter);
      id := base + "-" + Strings.NatToString(counter);
      counter := counter + 1;
    }
  }

  /** An id is taken in two lists put together exactly when one of them has it. */
  lemma IdTakenAppend(a: seq<TaskDefinition>, b: seq<TaskDefinition>, id: string)
    ensures IdTaken(a + b, id) <==> IdTaken(a, id) || IdTaken(b, id)
  {
    if IdTaken(a + b, id) {
      var i :| 0 <= i < |a + b| && (a + b)[i].id == id;
      if i >= |a| {
        assert b[i - |a|].id == id;
      }
    }
    if IdTaken(b, id) {
      var i :| 0 <= i < |b| && b[i].id == id;
      assert (a + b)[|a| + i].id == id;
    }
    if IdTaken(a, id) {
      var i :| 0 <= i < |a| && a[i].id == id;
      assert (a + b)[i].id == id;
    }
  }

  /** No two tasks of the list share an id. */
  predicate UniqueIds(all: seq<TaskDefinition>)
  {
    forall i, j :: 0 <= i < j < |all| ==> all[i].id != all[j].id
  }

  /** Adding a task under a generated (so untaken) id keeps the ids unique. */
  lemma FreshIdKeepsUnique(all: seq<TaskDefinition>, t: TaskDefinition)
    requires UniqueIds(all) && !IdTaken(all, t.id)
    ensures UniqueIds(all + [t])
  {
    forall i, j | 0 <= i < j < |all + [t]|
      ensures (all + [t])[i].id != (all + [t])[j].id
    {
      if j == |all| {
        assert (all + [t])[i] == all[i];
      } else {
        assert (all + [t])[i] == all[i] && (all + [t])[j] == all[j];
      }
    }
  }

  // ==================== Edits ====================

  /** The fields of a `Partial<TaskDefinition>` that are present. */
  datatype TaskChanges = TaskChanges(
    id: Option<string>, category: Option<TaskCategory>, name: Option<string>, description: Option<string>,
    gold: Option<int>, xp: Option<int>, variants: Option<Option<seq<TaskVariant>>>)

  function Pick<T>(change: Option<T>, current: T): T
  {
    if change.Some? then change.value else current
  }

  /** `{ ...task, ...updates }`: present fields win, the rest are kept. */
  function MergeTask(t: TaskDefinition, u: TaskChanges): (r: TaskDefinition)
    ensures u.id.None? ==> r.id == t.id
    ensures u.id.Some? ==> r.id == u.id.value
    ensures u.category.Some? ==> r.category == u.category.value
    ensures u.category.None? ==> r.category == t.category
    ensures u.name.Some? ==> r.name == u.name.value
    ensures u.name.None? ==> r.name == t.name
    ensures u.description.Some? ==> r.description == u.description.value
    ensures u.description.None? ==> r.description == t.description
    ensures u.gold.Some? ==> r.gold == u.gold.value
    ensures u.gold.None? ==> r.gold == t.gold
    ensures u.xp.Some? ==> r.xp == u.xp.value
    ensures u.xp.None? ==> r.xp == t.xp
    ensures u.variants.Some? ==> r.variants == u.variants.value
    ensures u.variants.None? ==> r.variants == t.variants
    ensures u == TaskChanges(None, None, None, None, None, None, None) ==> r == t
  {
    TaskDefinition(Pick(u.id, t.id), Pick(u.category, t.category), Pick(u.name, t.name),
                   Pick(u.description, t.description), Pick(u.gold, t.gold), Pick(u.xp, t.xp),
                   Pick(u.variants, t.variants))
  }

  /** The position of the first custom task with the id, or -1. */
  function IndexOfId(tasks: seq<TaskDefinition>, taskId: string): (k: int)
    ensures -1 <= k < |tasks|
    ensures k >= 0 ==> tasks[k].id == taskId && forall j :: 0 <= j < k ==> tasks[j].id != taskId
    ensures k < 0 <==> !IdTaken(tasks, taskId)
  {
    Seqs.FirstIndex(tasks, (t: TaskDefinition) => t.id == taskId)
  }

  class TaskDefinitionsStore {
    var customTasks: seq<TaskDefinition>
    var loaded: bool
    /** Local storage's copy of the custom tasks. */
    var storedTasks: Option<seq<TaskDefinition>>

    constructor (storedTasks: Option<seq<TaskDefinition>>)
      ensures customTasks == [] && !loaded && this.storedTasks == storedTasks
    {
      customTasks := [];
      loaded := false;
      this.storedTasks := storedTasks;
    }

    /** `getAllTasks`: the built-in tasks followed by the custom ones. */
    function GetAllTasks(): (r: seq<TaskDefinition>)
      reads this
      ensures r == TaskLookup.AllTaskDefinitions(customTasks)
      ensures r[|TASK_DEFINITIONS|..] == customTasks
    {
      TASK_DEFINITIONS + customTasks
    }

    /** `taskIdExists`: some built-in or custom task has the id. */
    function TaskIdExists(taskId: string): (b: bool)
      reads this
      ensures b <==> IdTaken(TASK_DEFINITIONS, taskId) || IdTaken(customTasks, taskId)
    {
      IdTakenAppend(TASK_DEFINITIONS, customTasks, taskId);
      IdTaken(GetAllTasks(), taskId)
    }

    /** `generateTaskId`: an id no built-in or custom task has. */
    method GenerateTaskId(baseName: string) returns (id: string)
      ensures !TaskIdExists(id)
      ensures exists k: nat :: id == Candidate(NormalisedBase(baseName), k) &&
                               forall j :: 0 <= j < k ==> TaskIdExists(Candidate(NormalisedBase(baseName), j))
    {
      id := GenerateIdIn(GetAllTasks(), baseName);
    }

    /** `save`: the custom tasks written to local storage. */
    method Save()
      modifies this
      ensures storedTasks == Some(customTasks)
      ensures customTasks == old(customTasks) && loaded == old(loaded)
    {
      storedTasks := Some(customTasks);
    }

    /** `addTask`: appended, whether or not its id is taken, and saved. */
    method AddTask(task: TaskDefinition)
      modifies this
      ensures customTasks == old(customTasks) + [task]
      ensures storedTasks == Some(customTasks) && loaded == old(loaded)
    {
      customTasks := customTasks + [task];
      Save();
    }

    /** `updateTask`: the first custom task with the id merged with the
        updates and saved; nothing for an id no custom task has. */
    method UpdateTask(taskId: string, updates: TaskChanges)
      modifies this
      ensures IndexOfId(old(customTasks), taskId) < 0 ==>
                customTasks == old(customTasks) && storedTasks == old(storedTasks)
      ensures IndexOfId(old(customTasks), taskId) >= 0 ==>
                var k := IndexOfId(old(customTasks), taskId);
                customTasks == old(customTasks)[k := MergeTask(old(customTasks)[k], updates)] &&
                storedTasks == Some(customTasks)
      ensures loaded == old(loaded)
    {
      var index := IndexOfId(customTasks, taskId);
      if index != -1 {
        customTasks := customTasks[index := MergeTask(customTasks[index], updates)];
        Save();
      }
    }

    /** `deleteTask`: the first custom task with the id removed and the
        list saved; nothing for an id no custom task has. */
    method DeleteTask(taskId: string)
      modifies this
      ensures IndexOfId(old(customTasks), taskId) < 0 ==>
                customTasks == old(customTasks) && storedTasks == old(storedTasks)
      ensures IndexOfId(old(customTasks), taskId) >= 0 ==>
                var k := IndexOfId(old(customTasks), taskId);
                customTasks == old(customTasks)[..k] + old(customTasks)[k + 1..] &&
                storedTasks == Some(customTasks)
      ensures loaded == old(loaded)
    {
      var index := IndexOfId(customTasks, taskId);
      if index != -1 {
        customTasks := Seqs.SpliceOut(customTasks, index);
        Save();
      }
    }

    /** `load`: the stored list, if any, read once; later calls do nothing. */
    method Load()
      modifies this
      ensures loaded
      ensures old(loaded) ==> customTasks == old(customTasks)
      ensures !old(loaded) ==> customTasks == if storedTasks.Some? then storedTasks.value else old(customTasks)
      ensures storedTasks == old(storedTasks)
    {
      if loaded {
        return;
      }
      if storedTasks.Some? {
        customTasks := storedTasks.value;
      }
      loaded := true;
    }
  }

  /** Updating never changes the built-in part of the combined catalog. */
  lemma UpdateKeepsBuiltins(custom: seq<TaskDefinition>, k: nat, t: TaskDefinition)
    requires k < |custom|
    ensures TaskLookup.AllTaskDefinitions(custom[k := t])[..|TASK_DEFINITIONS|] == TASK_DEFINITIONS
  {
  }

  /** Deleting an id removes one occurrence: a later custom task with the
      same id stays. */
  lemma DeleteRemovesOne(custom: seq<TaskDefinition>, taskId: string)
    requires IndexOfId(custom, taskId) >= 0
    ensures var k := IndexOfId(custom, taskId);
            |custom[..k] + custom[k + 1..]| == |custom| - 1 &&
            (IdTaken(custom[..k] + custom[k + 1..], taskId) <==> exists j :: k < j < |custom| && custom[j].id == taskId)
  {
    var k := IndexOfId(custom, taskId);
    var rest := custom[..k] + custom[k + 1..];
    assert |rest| == |custom| - 1;
    assert forall i :: 0 <= i < k ==> rest[i] == custom[i];
    assert forall i :: k <= i < |rest| ==> rest[i] == custom[i + 1];
    if exists j :: k < j < |custom| && custom[j].id == taskId {
      var j :| k < j < |custom| && custom[j].id == taskId;
      assert rest[j - 1].id == taskId;
    }
    if IdTaken(rest, taskId) {
      var i :| 0 <= i < |rest| && rest[i].id == taskId;
      assert i >= k;
      assert custom[i + 1].id == taskId;
    }
  }
}
