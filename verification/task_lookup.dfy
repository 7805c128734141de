/** Lookups over the combined catalog: the built-in tasks followed by the
    custom tasks of the task-definitions store (src/utils/tasks.ts). The
    store's `customTasks` list is passed in as a parameter. */
module TaskLookup {
  import opened Types
  import opened TaskCatalog
  import Seqs

  /** `[...TASK_DEFINITIONS, ...customTasks]`. */
  function AllTaskDefinitions(custom: seq<TaskDefinition>): (r: seq<TaskDefinition>)
    ensures |r| == |TASK_DEFINITIONS| + |custom|
    ensures r[..|TASK_DEFINITIONS|] == TASK_DEFINITIONS && r[|TASK_DEFINITIONS|..] == custom
  {
    TASK_DEFINITIONS + custom
  }

  function GetTasksByCategory(custom: seq<TaskDefinition>, category: TaskCategory): seq<TaskDefinition>
  {
    TasksInCategory(AllTaskDefinitions(custom), category)
  }

  function GetTaskById(custom: seq<TaskDefinition>, id: string): Option<TaskDefinition>
  {
    FindTaskIn(AllTaskDefinitions(custom), id)
  }

  function GetTaskReward(custom: seq<TaskDefinition>, taskId: string, variant: Option<string>): GoldXp
  {
    RewardIn(AllTaskDefinitions(custom), taskId, variant)
  }

  /** `find` over two concatenated lists answers from the first list when it can. */
  lemma FindTaskInAppend(a: seq<TaskDefinition>, b: seq<TaskDefinition>, id: string)
    ensures FindTaskIn(a + b, id) == if FindTaskIn(a, id).Some? then FindTaskIn(a, id) else FindTaskIn(b, id)
  {
    Seqs.FirstIndexAppend(a, b, (t: TaskDefinition) => t.id == id);
    var k := Seqs.FirstIndex(a + b, (t: TaskDefinition) => t.id == id);
    if k >= |a| {
      assert (a + b)[k] == b[k - |a|];
    } else if k >= 0 {
      assert (a + b)[k] == a[k];
    }
  }

  /** A built-in task shadows a custom task with the same id; a custom task is
      found only when no built-in task has its id. */
  lemma BuiltinShadowsCustom(custom: seq<TaskDefinition>, id: string)
    ensures TaskCatalog.GetTaskById(id).Some? ==> GetTaskById(custom, id) == TaskCatalog.GetTaskById(id)
    ensures TaskCatalog.GetTaskById(id).None? ==> GetTaskById(custom, id) == FindTaskIn(custom, id)
  {
    FindTaskInAppend(TASK_DEFINITIONS, custom, id);
  }

  /** The combined reward follows the built-in reward for built-in ids and the
      custom task's own chain otherwise. */
  lemma RewardFollowsLookup(custom: seq<TaskDefinition>, taskId: string, variant: Option<string>)
    ensures TaskCatalog.GetTaskById(taskId).Some? ==>
              GetTaskReward(custom, taskId, variant) == TaskCatalog.GetTaskReward(taskId, variant)
    ensures TaskCatalog.GetTaskById(taskId).None? ==>
              GetTaskReward(custom, taskId, variant) == RewardIn(custom, taskId, variant)
  {
    FindTaskInAppend(TASK_DEFINITIONS, custom, taskId);
  }

  /** The category list is the built-in list followed by the custom one, in order. */
  lemma CategoryListOrder(custom: seq<TaskDefinition>, category: TaskCategory)
    ensures GetTasksByCategory(custom, category) ==
            TaskCatalog.GetTasksByCategory(category) + TasksInCategory(custom, category)
  {
    TasksInCategoryAppend(TASK_DEFINITIONS, custom, category);
  }
}
