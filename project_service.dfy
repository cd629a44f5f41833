/** The project service's task logic: the fixed 30-task template every project is given,
    and the in-place update of one task of a fetched project. */
module ProjectService {
  import opened Model
  import opened Progress

  /** A template entry: id, name and level only. */
  datatype TemplateTask = TemplateTask(id: int, name: string, level: int)

  /** The checklist every project starts with: 30 tasks over 6 levels. */
  const DefaultTasks: seq<TemplateTask> := [
    TemplateTask(1, "Niche Research", 1),
    TemplateTask(2, "Content Coverage", 1),
    TemplateTask(3, "Main Article Writing (100% Human Written)", 1),
    TemplateTask(4, "Other Articles Writing (100% Human Written)", 1),
    TemplateTask(5, "Pantheon WordPress Installation", 2),
    TemplateTask(6, "Discourage Search Engine", 2),
    TemplateTask(7, "Delete Existing Posts, Pages, Themes and Plugins", 2),
    TemplateTask(8, "Install Necessary Plugins and Themes", 2),
    TemplateTask(9, "Website Design - (Main Article + Header and Footer)", 3),
    TemplateTask(10, "Other Articles Designing", 3),
    TemplateTask(11, "Interlinking + External Linking", 3),
    TemplateTask(12, "Download Link Setup and Placement", 3),
    TemplateTask(13, "Legal Pages Creation", 3),
    TemplateTask(14, "Domain Purchase", 4),
    TemplateTask(15, "Hosting Purchase", 4),
    TemplateTask(16, "Gmail Create on Domain Name", 4),
    TemplateTask(17, "Cloudflare Setup", 4),
    TemplateTask(18, "WordPress Installation on Main Domain", 4),
    TemplateTask(19, "Migration Pantheon To Hosting & Uncheck Discourage Option ASAP", 4),
    TemplateTask(20, "RankMath SEO Settings", 5),
    TemplateTask(21, "Schema Settings", 5),
    TemplateTask(22, "Speed Optimization LiteSpeed + Perfmatters", 5),
    TemplateTask(23, "Enable Auto Update For All Plugins and Theme", 5),
    TemplateTask(24, "Serp inn Setup for Ranking Track", 5),
    TemplateTask(25, "Social Media Accounts Setup", 6),
    TemplateTask(26, "Social Sharing of All Posts", 6),
    TemplateTask(27, "Foundation Backlinks", 6),
    TemplateTask(28, "Nandla Strategy", 6),
    TemplateTask(29, "Competitor Analysis + Reverse Engineering", 6),
    TemplateTask(30, "Niche Edits + Guest Post Links", 6)
  ]

  /** The level the template gives to task `id`: ids 1-4, 5-8, 9-13, 14-19, 20-24 and
      25-30 make up levels 1 to 6. */
  function TemplateLevelOf(id: int): int {
    if id <= 4 then 1 else if id <= 8 then 2 else if id <= 13 then 3
    else if id <= 19 then 4 else if id <= 24 then 5 else 6
  }

  /** The template has 30 entries with ids 1..30 in order (so distinct), each at the level
      `TemplateLevelOf` gives, which lies in 1..6 and never decreases along the list. */
  lemma DefaultTasksShape()
    ensures |DefaultTasks| == 30
    ensures forall i :: 0 <= i < 30 ==>
              DefaultTasks[i].id == i + 1 && DefaultTasks[i].level == TemplateLevelOf(i + 1) &&
              1 <= DefaultTasks[i].level <= 6
    ensures forall i, j :: 0 <= i < j < 30 ==>
              DefaultTasks[i].id != DefaultTasks[j].id && DefaultTasks[i].level <= DefaultTasks[j].level
  {
  }

  /** Number of template entries at `level`. */
  function CountTemplateLevel(tmpl: seq<TemplateTask>, level: int): (n: nat)
    ensures n <= |tmpl|
  {
    if tmpl == [] then 0
    else (if tmpl[0].level == level then 1 else 0) + CountTemplateLevel(tmpl[1..], level)
  }

  /** When the entries at `level` are exactly those at positions lo..hi-1, there are
      hi - lo of them. */
  lemma {:induction false} CountLevelBlock(tmpl: seq<TemplateTask>, level: int, lo: nat, hi: nat)
    requires lo <= hi <= |tmpl|
    requires forall i :: 0 <= i < |tmpl| ==> (tmpl[i].level == level <==> lo <= i < hi)
    ensures CountTemplateLevel(tmpl, level) == hi - lo
  {
    if tmpl != [] {
      var lo', hi' := if lo > 0 then lo - 1 else 0, if hi > 0 then hi - 1 else 0;
      forall i | 0 <= i < |tmpl[1..]|
        ensures tmpl[1..][i].level == level <==> lo' <= i < hi'
      {
        assert tmpl[1..][i] == tmpl[i + 1];
      }
      CountLevelBlock(tmpl[1..], level, lo', hi');
    }
  }

  /** Number of template tasks per level: levels 1..6 hold 4, 4, 5, 6, 5 and 6. */
  const LevelSizes: seq<nat> := [4, 4, 5, 6, 5, 6]

  /** Any 30-entry list laid out level by level as the template is has `LevelSizes`
      entries per level. */
  lemma LayoutLevelCount(tmpl: seq<TemplateTask>, level: int)
    requires |tmpl| == 30 && forall i :: 0 <= i < 30 ==> tmpl[i].level == TemplateLevelOf(i + 1)
    requires 1 <= level <= 6
    ensures CountTemplateLevel(tmpl, level) == LevelSizes[level - 1]
  {
    if level == 1 { CountLevelBlock(tmpl, 1, 0, 4); }
    else if level == 2 { CountLevelBlock(tmpl, 2, 4, 8); }
    else if level == 3 { CountLevelBlock(tmpl, 3, 8, 13); }
    else if level == 4 { CountLevelBlock(tmpl, 4, 13, 19); }
    else if level == 5 { CountLevelBlock(tmpl, 5, 19, 24); }
    else { CountLevelBlock(tmpl, 6, 24, 30); }
  }

  /** The template's per-level counts are `LevelSizes`. */
  lemma DefaultTaskLevelCount(level: int)
    requires 1 <= level <= 6
    ensures CountTemplateLevel(DefaultTasks, level) == LevelSizes[level - 1]
  {
    DefaultTasksShape();
    LayoutLevelCount(DefaultTasks, level);
  }

  /** A template entry as a fresh task: pending, unassigned, no due date, no notes. */
  function FreshTask(t: TemplateTask): Task {
    Task(t.id, t.name, t.level, "", Pending, None, "")
  }

  /** The template turned into tasks, in template order. */
  function Instantiate(tmpl: seq<TemplateTask>): (ts: seq<Task>)
    ensures |ts| == |tmpl|
    ensures forall i :: 0 <= i < |ts| ==>
              ts[i].id == tmpl[i].id && ts[i].name == tmpl[i].name && ts[i].level == tmpl[i].level &&
              ts[i].status == Pending && ts[i].assignedTo == "" && ts[i].dueDate == None && ts[i].notes == ""
  {
    if tmpl == [] then [] else [FreshTask(tmpl[0])] + Instantiate(tmpl[1..])
  }

  /** The tasks of a project. The project id is not used: every project gets the same list. */
  function GenerateTasksForProject(projectId: int): (ts: seq<Task>)
    ensures |ts| == 30
  {
    DefaultTasksShape();
    Instantiate(DefaultTasks)
  }

  /** The generated list does not depend on the project. */
  lemma GeneratedTasksIndependentOfProject(p: int, q: int)
    ensures GenerateTasksForProject(p) == GenerateTasksForProject(q)
  {
  }

  /** Instantiating keeps the per-level counts of the template. */
  lemma {:induction false} InstantiateLevelCount(tmpl: seq<TemplateTask>, level: int)
    ensures |TasksAtLevel(Instantiate(tmpl), level)| == CountTemplateLevel(tmpl, level)
  {
    if tmpl != [] {
      assert Instantiate(tmpl)[1..] == Instantiate(tmpl[1..]);
      InstantiateLevelCount(tmpl[1..], level);
    }
  }

  /** Instantiating a non-empty template gives only pending tasks, so nothing complete,
      no level complete and a project that is active but not complete. */
  lemma InstantiateProgress(tmpl: seq<TemplateTask>)
    requires |tmpl| > 0
    ensures var ts := Instantiate(tmpl);
            CountStatus(ts, Pending) == |tmpl| && CountStatus(ts, Complete) == 0 &&
            CompletedLevels(ts) == 0 && !ProjectComplete(ts) && HasIncomplete(ts)
  {
    var ts := Instantiate(tmpl);
    assert ts[0].status == Pending;
    AllPendingCount(ts);
    NoLevelCompleteWhenNothingComplete(ts, LevelNumbers);
  }

  /** A freshly generated task list: 30 pending tasks, nothing complete, no level complete,
      and the project active but not complete. */
  lemma FreshTasksProgress(projectId: int)
    ensures var ts := GenerateTasksForProject(projectId);
            CountStatus(ts, Pending) == 30 && CountStatus(ts, Complete) == 0 &&
            CompletedLevels(ts) == 0 && !ProjectComplete(ts) && HasIncomplete(ts)
  {
    DefaultTasksShape();
    InstantiateProgress(DefaultTasks);
  }

  /** In a freshly generated task list, levels 1..6 hold 4, 4, 5, 6, 5 and 6 tasks. */
  lemma FreshLevelSize(projectId: int, level: int)
    requires 1 <= level <= 6
    ensures |TasksAtLevel(GenerateTasksForProject(projectId), level)| == LevelSizes[level - 1]
  {
    DefaultTaskLevelCount(level);
    InstantiateLevelCount(DefaultTasks, level);
  }

  /** In a list where every task is pending, the pending count is the length. */
  lemma {:induction false} AllPendingCount(ts: seq<Task>)
    requires forall i :: 0 <= i < |ts| ==> ts[i].status == Pending
    ensures CountStatus(ts, Pending) == |ts|
  {
    if ts != [] {
      AllPendingCount(ts[1..]);
    }
  }

  /** When no task is complete, no level is complete. */
  lemma {:induction false} NoLevelCompleteWhenNothingComplete(ts: seq<Task>, levels: seq<int>)
    requires CountStatus(ts, Complete) == 0
    ensures CountCompleteLevels(ts, levels) == 0
  {
    if levels != [] {
      NoLevelCompleteWhenNothingComplete(ts, levels[1..]);
      var lt := TasksAtLevel(ts, levels[0]);
      if |lt| > 0 {
        assert lt[0] in ts;
      }
    }
  }

  // ---------------------------------------------------------------------------
  // Updating one task

  /** The keys an update object carries; an absent key is None. */
  datatype TaskUpdate = TaskUpdate(
    id: Option<int>,
    name: Option<string>,
    level: Option<int>,
    assignedTo: Option<string>,
    status: Option<Status>,
    dueDate: Option<Option<string>>,
    notes: Option<string>)

  const NoChanges: TaskUpdate := TaskUpdate(None, None, None, None, None, None, None)

  /** `{ status }`. */
  function StatusUpdate(s: Status): TaskUpdate {
    NoChanges.(status := Some(s))
  }

  function Pick<T>(o: Option<T>, current: T): T {
    match o
    case Some(v) => v
    case None => current
  }

  /** `{ ...task, ...updates }`: keys present in the update win, the rest keep their value. */
  function Merge(t: Task, u: TaskUpdate): Task {
    Task(Pick(u.id, t.id), Pick(u.name, t.name), Pick(u.level, t.level),
         Pick(u.assignedTo, t.assignedTo), Pick(u.status, t.status),
         Pick(u.dueDate, t.dueDate), Pick(u.notes, t.notes))
  }

  /** Merging an empty update changes nothing; merging twice is merging once; a status-only
      update changes the status and nothing else. */
  lemma MergeLaws(t: Task, u: TaskUpdate, s: Status)
    ensures Merge(t, NoChanges) == t
    ensures Merge(Merge(t, u), u) == Merge(t, u)
    ensures Merge(t, StatusUpdate(s)) == t.(status := s)
  {
  }

  /** Index of the first task with `taskId`, or -1 (`tasks.findIndex(t => t.id === taskId)`). */
  function FindTaskIndex(ts: seq<Task>, taskId: int): (k: int)
    ensures -1 <= k < |ts|
    ensures k == -1 <==> forall i :: 0 <= i < |ts| ==> ts[i].id != taskId
    ensures k >= 0 ==> ts[k].id == taskId && forall i :: 0 <= i < k ==> ts[i].id != taskId
  {
    if ts == [] then -1
    else if ts[0].id == taskId then 0
    else
      var k := FindTaskIndex(ts[1..], taskId);
      if k == -1 then -1 else k + 1
  }

  datatype UpdateError = TaskNotFound

  /** `k` is the first position holding `taskId`. */
  predicate FirstMatch(ts: seq<Task>, taskId: int, k: int) {
    0 <= k < |ts| && ts[k].id == taskId && forall i :: 0 <= i < k ==> ts[i].id != taskId
  }

  /** The task list after `updateTask`, or the "Task not found" error. */
  function UpdatedTasks(ts: seq<Task>, taskId: int, u: TaskUpdate): (r: Result<seq<Task>, UpdateError>)
    ensures r.Failure? <==> forall i :: 0 <= i < |ts| ==> ts[i].id != taskId
    ensures r.Failure? ==> r.error == TaskNotFound
    ensures r.Success? ==> |r.value| == |ts|
  {
    var k := FindTaskIndex(ts, taskId);
    if k == -1 then Failure(TaskNotFound) else Success(ts[k := Merge(ts[k], u)])
  }

  /** Only the first task with the id is replaced, by the merge of it with the update;
      every other task stays as it was. */
  lemma UpdateReplacesFirstMatch(ts: seq<Task>, taskId: int, u: TaskUpdate, k: int)
    requires FirstMatch(ts, taskId, k)
    ensures UpdatedTasks(ts, taskId, u).Success?
    ensures var r := UpdatedTasks(ts, taskId, u).value;
            r[k] == Merge(ts[k], u) && forall i :: 0 <= i < |ts| && i != k ==> r[i] == ts[i]
  {
  }

  /** A status update changes only the status of the one task it hits. */
  lemma StatusUpdateChangesOnlyStatus(ts: seq<Task>, taskId: int, s: Status)
    ensures var r := UpdatedTasks(ts, taskId, StatusUpdate(s));
            r.Success? ==> forall i :: 0 <= i < |ts| ==>
              r.value[i] == ts[i] || (ts[i].id == taskId && r.value[i] == ts[i].(status := s))
  {
  }

  /** `updateTask` after the fetch: find the task by id, then replace that slot of the
      project's task array with the merge of the task and the update. */
  method UpdateTask(tasks: array<Task>, taskId: int, updates: TaskUpdate) returns (outcome: Outcome<UpdateError>)
    modifies tasks
    ensures outcome.Fail? <==> forall i :: 0 <= i < tasks.Length ==> old(tasks[i]).id != taskId
    ensures outcome.Fail? ==> outcome.error == TaskNotFound && tasks[..] == old(tasks[..])
    ensures outcome.Pass? ==> UpdatedTasks(old(tasks[..]), taskId, updates) == Success(tasks[..])
  {
    var k := FindTaskIndex(tasks[..], taskId);
    if k == -1 {
      return Fail(TaskNotFound);
    }
    tasks[k] := Merge(tasks[k], updates);
    return Pass;
  }

  /** `updateTaskStatus`: `updateTask` with `{ status }`. */
  method UpdateTaskStatus(tasks: array<Task>, taskId: int, status: Status) returns (outcome: Outcome<UpdateError>)
    modifies tasks
    ensures outcome.Fail? <==> forall i :: 0 <= i < tasks.Length ==> old(tasks[i]).id != taskId
    ensures outcome.Fail? ==> tasks[..] == old(tasks[..])
    ensures outcome.Pass? ==> UpdatedTasks(old(tasks[..]), taskId, StatusUpdate(status)) == Success(tasks[..])
    ensures outcome.Pass? ==> forall i :: 0 <= i < tasks.Length ==>
              tasks[i] == old(tasks[i]) || (old(tasks[i]).id == taskId && tasks[i] == old(tasks[i]).(status := status))
  {
    outcome := UpdateTask(tasks, taskId, StatusUpdate(status));
    StatusUpdateChangesOnlyStatus(old(tasks[..]), taskId, status);
  }
}
