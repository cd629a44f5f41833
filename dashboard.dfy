/** The dashboard: its three stat cards and the project list it keeps, which grows by one
    on create and loses the deleted id on delete. */
module Dashboard {
  import opened Model
  import opened Progress
  import opened AchievementService
  import opened ProjectService

  /** The "Tasks Completed" card: per-project complete counts summed left to right. */
  function TasksCompletedCard(ps: seq<Project>): (n: nat)
    ensures n <= |AllTasks(ps)|
  {
    if ps == [] then 0
    else
      AllTasksAppend(ps[..|ps| - 1], [ps[|ps| - 1]]);
      assert ps[..|ps| - 1] + [ps[|ps| - 1]] == ps;
      assert [ps[|ps| - 1]][1..] == [];
      TasksCompletedCard(ps[..|ps| - 1]) + CountStatus(ps[|ps| - 1].tasks, Complete)
  }

  /** The three figures at the top of the dashboard. */
  datatype StatCards = StatCards(activeProjects: nat, tasksCompleted: nat, levelsCompleted: nat)

  /** The cards for `ps`. "Active Projects" shows the length of the list; "Levels
      Completed" is the same per-project fold of complete levels the engine uses. */
  function Cards(ps: seq<Project>): (c: StatCards)
    ensures c.activeProjects == |ps|
    ensures c.tasksCompleted <= |AllTasks(ps)|
    ensures c.levelsCompleted <= 6 * |ps|
  {
    StatCards(|ps|, TasksCompletedCard(ps), SumCompletedLevels(ps))
  }

  /** Summing per-project counts and counting over the flattened list agree. */
  lemma {:induction false} TasksCardIsFlatCount(ps: seq<Project>)
    ensures TasksCompletedCard(ps) == CountStatus(AllTasks(ps), Complete)
  {
    if ps != [] {
      var init, last := ps[..|ps| - 1], ps[|ps| - 1];
      TasksCardIsFlatCount(init);
      AllTasksAppend(init, [last]);
      assert init + [last] == ps;
      assert [last][1..] == [];
      assert AllTasks([last]) == last.tasks;
      CountStatusAppend(AllTasks(init), last.tasks, Complete);
    }
  }

  /** Every project is counted as active exactly when each has a task not yet complete. */
  lemma {:induction false} ActiveCountIsLength(ps: seq<Project>)
    ensures CountActiveProjects(ps) == |ps| <==> forall i :: 0 <= i < |ps| ==> HasIncomplete(ps[i].tasks)
  {
    if ps != [] {
      var init := ps[..|ps| - 1];
      ActiveCountIsLength(init);
      if forall i :: 0 <= i < |ps| ==> HasIncomplete(ps[i].tasks) {
        forall i | 0 <= i < |init| ensures HasIncomplete(init[i].tasks) {
          assert init[i] == ps[i];
        }
      }
      if CountActiveProjects(ps) == |ps| {
        forall i | 0 <= i < |ps| ensures HasIncomplete(ps[i].tasks) {
          if i < |ps| - 1 { assert ps[i] == init[i]; }
        }
      }
    }
  }

  /** The cards against the engine's stats for the same projects: tasks and levels agree;
      "Active Projects" is `projects_created`, and it equals `active_projects` only when
      every project still has an incomplete task. */
  lemma CardsMatchStats(ps: seq<Project>, unlockedCount: nat, daily: nat, streak: nat)
    ensures var c := Cards(ps);
            var s := ComputeStats(ps, unlockedCount, daily, streak);
            c.tasksCompleted == s.tasksCompleted &&
            c.levelsCompleted == s.levelsCompleted &&
            c.activeProjects == s.projectsCreated &&
            (c.activeProjects == s.activeProjects <==>
               forall i :: 0 <= i < |ps| ==> HasIncomplete(ps[i].tasks))
  {
    TasksCardIsFlatCount(ps);
    ActiveCountIsLength(ps);
  }

  /** `[...projects, newProject]`. */
  function AddProject(ps: seq<Project>, p: Project): (r: seq<Project>)
    ensures |r| == |ps| + 1
    ensures r[..|ps|] == ps && r[|ps|] == p
  {
    ps + [p]
  }

  /** Adding a project with tasks, none of them complete, raises `projects_created` and
      `active_projects` by one and leaves the other project counts as they were. */
  lemma StatsAfterAdd(ps: seq<Project>, p: Project, unlockedCount: nat, daily: nat, streak: nat)
    requires CountStatus(p.tasks, Complete) == 0 && CompletedLevels(p.tasks) == 0
    requires HasIncomplete(p.tasks) && !ProjectComplete(p.tasks)
    ensures var before := ComputeStats(ps, unlockedCount, daily, streak);
            var after := ComputeStats(AddProject(ps, p), unlockedCount, daily, streak);
            after.projectsCreated == before.projectsCreated + 1 &&
            after.activeProjects == before.activeProjects + 1 &&
            after.projectsCompleted == before.projectsCompleted &&
            after.tasksCompleted == before.tasksCompleted &&
            after.levelsCompleted == before.levelsCompleted
  {
    var r := AddProject(ps, p);
    assert r[..|r| - 1] == ps;
    AllTasksAppend(ps, [p]);
    assert [p][1..] == [];
    assert AllTasks([p]) == p.tasks;
    CountStatusAppend(AllTasks(ps), p.tasks, Complete);
  }

  /** Creating a project (its tasks freshly generated) raises `projects_created` and
      `active_projects` by one and leaves the task, level and completed-project counts
      as they were. */
  lemma StatsAfterCreate(ps: seq<Project>, id: int, name: string, description: string,
                         createdAt: string, tags: string, unlockedCount: nat, daily: nat, streak: nat)
    ensures var p := Project(id, name, description, createdAt, tags, GenerateTasksForProject(id));
            var before := ComputeStats(ps, unlockedCount, daily, streak);
            var after := ComputeStats(AddProject(ps, p), unlockedCount, daily, streak);
            after.projectsCreated == before.projectsCreated + 1 &&
            after.activeProjects == before.activeProjects + 1 &&
            after.projectsCompleted == before.projectsCompleted &&
            after.tasksCompleted == before.tasksCompleted &&
            after.levelsCompleted == before.levelsCompleted
  {
    var p := Project(id, name, description, createdAt, tags, GenerateTasksForProject(id));
    FreshTasksProgress(id);
    StatsAfterAdd(ps, p, unlockedCount, daily, streak);
  }

  /** `projects.filter(p => p.Id !== projectId)`. */
  function RemoveProject(ps: seq<Project>, projectId: int): (r: seq<Project>)
    ensures |r| <= |ps|
    ensures forall p :: p in r ==> p in ps && p.id != projectId
    ensures forall p :: p in ps && p.id != projectId ==> p in r
  {
    if ps == [] then []
    else if ps[0].id != projectId then [ps[0]] + RemoveProject(ps[1..], projectId)
    else RemoveProject(ps[1..], projectId)
  }

  /** Removal works piecewise, so the remaining projects keep their relative order. */
  lemma {:induction false} RemoveKeepsOrder(a: seq<Project>, b: seq<Project>, projectId: int)
    ensures RemoveProject(a + b, projectId) == RemoveProject(a, projectId) + RemoveProject(b, projectId)
  {
    if a == [] {
      assert a + b == b;
    } else {
      assert (a + b)[1..] == a[1..] + b;
      RemoveKeepsOrder(a[1..], b, projectId);
    }
  }

  /** Deleting an id no project has leaves the list as it was. */
  lemma {:induction false} RemoveAbsent(ps: seq<Project>, projectId: int)
    requires forall i :: 0 <= i < |ps| ==> ps[i].id != projectId
    ensures RemoveProject(ps, projectId) == ps
  {
    if ps != [] {
      RemoveAbsent(ps[1..], projectId);
    }
  }

  /** Deleting a project just created restores the list, when its id was new. */
  lemma RemoveUndoesAdd(ps: seq<Project>, p: Project)
    requires forall i :: 0 <= i < |ps| ==> ps[i].id != p.id
    ensures RemoveProject(AddProject(ps, p), p.id) == ps
  {
    RemoveKeepsOrder(ps, [p], p.id);
    RemoveAbsent(ps, p.id);
    assert [p][1..] == [];
  }
}
