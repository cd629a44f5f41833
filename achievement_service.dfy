/** The achievement engine: the fixed rule catalog, the stat snapshot computed from the
    projects, the requirement test, the append-only list of unlocked achievements, the
    unlock pass and the progress report. */
module AchievementService {
  import opened Model
  import opened Progress

  datatype Tier = Bronze | Silver | Gold | Diamond

  /** The stat a rule is measured against. `UnknownType` stands for any other string. */
  datatype RequirementType =
    | ProjectsCreated
    | TasksCompleted
    | LevelsCompleted
    | ProjectsCompleted
    | ActiveProjects
    | TasksCompletedDaily
    | ConsecutiveDays
    | AllAchievements
    | LevelCompletionTime
    | UnknownType(name: string)

  /** `{ type, count }`, or `{ type, days }` for the elapsed-time rule; either number may be absent. */
  datatype Requirement = Requirement(kind: RequirementType, count: Option<nat>, days: Option<nat>)

  datatype Achievement = Achievement(
    id: int,
    name: string,
    description: string,
    icon: string,
    variant: Tier,
    category: string,
    requirement: Requirement)

  /** The twelve rules, in the order they are checked and reported. */
  const Catalog: seq<Achievement> := [
    Achievement(1, "First Steps", "Create your first project", "Rocket", Bronze, "milestone",
                Requirement(ProjectsCreated, Some(1), None)),
    Achievement(2, "Task Master", "Complete 10 tasks", "CheckCircle", Bronze, "tasks",
                Requirement(TasksCompleted, Some(10), None)),
    Achievement(3, "Level Crusher", "Complete your first level", "Trophy", Silver, "levels",
                Requirement(LevelsCompleted, Some(1), None)),
    Achievement(4, "Project Pioneer", "Complete your first project", "Crown", Gold, "milestone",
                Requirement(ProjectsCompleted, Some(1), None)),
    Achievement(5, "Speed Demon", "Complete 5 tasks in one day", "Zap", Silver, "speed",
                Requirement(TasksCompletedDaily, Some(5), None)),
    Achievement(6, "Multi-Tasker", "Manage 3 active projects", "Layers", Silver, "milestone",
                Requirement(ActiveProjects, Some(3), None)),
    Achievement(7, "Consistency King", "Complete tasks for 7 consecutive days", "Calendar", Gold, "consistency",
                Requirement(ConsecutiveDays, Some(7), None)),
    Achievement(8, "Level Legend", "Complete 10 levels", "Star", Gold, "levels",
                Requirement(LevelsCompleted, Some(10), None)),
    Achievement(9, "Task Tsunami", "Complete 100 tasks", "Target", Diamond, "tasks",
                Requirement(TasksCompleted, Some(100), None)),
    Achievement(10, "Project Perfectionist", "Complete 5 projects", "Award", Diamond, "milestone",
                Requirement(ProjectsCompleted, Some(5), None)),
    Achievement(11, "Lightning Fast", "Complete a level in under 3 days", "Flame", Gold, "speed",
                Requirement(LevelCompletionTime, None, Some(3))),
    Achievement(12, "Ultimate Champion", "Earn all other achievements", "Diamond", Diamond, "meta",
                Requirement(AllAchievements, Some(11), None))
  ]

  /** Rule ids strictly increase along the list. */
  predicate IdsIncreasing(rules: seq<Achievement>) {
    forall i, j :: 0 <= i < j < |rules| ==> rules[i].id < rules[j].id
  }

  /** The catalog holds twelve rules with ids 1..12, in order. */
  lemma CatalogShape()
    ensures |Catalog| == 12
    ensures forall i :: 0 <= i < 12 ==> Catalog[i].id == i + 1
    ensures IdsIncreasing(Catalog)
  {
  }

  // ---------------------------------------------------------------------------
  // Stat snapshot

  /** The eight numeric stats a rule can be measured against. */
  datatype Stats = Stats(
    projectsCreated: nat,
    tasksCompleted: nat,
    levelsCompleted: nat,
    projectsCompleted: nat,
    activeProjects: nat,
    tasksCompletedDaily: nat,
    consecutiveDays: nat,
    allAchievements: nat)

  /** `stats[type]`: a number for the eight stat kinds, `undefined` (None) otherwise. */
  function StatValue(stats: Stats, kind: RequirementType): (v: Option<nat>)
    ensures v.None? <==> kind.LevelCompletionTime? || kind.UnknownType?
  {
    match kind
    case ProjectsCreated => Some(stats.projectsCreated)
    case TasksCompleted => Some(stats.tasksCompleted)
    case LevelsCompleted => Some(stats.levelsCompleted)
    case ProjectsCompleted => Some(stats.projectsCompleted)
    case ActiveProjects => Some(stats.activeProjects)
    case TasksCompletedDaily => Some(stats.tasksCompletedDaily)
    case ConsecutiveDays => Some(stats.consecutiveDays)
    case AllAchievements => Some(stats.allAchievements)
    case LevelCompletionTime => None
    case UnknownType(_) => None
  }

  /** The tasks of all projects, concatenated in order (`projects.flatMap(p => p.tasks)`). */
  function AllTasks(ps: seq<Project>): (ts: seq<Task>)
    ensures forall i, t :: 0 <= i < |ps| && t in ps[i].tasks ==> t in ts
    ensures forall t :: t in ts ==> exists i :: 0 <= i < |ps| && t in ps[i].tasks
  {
    if ps == [] then []
    else
      var rest := AllTasks(ps[1..]);
      assert forall i :: 1 <= i < |ps| ==> ps[i] == ps[1..][i - 1];
      ps[0].tasks + rest
  }

  lemma {:induction false} AllTasksAppend(a: seq<Project>, b: seq<Project>)
    ensures AllTasks(a + b) == AllTasks(a) + AllTasks(b)
  {
    if a == [] {
      assert a + b == b;
    } else {
      assert (a + b)[1..] == a[1..] + b;
      AllTasksAppend(a[1..], b);
    }
  }

  /** Number of projects that are complete. */
  function CountCompleteProjects(ps: seq<Project>): (n: nat)
    ensures n <= |ps|
  {
    if ps == [] then 0
    else CountCompleteProjects(ps[..|ps| - 1]) + (if ProjectComplete(ps[|ps| - 1].tasks) then 1 else 0)
  }

  /** Number of projects with at least one task that is not complete. */
  function CountActiveProjects(ps: seq<Project>): (n: nat)
    ensures n <= |ps|
  {
    if ps == [] then 0
    else CountActiveProjects(ps[..|ps| - 1]) + (if HasIncomplete(ps[|ps| - 1].tasks) then 1 else 0)
  }

  /** Number of projects without tasks. */
  function CountEmptyProjects(ps: seq<Project>): (n: nat)
    ensures n <= |ps|
  {
    if ps == [] then 0
    else CountEmptyProjects(ps[..|ps| - 1]) + (if ps[|ps| - 1].tasks == [] then 1 else 0)
  }

  /** Every project is complete, active or empty, and exactly one of the three. */
  lemma {:induction false} ProjectsPartition(ps: seq<Project>)
    ensures CountCompleteProjects(ps) + CountActiveProjects(ps) + CountEmptyProjects(ps) == |ps|
  {
    if ps != [] {
      CompleteOrIncomplete(ps[|ps| - 1].tasks);
      ProjectsPartition(ps[..|ps| - 1]);
    }
  }

  /** No project is empty exactly when the empty count is zero. */
  lemma {:induction false} NoEmptyProjects(ps: seq<Project>)
    ensures CountEmptyProjects(ps) == 0 <==> forall i :: 0 <= i < |ps| ==> |ps[i].tasks| > 0
  {
    if ps != [] {
      var init := ps[..|ps| - 1];
      NoEmptyProjects(init);
      if CountEmptyProjects(ps) == 0 {
        forall i | 0 <= i < |ps| ensures |ps[i].tasks| > 0 {
          if i < |ps| - 1 { assert ps[i] == init[i]; }
        }
      }
      if forall i :: 0 <= i < |ps| ==> |ps[i].tasks| > 0 {
        forall i | 0 <= i < |init| ensures |init[i].tasks| > 0 {
          assert init[i] == ps[i];
        }
      }
    }
  }

  /** Sum over projects of the number of complete levels (a left fold, as `reduce` is). */
  function SumCompletedLevels(ps: seq<Project>): (n: nat)
    ensures n <= 6 * |ps|
  {
    if ps == [] then 0
    else SumCompletedLevels(ps[..|ps| - 1]) + CompletedLevels(ps[|ps| - 1].tasks)
  }

  /** The stat snapshot of `projects`. `unlockedCount` is the length of the unlocked list
      when the snapshot is taken; `todaysCompleted` and `consecutiveDays` stand for the two
      placeholder values the service draws at random. */
  function ComputeStats(projects: seq<Project>, unlockedCount: nat, todaysCompleted: nat,
                        consecutiveDays: nat): (s: Stats)
    ensures s.projectsCreated == |projects|
    ensures s.tasksCompleted <= |AllTasks(projects)|
    ensures s.projectsCompleted + s.activeProjects <= s.projectsCreated
    ensures (forall i :: 0 <= i < |projects| ==> |projects[i].tasks| > 0)
            ==> s.projectsCompleted + s.activeProjects == s.projectsCreated
    ensures s.levelsCompleted <= 6 * s.projectsCreated
    ensures s.allAchievements == unlockedCount
  {
    ProjectsPartition(projects);
    NoEmptyProjects(projects);
    Stats(
      |projects|,
      CountStatus(AllTasks(projects), Complete),
      SumCompletedLevels(projects),
      CountCompleteProjects(projects),
      CountActiveProjects(projects),
      todaysCompleted,
      consecutiveDays,
      unlockedCount)
  }

  // ---------------------------------------------------------------------------
  // Requirement test

  /** Whether `req` is met by `stats`. `levelTimeDraw` stands for the random pass/fail the
      service substitutes for the elapsed-time rule. */
  function CheckRequirement(req: Requirement, stats: Stats, levelTimeDraw: bool): (met: bool)
    ensures req.kind.UnknownType? ==> !met
    ensures req.kind == LevelCompletionTime ==> met == levelTimeDraw
    ensures StatValue(stats, req.kind).Some? ==>
              (met <==> req.count.Some? && StatValue(stats, req.kind).value >= req.count.value)
  {
    match req.kind
    case LevelCompletionTime => levelTimeDraw
    case UnknownType(_) => false
    case _ => req.count.Some? && StatValue(stats, req.kind).value >= req.count.value
  }

  /** Pointwise order on snapshots. */
  predicate StatsLe(a: Stats, b: Stats) {
    a.projectsCreated <= b.projectsCreated && a.tasksCompleted <= b.tasksCompleted &&
    a.levelsCompleted <= b.levelsCompleted && a.projectsCompleted <= b.projectsCompleted &&
    a.activeProjects <= b.activeProjects && a.tasksCompletedDaily <= b.tasksCompletedDaily &&
    a.consecutiveDays <= b.consecutiveDays && a.allAchievements <= b.allAchievements
  }

  /** Thresholds are monotone: a requirement met by a snapshot is met by any larger one. */
  lemma RequirementMonotone(req: Requirement, a: Stats, b: Stats, levelTimeDraw: bool)
    requires StatsLe(a, b)
    ensures CheckRequirement(req, a, levelTimeDraw) ==> CheckRequirement(req, b, levelTimeDraw)
  {
  }

  /** What the first three catalog rules ask of the snapshot. */
  lemma CatalogThresholdsFirst(s: Stats, draw: bool)
    ensures CheckRequirement(Catalog[0].requirement, s, draw) <==> s.projectsCreated >= 1
    ensures CheckRequirement(Catalog[1].requirement, s, draw) <==> s.tasksCompleted >= 10
    ensures CheckRequirement(Catalog[2].requirement, s, draw) <==> s.levelsCompleted >= 1
  {
    assert Catalog[0].requirement == Requirement(ProjectsCreated, Some(1), None);
    assert Catalog[1].requirement == Requirement(TasksCompleted, Some(10), None);
    assert Catalog[2].requirement == Requirement(LevelsCompleted, Some(1), None);
  }

  /** What catalog rules 4..6 ask of the snapshot. */
  lemma CatalogThresholdsSecond(s: Stats, draw: bool)
    ensures CheckRequirement(Catalog[3].requirement, s, draw) <==> s.projectsCompleted >= 1
    ensures CheckRequirement(Catalog[4].requirement, s, draw) <==> s.tasksCompletedDaily >= 5
    ensures CheckRequirement(Catalog[5].requirement, s, draw) <==> s.activeProjects >= 3
  {
    assert Catalog[3].requirement == Requirement(ProjectsCompleted, Some(1), None);
    assert Catalog[4].requirement == Requirement(TasksCompletedDaily, Some(5), None);
    assert Catalog[5].requirement == Requirement(ActiveProjects, Some(3), None);
  }

  /** What the last six catalog rules ask of the snapshot. */
  lemma CatalogThresholdsLast(s: Stats, draw: bool)
    ensures CheckRequirement(Catalog[6].requirement, s, draw) <==> s.consecutiveDays >= 7
    ensures CheckRequirement(Catalog[7].requirement, s, draw) <==> s.levelsCompleted >= 10
    ensures CheckRequirement(Catalog[8].requirement, s, draw) <==> s.tasksCompleted >= 100
    ensures CheckRequirement(Catalog[9].requirement, s, draw) <==> s.projectsCompleted >= 5
    ensures CheckRequirement(Catalog[10].requirement, s, draw) <==> draw
    ensures CheckRequirement(Catalog[11].requirement, s, draw) <==> s.allAchievements >= 11
  {
    assert Catalog[6].requirement == Requirement(ConsecutiveDays, Some(7), None);
    assert Catalog[7].requirement == Requirement(LevelsCompleted, Some(10), None);
    assert Catalog[8].requirement == Requirement(TasksCompleted, Some(100), None);
    assert Catalog[9].requirement == Requirement(ProjectsCompleted, Some(5), None);
    assert Catalog[10].requirement == Requirement(LevelCompletionTime, None, Some(3));
    assert Catalog[11].requirement == Requirement(AllAchievements, Some(11), None);
  }

  // ---------------------------------------------------------------------------
  // Unlocked achievements

  /** A persisted unlock record. */
  datatype Unlocked = Unlocked(achievementId: int, earnedAt: string)

  /** Whether some record carries `id` (`userAchievements.some(...)`). */
  function IsEarned(ua: seq<Unlocked>, id: int): (b: bool)
    ensures b <==> exists i :: 0 <= i < |ua| && ua[i].achievementId == id
  {
    if ua == [] then false
    else ua[0].achievementId == id || IsEarned(ua[1..], id)
  }

  /** No achievement id is recorded twice. */
  predicate NoDuplicateIds(ua: seq<Unlocked>) {
    forall i, j :: 0 <= i < j < |ua| ==> ua[i].achievementId != ua[j].achievementId
  }

  /** `unlockAchievement`: append a record unless the id is already earned. */
  function Unlock(ua: seq<Unlocked>, id: int, earnedAt: string): (r: seq<Unlocked>)
    ensures IsEarned(r, id)
    ensures IsEarned(ua, id) ==> r == ua
    ensures !IsEarned(ua, id) ==> r == ua + [Unlocked(id, earnedAt)]
    ensures forall x :: IsEarned(ua, x) ==> IsEarned(r, x)
    ensures NoDuplicateIds(ua) ==> NoDuplicateIds(r)
  {
    if IsEarned(ua, id) then ua
    else
      var r := ua + [Unlocked(id, earnedAt)];
      assert r[|ua|].achievementId == id;
      assert forall i :: 0 <= i < |ua| ==> r[i] == ua[i];
      r
  }

  /** After an unlock, exactly the ids earned before and the unlocked id are earned. */
  lemma UnlockEarnsExactly(ua: seq<Unlocked>, id: int, earnedAt: string, x: int)
    ensures IsEarned(Unlock(ua, id, earnedAt), x) <==> IsEarned(ua, x) || x == id
  {
    var r := Unlock(ua, id, earnedAt);
    if IsEarned(r, x) && !IsEarned(ua, x) {
      var i :| 0 <= i < |r| && r[i].achievementId == x;
      assert i == |ua|;
    }
  }

  /** The records an unlock pass appends for `rules`, in order. */
  function Records(rules: seq<Achievement>, earnedAt: string): (r: seq<Unlocked>)
    ensures |r| == |rules|
    ensures forall i :: 0 <= i < |r| ==> r[i] == Unlocked(rules[i].id, earnedAt)
  {
    if rules == [] then [] else [Unlocked(rules[0].id, earnedAt)] + Records(rules[1..], earnedAt)
  }

  /** What one unlock pass returns and the unlocked list it leaves behind. */
  datatype PassResult = PassResult(newly: seq<Achievement>, unlocked: seq<Unlocked>)

  /** The loop of `checkAchievements` over `rules`, against one snapshot taken before it:
      a rule already earned is skipped; a rule whose requirement is met is unlocked and
      returned. */
  function UnlockPass(rules: seq<Achievement>, ua: seq<Unlocked>, stats: Stats,
                      levelTimeDraw: bool, earnedAt: string): (r: PassResult)
    ensures |r.newly| <= |rules|
  {
    if rules == [] then PassResult([], ua)
    else if IsEarned(ua, rules[0].id) then
      UnlockPass(rules[1..], ua, stats, levelTimeDraw, earnedAt)
    else if CheckRequirement(rules[0].requirement, stats, levelTimeDraw) then
      var rest := UnlockPass(rules[1..], Unlock(ua, rules[0].id, earnedAt), stats, levelTimeDraw, earnedAt);
      PassResult([rules[0]] + rest.newly, rest.unlocked)
    else
      UnlockPass(rules[1..], ua, stats, levelTimeDraw, earnedAt)
  }

  /** One record followed by the records of the rest is the records of the whole list. */
  lemma RecordsCons(ua: seq<Unlocked>, a: Achievement, rest: seq<Achievement>, at: string)
    ensures (ua + [Unlocked(a.id, at)]) + Records(rest, at) == ua + Records([a] + rest, at)
  {
    assert ([a] + rest)[1..] == rest;
  }

  /** The pass only appends: one record per returned rule, in the order returned. */
  lemma {:induction false} PassAppends(rules: seq<Achievement>, ua: seq<Unlocked>, stats: Stats,
                                       draw: bool, at: string)
    ensures var r := UnlockPass(rules, ua, stats, draw, at);
            r.unlocked == ua + Records(r.newly, at)
  {
    if rules == [] {
    } else if IsEarned(ua, rules[0].id) {
      PassAppends(rules[1..], ua, stats, draw, at);
    } else if CheckRequirement(rules[0].requirement, stats, draw) {
      var ua' := Unlock(ua, rules[0].id, at);
      PassAppends(rules[1..], ua', stats, draw, at);
      var rest := UnlockPass(rules[1..], ua', stats, draw, at);
      RecordsCons(ua, rules[0], rest.newly, at);
    } else {
      PassAppends(rules[1..], ua, stats, draw, at);
    }
  }

  /** Every returned rule comes from `rules`, was not earned before the pass, met its
      requirement, and is earned after the pass. */
  lemma {:induction false} PassSound(rules: seq<Achievement>, ua: seq<Unlocked>, stats: Stats,
                                     draw: bool, at: string)
    ensures var r := UnlockPass(rules, ua, stats, draw, at);
            forall a :: a in r.newly ==>
              a in rules && !IsEarned(ua, a.id) && CheckRequirement(a.requirement, stats, draw) &&
              IsEarned(r.unlocked, a.id)
  {
    if rules == [] {
    } else if IsEarned(ua, rules[0].id) {
      PassSound(rules[1..], ua, stats, draw, at);
    } else if CheckRequirement(rules[0].requirement, stats, draw) {
      var ua' := Unlock(ua, rules[0].id, at);
      PassSound(rules[1..], ua', stats, draw, at);
      PassKeepsEarned(rules[1..], ua', stats, draw, at);
    } else {
      PassSound(rules[1..], ua, stats, draw, at);
    }
  }

  /** Monotonicity: an id earned before the pass is earned after it. */
  lemma {:induction false} PassKeepsEarned(rules: seq<Achievement>, ua: seq<Unlocked>, stats: Stats,
                                           draw: bool, at: string)
    ensures var r := UnlockPass(rules, ua, stats, draw, at);
            forall id :: IsEarned(ua, id) ==> IsEarned(r.unlocked, id)
  {
    if rules == [] {
    } else if IsEarned(ua, rules[0].id) {
      PassKeepsEarned(rules[1..], ua, stats, draw, at);
    } else if CheckRequirement(rules[0].requirement, stats, draw) {
      PassKeepsEarned(rules[1..], Unlock(ua, rules[0].id, at), stats, draw, at);
    } else {
      PassKeepsEarned(rules[1..], ua, stats, draw, at);
    }
  }

  /** Every rule whose requirement holds is earned after the pass. */
  lemma {:induction false} PassEarnsMetRules(rules: seq<Achievement>, ua: seq<Unlocked>, stats: Stats,
                                             draw: bool, at: string)
    ensures var r := UnlockPass(rules, ua, stats, draw, at);
            forall a :: a in rules && CheckRequirement(a.requirement, stats, draw) ==>
              IsEarned(r.unlocked, a.id)
  {
    if rules != [] {
      var ua' := if !IsEarned(ua, rules[0].id) && CheckRequirement(rules[0].requirement, stats, draw)
                 then Unlock(ua, rules[0].id, at) else ua;
      PassEarnsMetRules(rules[1..], ua', stats, draw, at);
      PassKeepsEarned(rules[1..], ua', stats, draw, at);
      forall a | a in rules && CheckRequirement(a.requirement, stats, draw)
        ensures IsEarned(UnlockPass(rules, ua, stats, draw, at).unlocked, a.id)
      {
        if a != rules[0] {
          assert a in rules[1..];
        }
      }
    }
  }

  /** Ids are not repeated within a list of rules. */
  predicate DistinctIds(rules: seq<Achievement>) {
    forall i, j :: 0 <= i < j < |rules| ==> rules[i].id != rules[j].id
  }

  /** With distinct rule ids, every rule not earned before the pass whose requirement
      holds is returned. */
  lemma {:induction false} PassReturnsMet(rules: seq<Achievement>, ua: seq<Unlocked>, stats: Stats,
                                          draw: bool, at: string)
    requires DistinctIds(rules)
    ensures var r := UnlockPass(rules, ua, stats, draw, at);
            forall a :: a in rules && !IsEarned(ua, a.id) && CheckRequirement(a.requirement, stats, draw) ==>
              a in r.newly
  {
    if rules != [] {
      var unlocks := !IsEarned(ua, rules[0].id) && CheckRequirement(rules[0].requirement, stats, draw);
      var ua' := if unlocks then Unlock(ua, rules[0].id, at) else ua;
      assert DistinctIds(rules[1..]);
      PassReturnsMet(rules[1..], ua', stats, draw, at);
      var rest := UnlockPass(rules[1..], ua', stats, draw, at);
      forall a | a in rules && !IsEarned(ua, a.id) && CheckRequirement(a.requirement, stats, draw)
        ensures a in UnlockPass(rules, ua, stats, draw, at).newly
      {
        if a != rules[0] {
          var j :| 0 <= j < |rules| && rules[j] == a;
          assert rules[1..][j - 1] == a;
          if unlocks {
            UnlockEarnsExactly(ua, rules[0].id, at, a.id);
          }
          assert a in rest.newly;
        }
      }
    }
  }

  /** With distinct rule ids, a rule is returned exactly when it was not earned before the
      pass and its requirement holds. */
  lemma PassReturnsExactly(rules: seq<Achievement>, ua: seq<Unlocked>, stats: Stats,
                           draw: bool, at: string)
    requires DistinctIds(rules)
    ensures var r := UnlockPass(rules, ua, stats, draw, at);
            forall a :: a in r.newly <==>
              a in rules && !IsEarned(ua, a.id) && CheckRequirement(a.requirement, stats, draw)
  {
    PassSound(rules, ua, stats, draw, at);
    PassReturnsMet(rules, ua, stats, draw, at);
  }

  /** The unlocked list keeps holding each id at most once. */
  lemma {:induction false} PassNoDuplicates(rules: seq<Achievement>, ua: seq<Unlocked>, stats: Stats,
                                            draw: bool, at: string)
    requires NoDuplicateIds(ua)
    ensures NoDuplicateIds(UnlockPass(rules, ua, stats, draw, at).unlocked)
  {
    if rules != [] {
      var ua' := if !IsEarned(ua, rules[0].id) && CheckRequirement(rules[0].requirement, stats, draw)
                 then Unlock(ua, rules[0].id, at) else ua;
      PassNoDuplicates(rules[1..], ua', stats, draw, at);
    }
  }

  /** Returned rules come in the order of `rules`. */
  lemma {:induction false} PassKeepsOrder(rules: seq<Achievement>, ua: seq<Unlocked>, stats: Stats,
                                          draw: bool, at: string)
    requires IdsIncreasing(rules)
    ensures IdsIncreasing(UnlockPass(rules, ua, stats, draw, at).newly)
  {
    if rules != [] {
      var unlocks := !IsEarned(ua, rules[0].id) && CheckRequirement(rules[0].requirement, stats, draw);
      var ua' := if unlocks then Unlock(ua, rules[0].id, at) else ua;
      assert IdsIncreasing(rules[1..]) by {
        forall i, j | 0 <= i < j < |rules[1..]| ensures rules[1..][i].id < rules[1..][j].id {
          assert rules[1..][i] == rules[i + 1] && rules[1..][j] == rules[j + 1];
        }
      }
      PassKeepsOrder(rules[1..], ua', stats, draw, at);
      var rest := UnlockPass(rules[1..], ua', stats, draw, at);
      if unlocks {
        PassSound(rules[1..], ua', stats, draw, at);
        forall a | a in rest.newly ensures rules[0].id < a.id {
          var j :| 0 <= j < |rules[1..]| && rules[1..][j] == a;
          assert rules[j + 1] == a;
        }
        IdsIncreasingCons(rules[0], rest.newly);
      }
    }
  }

  lemma IdsIncreasingCons(x: Achievement, s: seq<Achievement>)
    requires IdsIncreasing(s) && forall a :: a in s ==> x.id < a.id
    ensures IdsIncreasing([x] + s)
  {
    forall i, j | 0 <= i < j < |[x] + s| ensures ([x] + s)[i].id < ([x] + s)[j].id {
      assert ([x] + s)[j] == s[j - 1];
      if i > 0 { assert ([x] + s)[i] == s[i - 1]; }
    }
  }

  /** When every rule whose requirement holds is already earned, the pass returns nothing. */
  lemma {:induction false} PassFindsNothing(rules: seq<Achievement>, ua: seq<Unlocked>, stats: Stats,
                                            draw: bool, at: string)
    requires forall a :: a in rules && CheckRequirement(a.requirement, stats, draw) ==> IsEarned(ua, a.id)
    ensures UnlockPass(rules, ua, stats, draw, at).newly == []
  {
    if rules != [] {
      PassFindsNothing(rules[1..], ua, stats, draw, at);
    }
  }

  /** Re-running the pass against the same snapshot and draw returns nothing. */
  lemma PassIdempotent(rules: seq<Achievement>, ua: seq<Unlocked>, stats: Stats,
                       draw: bool, at: string, at2: string)
    ensures var r := UnlockPass(rules, ua, stats, draw, at);
            UnlockPass(rules, r.unlocked, stats, draw, at2).newly == []
  {
    var r := UnlockPass(rules, ua, stats, draw, at);
    PassEarnsMetRules(rules, ua, stats, draw, at);
    PassFindsNothing(rules, r.unlocked, stats, draw, at2);
  }

  /** Two successive passes, whatever their snapshots, never return the same id. */
  lemma PassesDisjoint(rules: seq<Achievement>, rules2: seq<Achievement>, ua: seq<Unlocked>,
                       s1: Stats, s2: Stats, d1: bool, d2: bool, at1: string, at2: string)
    ensures var r1 := UnlockPass(rules, ua, s1, d1, at1);
            var r2 := UnlockPass(rules2, r1.unlocked, s2, d2, at2);
            forall a, b :: a in r1.newly && b in r2.newly ==> a.id != b.id
  {
    var r1 := UnlockPass(rules, ua, s1, d1, at1);
    PassSound(rules, ua, s1, d1, at1);
    PassSound(rules2, r1.unlocked, s2, d2, at2);
  }

  /** A rule whose requirement fails against the first snapshot and holds against the
      second is skipped by the first pass and returned by the second. */
  lemma SecondPassUnlocks(rules: seq<Achievement>, ua: seq<Unlocked>, s1: Stats, s2: Stats,
                          draw: bool, at: string, at2: string, b: Achievement)
    requires DistinctIds(rules) && b in rules && !IsEarned(ua, b.id)
    requires !CheckRequirement(b.requirement, s1, draw) && CheckRequirement(b.requirement, s2, draw)
    ensures var r1 := UnlockPass(rules, ua, s1, draw, at);
            b !in r1.newly && b in UnlockPass(rules, r1.unlocked, s2, draw, at2).newly
  {
    var r1 := UnlockPass(rules, ua, s1, draw, at);
    PassReturnsExactly(rules, ua, s1, draw, at);
    PassAppends(rules, ua, s1, draw, at);
    forall j | 0 <= j < |r1.unlocked| ensures r1.unlocked[j].achievementId != b.id {
      if j >= |ua| {
        var a := r1.newly[j - |ua|];
        assert a in r1.newly;
        assert a != b;
      }
    }
    PassReturnsExactly(rules, r1.unlocked, s2, draw, at2);
  }

  /** The snapshot is taken before the unlocks, so a second check with unchanged projects
      can still unlock something. With rules 1..10 already earned and the level-time draw
      passing, the first check unlocks rule 11 ("Lightning Fast") but not rule 12
      ("Ultimate Champion", eleven achievements); the second check sees eleven records and
      unlocks rule 12. */
  lemma RepeatedCheckCanUnlockMore(ua: seq<Unlocked>, ps: seq<Project>, daily: nat, streak: nat,
                                   at: string, at2: string)
    requires |ua| == 10 && forall i :: 0 <= i < 10 ==> ua[i].achievementId == i + 1
    ensures var r1 := UnlockPass(Catalog, ua, ComputeStats(ps, |ua|, daily, streak), true, at);
            var r2 := UnlockPass(Catalog, r1.unlocked, ComputeStats(ps, |r1.unlocked|, daily, streak), true, at2);
            Catalog[10] in r1.newly && Catalog[11] !in r1.newly && Catalog[11] in r2.newly
  {
    CatalogShape();
    var rules := Catalog;
    assert DistinctIds(rules);
    var s1 := ComputeStats(ps, |ua|, daily, streak);
    var r1 := UnlockPass(rules, ua, s1, true, at);
    CatalogThresholdsLast(s1, true);
    assert !IsEarned(ua, rules[10].id) && !IsEarned(ua, rules[11].id);
    PassReturnsExactly(rules, ua, s1, true, at);
    assert rules[10] in r1.newly;
    PassAppends(rules, ua, s1, true, at);
    var s2 := ComputeStats(ps, |r1.unlocked|, daily, streak);
    CatalogThresholdsLast(s2, true);
    SecondPassUnlocks(rules, ua, s1, s2, true, at, at2, rules[11]);
  }

  // ---------------------------------------------------------------------------
  // Progress report

  /** One entry of the progress report: the rule and how far along it is. */
  datatype ProgressEntry = ProgressEntry(
    achievement: Achievement,
    isEarned: bool,
    progress: real,
    currentValue: nat,
    targetValue: nat)

  /** `req.count` is truthy: present and not zero. */
  predicate HasCount(req: Requirement) {
    req.count.Some? && req.count.value > 0
  }

  /** `stats[kind] || 0`. */
  function StatOrZero(stats: Stats, kind: RequirementType): (n: nat)
    ensures kind == ProjectsCreated ==> n == stats.projectsCreated
    ensures kind == TasksCompleted ==> n == stats.tasksCompleted
    ensures kind == LevelsCompleted ==> n == stats.levelsCompleted
    ensures kind == ProjectsCompleted ==> n == stats.projectsCompleted
    ensures kind == ActiveProjects ==> n == stats.activeProjects
    ensures kind == TasksCompletedDaily ==> n == stats.tasksCompletedDaily
    ensures kind == ConsecutiveDays ==> n == stats.consecutiveDays
    ensures kind == AllAchievements ==> n == stats.allAchievements
    ensures kind.LevelCompletionTime? || kind.UnknownType? ==> n == 0
  {
    match StatValue(stats, kind)
    case Some(v) => v
    case None => 0
  }

  function MinReal(a: real, b: real): real {
    if a <= b then a else b
  }

  /** A count divided by a positive target is never negative, and reaches 1 exactly when
      the count reaches the target. */
  lemma RatioReachesOne(n: nat, c: nat)
    requires c > 0
    ensures 0.0 <= n as real / c as real
    ensures n as real / c as real >= 1.0 <==> n >= c
  {
    var q := n as real / c as real;
    assert q * c as real == n as real;
    assert (q - 1.0) * c as real == n as real - c as real;
    if q >= 1.0 {
      assert (q - 1.0) * c as real >= 0.0;
    } else {
      assert (q - 1.0) * c as real < 0.0;
    }
  }

  /** The progress entry of one rule. */
  function ProgressOf(a: Achievement, ua: seq<Unlocked>, stats: Stats): (e: ProgressEntry)
    ensures e.achievement == a
    ensures e.isEarned == IsEarned(ua, a.id)
    ensures e.isEarned ==> e.progress == 1.0
    ensures 0.0 <= e.progress <= 1.0
    ensures !e.isEarned && !HasCount(a.requirement) ==> e.progress == 0.0
    ensures !e.isEarned && HasCount(a.requirement) && StatValue(stats, a.requirement.kind).Some? ==>
              (e.progress == 1.0 <==> CheckRequirement(a.requirement, stats, false))
    ensures e.currentValue == StatOrZero(stats, a.requirement.kind)
    ensures e.targetValue >= 1
    ensures HasCount(a.requirement) ==> e.targetValue == a.requirement.count.value
    ensures !HasCount(a.requirement) ==> e.targetValue == 1
  {
    var earned := IsEarned(ua, a.id);
    var req := a.requirement;
    var progress :=
      if !earned && HasCount(req) then
        RatioReachesOne(StatOrZero(stats, req.kind), req.count.value);
        MinReal(StatOrZero(stats, req.kind) as real / req.count.value as real, 1.0)
      else 0.0;
    ProgressEntry(
      a,
      earned,
      if earned then 1.0 else progress,
      StatOrZero(stats, req.kind),
      if HasCount(req) then req.count.value else 1)
  }

  /** The report: one entry per rule, in the order of `rules`. */
  function ProgressReport(rules: seq<Achievement>, ua: seq<Unlocked>, stats: Stats): (report: seq<ProgressEntry>)
    ensures |report| == |rules|
    ensures forall i :: 0 <= i < |rules| ==> report[i] == ProgressOf(rules[i], ua, stats)
  {
    seq(|rules|, i requires 0 <= i < |rules| => ProgressOf(rules[i], ua, stats))
  }

  /** After a pass, every rule it returned reports as earned with progress 1. */
  lemma ReportAfterPass(rules: seq<Achievement>, ua: seq<Unlocked>, stats: Stats, draw: bool,
                        at: string, later: Stats)
    ensures var r := UnlockPass(rules, ua, stats, draw, at);
            var report := ProgressReport(rules, r.unlocked, later);
            forall i :: 0 <= i < |rules| && rules[i] in r.newly ==>
              report[i].isEarned && report[i].progress == 1.0
  {
    PassSound(rules, ua, stats, draw, at);
  }

  /** One iteration of the pass over `rules[i..]`: handle `rules[i]`, then go on with the
      rest. The rules returned so far plus those the rest of the pass returns stay the same. */
  lemma PassStep(rules: seq<Achievement>, i: int, ua: seq<Unlocked>, stats: Stats, draw: bool, at: string,
                 done: seq<Achievement>, final: PassResult)
    requires 0 <= i < |rules|
    requires done + UnlockPass(rules[i..], ua, stats, draw, at).newly == final.newly
    requires UnlockPass(rules[i..], ua, stats, draw, at).unlocked == final.unlocked
    ensures var unlocks := !IsEarned(ua, rules[i].id) && CheckRequirement(rules[i].requirement, stats, draw);
            var ua' := if unlocks then Unlock(ua, rules[i].id, at) else ua;
            var done' := if unlocks then done + [rules[i]] else done;
            var rest := UnlockPass(rules[i + 1..], ua', stats, draw, at);
            done' + rest.newly == final.newly && rest.unlocked == final.unlocked
  {
    assert rules[i..][1..] == rules[i + 1..];
    var unlocks := !IsEarned(ua, rules[i].id) && CheckRequirement(rules[i].requirement, stats, draw);
    if unlocks {
      var tail := UnlockPass(rules[i + 1..], Unlock(ua, rules[i].id, at), stats, draw, at).newly;
      assert (done + [rules[i]]) + tail == done + ([rules[i]] + tail);
    }
  }

  /** What one pass promises, gathered for the service method. */
  lemma PassSummary(rules: seq<Achievement>, ua: seq<Unlocked>, stats: Stats, draw: bool, at: string)
    ensures var r := UnlockPass(rules, ua, stats, draw, at);
            r.unlocked == ua + Records(r.newly, at) &&
            (forall a :: a in r.newly ==> a in rules && !IsEarned(ua, a.id) && IsEarned(r.unlocked, a.id)) &&
            (forall id :: IsEarned(ua, id) ==> IsEarned(r.unlocked, id)) &&
            (NoDuplicateIds(ua) ==> NoDuplicateIds(r.unlocked))
  {
    PassAppends(rules, ua, stats, draw, at);
    PassSound(rules, ua, stats, draw, at);
    PassKeepsEarned(rules, ua, stats, draw, at);
    if NoDuplicateIds(ua) {
      PassNoDuplicates(rules, ua, stats, draw, at);
    }
  }

  // ---------------------------------------------------------------------------
  // The service object

  /** The achievement service: the catalog copy and the unlocked list it appends to. */
  class AchievementEngine {
    const achievements: seq<Achievement>
    var userAchievements: seq<Unlocked>

    /** `stored` is the list read back from local storage at start-up. */
    constructor (stored: seq<Unlocked>)
      ensures achievements == Catalog && userAchievements == stored
    {
      achievements := Catalog;
      userAchievements := stored;
    }

    function IsAchievementEarned(achievementId: int): (b: bool)
      reads this
      ensures b <==> exists i :: 0 <= i < |userAchievements| && userAchievements[i].achievementId == achievementId
    {
      IsEarned(userAchievements, achievementId)
    }

    /** The snapshot for `projects`, counting the records unlocked so far. */
    function CalculateStats(projects: seq<Project>, todaysCompleted: nat, consecutiveDays: nat): (s: Stats)
      reads this
      ensures s.allAchievements == |userAchievements|
      ensures s.projectsCreated == |projects|
    {
      ComputeStats(projects, |userAchievements|, todaysCompleted, consecutiveDays)
    }

    method UnlockAchievement(achievementId: int, earnedAt: string)
      modifies this
      ensures userAchievements == Unlock(old(userAchievements), achievementId, earnedAt)
      ensures IsAchievementEarned(achievementId)
      ensures old(IsAchievementEarned(achievementId)) ==> userAchievements == old(userAchievements)
      ensures NoDuplicateIds(old(userAchievements)) ==> NoDuplicateIds(userAchievements)
    {
      if !IsAchievementEarned(achievementId) {
        userAchievements := userAchievements + [Unlocked(achievementId, earnedAt)];
      }
    }

    /** Unlocks every rule not yet earned whose requirement the snapshot meets, and returns
        those rules in catalog order. The snapshot is taken once, before the loop. */
    method CheckAchievements(projects: seq<Project>, todaysCompleted: nat, consecutiveDays: nat,
                             levelTimeDraw: bool, earnedAt: string)
      returns (newAchievements: seq<Achievement>)
      modifies this
      ensures var r := UnlockPass(achievements, old(userAchievements),
                                  ComputeStats(projects, |old(userAchievements)|, todaysCompleted, consecutiveDays),
                                  levelTimeDraw, earnedAt);
              newAchievements == r.newly && userAchievements == r.unlocked
      ensures userAchievements == old(userAchievements) + Records(newAchievements, earnedAt)
      ensures forall a :: a in newAchievements ==>
                a in achievements && !IsEarned(old(userAchievements), a.id) && IsAchievementEarned(a.id)
      ensures forall id :: IsEarned(old(userAchievements), id) ==> IsAchievementEarned(id)
      ensures NoDuplicateIds(old(userAchievements)) ==> NoDuplicateIds(userAchievements)
    {
      var stats := CalculateStats(projects, todaysCompleted, consecutiveDays);
      newAchievements := UnlockAgainst(stats, levelTimeDraw, earnedAt);
      PassSummary(achievements, old(userAchievements), stats, levelTimeDraw, earnedAt);
    }

    /** The loop of `checkAchievements`, against a snapshot already taken: skip what is
        earned, unlock and collect what the snapshot meets. */
    method UnlockAgainst(stats: Stats, levelTimeDraw: bool, earnedAt: string)
      returns (newAchievements: seq<Achievement>)
      modifies this
      ensures var r := UnlockPass(achievements, old(userAchievements), stats, levelTimeDraw, earnedAt);
              newAchievements == r.newly && userAchievements == r.unlocked
    {
      newAchievements := [];
      var rules := achievements;
      ghost var final := UnlockPass(rules, userAchievements, stats, levelTimeDraw, earnedAt);
      var i := 0;
      assert rules[i..] == rules;
      while i < |rules|
        invariant 0 <= i <= |rules|
        invariant newAchievements + UnlockPass(rules[i..], userAchievements, stats, levelTimeDraw, earnedAt).newly
                  == final.newly
        invariant UnlockPass(rules[i..], userAchievements, stats, levelTimeDraw, earnedAt).unlocked
                  == final.unlocked
      {
        var achievement := rules[i];
        PassStep(rules, i, userAchievements, stats, levelTimeDraw, earnedAt, newAchievements, final);
        if !IsAchievementEarned(achievement.id) {
          if CheckRequirement(achievement.requirement, stats, levelTimeDraw) {
            UnlockAchievement(achievement.id, earnedAt);
            newAchievements := newAchievements + [achievement];
          }
        }
        i := i + 1;
      }
      assert rules[i..] == [];
    }

    /** The progress report for `projects` against the current unlocked list. */
    function GetAchievementProgress(projects: seq<Project>, todaysCompleted: nat,
                                    consecutiveDays: nat): (report: seq<ProgressEntry>)
      reads this
      ensures |report| == |achievements|
      ensures forall i :: 0 <= i < |report| ==>
                report[i].achievement == achievements[i] &&
                (report[i].isEarned <==> IsAchievementEarned(achievements[i].id)) &&
                0.0 <= report[i].progress <= 1.0
    {
      ProgressReport(achievements, userAchievements, CalculateStats(projects, todaysCompleted, consecutiveDays))
    }
  }
}
