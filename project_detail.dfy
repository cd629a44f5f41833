/** The project detail page: the table of the six quest levels, the overall progress,
    the per-status counts and the per-level task lists handed to the level cards. */
module ProjectDetail {
  import opened Model
  import opened Progress
  import opened LevelCard
  import opened ProjectCard
  import opened ProjectService

  /** One row of the level table. */
  datatype LevelInfo = LevelInfo(number: int, name: string, description: string)

  /** The six quest levels, in display order. */
  const Levels: seq<LevelInfo> := [
    LevelInfo(1, "Research & Planning", "Initial research and content strategy"),
    LevelInfo(2, "WordPress Setup", "Initial WordPress configuration and setup"),
    LevelInfo(3, "Design & Content", "Website design and content implementation"),
    LevelInfo(4, "Domain & Hosting", "Domain setup and hosting configuration"),
    LevelInfo(5, "SEO & Performance", "Search engine optimization and site performance"),
    LevelInfo(6, "Off-page SEO & Backlinks", "Social media setup and link building")
  ]

  /** The table holds levels 1..6 in order, the same numbers the aggregator walks. */
  lemma LevelsNumbered()
    ensures |Levels| == |LevelNumbers| == 6
    ensures forall i :: 0 <= i < 6 ==> Levels[i].number == i + 1 == LevelNumbers[i]
  {
  }

  /** `overallProgress`, a percentage. */
  function OverallProgress(p: Project): (r: real)
    ensures |p.tasks| == 0 ==> r == 0.0
    ensures 0.0 <= r <= 100.0
    ensures |p.tasks| > 0 ==> (r == 100.0 <==> ProjectComplete(p.tasks))
  {
    AllCompleteIffCount(p.tasks);
    Percent(CountStatus(p.tasks, Complete), |p.tasks|)
  }

  /** The detail page and the dashboard card show the same progress for a project. */
  lemma OverallProgressMatchesCard(p: Project)
    ensures OverallProgress(p) == ProjectCardView(p).progress
  {
  }

  /** The Completed / In Progress / Pending figures. */
  datatype StatusTally = StatusTally(completed: nat, inProgress: nat, pending: nat)

  function Tally(ts: seq<Task>): (t: StatusTally)
    ensures t.completed + t.inProgress + t.pending <= |ts|
    ensures t.completed + t.inProgress + t.pending == |ts| <==> AllKnown(ts)
    ensures t.completed == |ts| <==> AllComplete(ts)
  {
    StatusCountsPartition(ts);
    AllCompleteIffCount(ts);
    StatusTally(CountStatus(ts, Complete), CountStatus(ts, Working), CountStatus(ts, Pending))
  }

  /** The task list handed to each level card, one per row of the level table. */
  function LevelTaskLists(ts: seq<Task>): (lists: seq<seq<Task>>)
    ensures |lists| == 6
    ensures forall i :: 0 <= i < 6 ==> lists[i] == TasksAtLevel(ts, i + 1)
  {
    LevelsNumbered();
    seq(6, i requires 0 <= i < 6 => TasksAtLevel(ts, Levels[i].number))
  }

  /** The per-level lists are pairwise disjoint: a task is shown under one level at most. */
  lemma LevelListsDisjoint(ts: seq<Task>, i: int, j: int)
    requires 0 <= i < 6 && 0 <= j < 6 && i != j
    ensures forall t :: t in LevelTaskLists(ts)[i] ==> t !in LevelTaskLists(ts)[j]
  {
  }

  /** Total length of the per-level lists for `levels`. */
  function LevelTaskTotal(ts: seq<Task>, levels: seq<int>): (n: nat)
    ensures n <= |levels| * |ts|
  {
    if levels == [] then 0
    else
      var rest := LevelTaskTotal(ts, levels[1..]);
      assert |levels| * |ts| == |ts| + (|levels| - 1) * |ts|;
      |TasksAtLevel(ts, levels[0])| + rest
  }

  /** Number of tasks whose level is one of 1..6. */
  function CountInLevelRange(ts: seq<Task>): (n: nat)
    ensures n <= |ts|
  {
    if ts == [] then 0
    else (if 1 <= ts[0].level <= 6 then 1 else 0) + CountInLevelRange(ts[1..])
  }

  /** How many entries of `levels` equal `x`. */
  function Occurrences(levels: seq<int>, x: int): nat {
    if levels == [] then 0 else (if levels[0] == x then 1 else 0) + Occurrences(levels[1..], x)
  }

  lemma {:induction false} LevelTaskTotalCons(ts: seq<Task>, levels: seq<int>)
    requires ts != []
    ensures LevelTaskTotal(ts, levels) == Occurrences(levels, ts[0].level) + LevelTaskTotal(ts[1..], levels)
  {
    if levels != [] {
      LevelTaskTotalCons(ts, levels[1..]);
    }
  }

  lemma {:induction false} LevelTaskTotalEmpty(levels: seq<int>)
    ensures LevelTaskTotal([], levels) == 0
  {
    if levels != [] {
      LevelTaskTotalEmpty(levels[1..]);
    }
  }

  /** Each number in 1..6 occurs once among the level numbers, any other number never. */
  lemma LevelNumberOccurrences(x: int)
    ensures Occurrences(LevelNumbers, x) == if 1 <= x <= 6 then 1 else 0
  {
    assert Occurrences([6], x) == if x == 6 then 1 else 0 by { assert [6][1..] == []; }
    assert Occurrences([5, 6], x) == if 5 <= x <= 6 then 1 else 0 by { assert [5, 6][1..] == [6]; }
    assert Occurrences([4, 5, 6], x) == if 4 <= x <= 6 then 1 else 0 by {
      assert [4, 5, 6][1..] == [5, 6];
    }
    assert Occurrences([3, 4, 5, 6], x) == if 3 <= x <= 6 then 1 else 0 by {
      assert [3, 4, 5, 6][1..] == [4, 5, 6];
    }
    assert Occurrences([2, 3, 4, 5, 6], x) == if 2 <= x <= 6 then 1 else 0 by {
      assert [2, 3, 4, 5, 6][1..] == [3, 4, 5, 6];
    }
    assert LevelNumbers[1..] == [2, 3, 4, 5, 6];
  }

  /** The six per-level lists together hold exactly the tasks whose level is in 1..6. */
  lemma {:induction false} LevelListsCover(ts: seq<Task>)
    ensures LevelTaskTotal(ts, LevelNumbers) == CountInLevelRange(ts)
  {
    if ts == [] {
      LevelTaskTotalEmpty(LevelNumbers);
    } else {
      LevelTaskTotalCons(ts, LevelNumbers);
      LevelListsCover(ts[1..]);
      LevelNumberOccurrences(ts[0].level);
    }
  }

  /** When every task's level is in 1..6, every task is counted. */
  lemma {:induction false} AllInLevelRange(ts: seq<Task>)
    requires forall i :: 0 <= i < |ts| ==> 1 <= ts[i].level <= 6
    ensures CountInLevelRange(ts) == |ts|
  {
    if ts != [] {
      AllInLevelRange(ts[1..]);
    }
  }

  /** Sum of the lengths of `lists`. */
  function TotalLength(lists: seq<seq<Task>>): nat {
    if lists == [] then 0 else |lists[0]| + TotalLength(lists[1..])
  }

  /** Together the lists handed to the level cards hold every task whose level is in 1..6. */
  lemma LevelTaskListsCover(ts: seq<Task>)
    ensures TotalLength(LevelTaskLists(ts)) == CountInLevelRange(ts)
  {
    LevelsNumbered();
    TotalLengthIsLevelTaskTotal(ts, LevelTaskLists(ts), LevelNumbers);
    LevelListsCover(ts);
  }

  lemma {:induction false} TotalLengthIsLevelTaskTotal(ts: seq<Task>, lists: seq<seq<Task>>, levels: seq<int>)
    requires |lists| == |levels|
    requires forall i :: 0 <= i < |lists| ==> lists[i] == TasksAtLevel(ts, levels[i])
    ensures TotalLength(lists) == LevelTaskTotal(ts, levels)
  {
    if lists != [] {
      TotalLengthIsLevelTaskTotal(ts, lists[1..], levels[1..]);
    }
  }

  /** Instantiating a template whose levels are all in 1..6 gives tasks that are all
      counted. */
  lemma InstantiatedAllCounted(tmpl: seq<TemplateTask>)
    requires forall i :: 0 <= i < |tmpl| ==> 1 <= tmpl[i].level <= 6
    ensures CountInLevelRange(Instantiate(tmpl)) == |tmpl|
  {
    AllInLevelRange(Instantiate(tmpl));
  }

  /** For a generated project, the six level lists hold all 30 tasks. */
  lemma TemplateTasksCovered(projectId: int)
    ensures TotalLength(LevelTaskLists(GenerateTasksForProject(projectId))) == 30
  {
    var tmpl := DefaultTasks;
    assert forall i :: 0 <= i < |tmpl| ==> 1 <= tmpl[i].level <= 6 by {
      DefaultTasksShape();
    }
    InstantiatedAllCounted(tmpl);
    LevelTaskListsCover(Instantiate(tmpl));
  }

  /** Number of level cards showing the "Level Complete" badge, over `levels`. */
  function BadgeCount(ts: seq<Task>, levels: seq<int>): (n: nat)
    ensures n <= |levels|
  {
    if levels == [] then 0
    else (if LevelCardView(TasksAtLevel(ts, levels[0])).isLevelComplete then 1 else 0)
         + BadgeCount(ts, levels[1..])
  }

  /** The number of badges on the detail page is the dashboard card's completed levels. */
  lemma {:induction false} BadgesMatchCompletedLevels(ts: seq<Task>, levels: seq<int>)
    ensures BadgeCount(ts, levels) == CountCompleteLevels(ts, levels)
  {
    if levels != [] {
      LevelCardAgreesWithLevelComplete(ts, levels[0]);
      BadgesMatchCompletedLevels(ts, levels[1..]);
    }
  }
}
