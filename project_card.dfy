/** The project card on the dashboard: task counts, progress and completed levels of one
    project. */
module ProjectCard {
  import opened Model
  import opened Progress
  import opened AchievementService

  /** What the card shows. `progress` is a percentage. */
  datatype CardView = CardView(
    totalTasks: nat,
    completedTasks: nat,
    progress: real,
    completedLevels: nat,
    workingTasks: nat)

  /** The card's derived values for `p`. */
  function ProjectCardView(p: Project): (v: CardView)
    ensures v.totalTasks == |p.tasks|
    ensures v.completedTasks <= v.totalTasks
    ensures v.totalTasks == 0 ==> v.progress == 0.0
    ensures 0.0 <= v.progress <= 100.0
    ensures v.totalTasks > 0 ==> (v.progress == 100.0 <==> ProjectComplete(p.tasks))
    ensures v.completedLevels <= 6
    ensures v.completedTasks + v.workingTasks <= v.totalTasks
  {
    var total := |p.tasks|;
    var completed := CountStatus(p.tasks, Complete);
    StatusCountsPartition(p.tasks);
    AllCompleteIffCount(p.tasks);
    CardView(total, completed, Percent(completed, total), CompletedLevels(p.tasks),
             CountStatus(p.tasks, Working))
  }

  /** The card's completed levels are only non-empty levels. */
  lemma CardLevelsAreNonEmpty(p: Project)
    ensures ProjectCardView(p).completedLevels <= CountNonEmptyLevels(p.tasks, LevelNumbers)
  {
    CompleteLevelsAreNonEmpty(p.tasks, LevelNumbers);
  }

  /** The card's "Done" and "Levels" figures are this project's share of the engine's
      `tasks_completed` and `levels_completed`. */
  lemma CardMatchesStats(p: Project, unlockedCount: nat, daily: nat, streak: nat)
    ensures var s := ComputeStats([p], unlockedCount, daily, streak);
            ProjectCardView(p).completedLevels == s.levelsCompleted &&
            ProjectCardView(p).completedTasks == s.tasksCompleted
  {
    assert [p][..0] == [];
    assert [p][1..] == [];
    assert AllTasks([p]) == p.tasks;
  }
}
