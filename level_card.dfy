/** The level card: the counts, the progress bar and the "Level Complete" badge it derives
    from the tasks of one level. */
module LevelCard {
  import opened Model
  import opened Progress

  /** What the card shows. `progress` is a percentage. */
  datatype LevelView = LevelView(completedTasks: nat, totalTasks: nat, progress: real, isLevelComplete: bool)

  /** The card's derived values for the tasks handed to it. The badge test compares the
      complete count with the length rather than testing every task. */
  function LevelCardView(tasks: seq<Task>): (v: LevelView)
    ensures v.totalTasks == |tasks|
    ensures v.completedTasks <= v.totalTasks
    ensures 0.0 <= v.progress <= 100.0
    ensures tasks == [] ==> v.progress == 0.0 && !v.isLevelComplete
    ensures v.isLevelComplete <==> |tasks| > 0 && AllComplete(tasks)
    ensures tasks != [] ==> (v.isLevelComplete <==> v.progress == 100.0)
  {
    var completed := CountStatus(tasks, Complete);
    var total := |tasks|;
    AllCompleteIffCount(tasks);
    LevelView(completed, total, Percent(completed, total), total > 0 && completed == total)
  }

  /** Given the tasks of one level, the card's badge agrees with the aggregator's test. */
  lemma LevelCardAgreesWithLevelComplete(ts: seq<Task>, level: int)
    ensures LevelCardView(TasksAtLevel(ts, level)).isLevelComplete == LevelComplete(ts, level)
  {
  }
}
