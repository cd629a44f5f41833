# WebRoad Quest: progress and achievements, modelled in Dafny

WebRoad Quest is a gamified tracker for building a website. A project is a checklist of 30
tasks. The tasks are grouped into six quest levels. Each task is `pending`, `working` or
`complete`. The application derives progress figures from the task lists: counts, percentages,
completed levels and completed projects. An achievement engine compares those figures with a
catalog of twelve rules. It unlocks the rules a user meets and keeps an append-only list of
what has been unlocked.

This project models that core:

- `model.dfy`, module `Model`: the shared value types. These are the task status, the task
  record and the project record.
- `progress.dfy`, module `Progress`: the counts and completion tests that every view and the
  engine compute over a task list. Each is stated once here:
  - the number of tasks with a given status;
  - the tasks of a level;
  - whether a level is complete;
  - the number of complete levels;
  - whether a project is complete;
  - the percentage.
- `achievement_service.dfy`, module `AchievementService`: the achievement engine.
  - The pure parts are functions: the twelve-rule catalog, the stat snapshot, the requirement
    test, the unlock pass and the progress report.
  - The service object is the class `AchievementEngine`. It holds the catalog and the unlocked
    list `userAchievements`, which its methods append to.
- `project_service.dfy`, module `ProjectService`:
  - the 30-entry task template and the task list generated from it for every project;
  - `updateTask` / `updateTaskStatus` after the fetch, as a method that replaces one slot of a
    task array in place.
- `project_card.dfy`, `level_card.dfy`, `task_row.dfy`, `project_detail.dfy`, `dashboard.dfy`:
  the values each view derives from the same data.
  - The project card, level card, project detail and dashboard values are each proved equal
    to the aggregator's definitions or to the engine's stats.
  - The task row's status cycle is proved to have period three and to reach `complete`.

The sources are JavaScript, so JavaScript semantics are written out where they matter:

- Counts are unbounded `nat`s. Ids and levels are unbounded `int`s. Percentages and
  progress ratios are exact `real`s.
- A requirement's `count` is an `Option`. The source treats an absent count and a count of 0
  the same way when it tests `if (req.count)` and `count || 1`.
- `stats[type] >= undefined` is false.
- `statusCycle` applied to a status other than the three is modelled as `undefined`, that
  is `None`. Inherited property names are not treated specially; see "Left out".
- `reduce` is a left fold.

The placeholders that draw random numbers become parameters. These are today's completed
tasks, the consecutive days and the `level_completion_time` pass/fail. The clock used for
`earnedAt` also becomes a parameter. No general property assumes particular values for
them. The catalog lemmas state how rule 11 follows the draw, and the repeated-check example
below fixes the draw to pass.

A second check with unchanged projects can still unlock something. The code takes its stat
snapshot, including `all_achievements`, before the loop (`AchievementService.js` lines 261 and
299). So a second call sees the achievements the first call added. The model follows the code:

- `AchievementService.PassIdempotent` proves that a re-run against the same snapshot and draw
  returns nothing.
- `AchievementService.RepeatedCheckCanUnlockMore` proves that with rules 1..10 earned and the
  level-time draw passing, two successive checks unlock rule 11 and then rule 12.

## Model

| member | source | states |
|---|---|---|
| Progress.CountStatus | src/components/molecules/ProjectCard.jsx:10 | the count of tasks with a status is at most the length, and zero exactly when no task has that status |
| Progress.CountStatusAppend | src/services/api/AchievementService.js:276-277 | counting over a concatenation is the sum of the counts of its parts |
| Progress.AllCompleteIffCount | src/components/molecules/LevelCard.jsx:12 | "every task is complete" holds exactly when the complete count equals the length |
| Progress.StatusCountsPartition | src/components/pages/ProjectDetail.jsx:171-183 | complete + working + pending is at most the length, and equals it exactly when every status is one of the three |
| Progress.TasksAtLevel | src/components/pages/ProjectDetail.jsx:210 | the level filter keeps exactly the tasks of that level and never grows the list |
| Progress.CountCompleteLevels | src/services/api/AchievementService.js:284-287 | the number of complete levels is at most the number of levels examined |
| Progress.CountNonEmptyLevels | src/services/api/AchievementService.js:285-286 | the number of non-empty levels is at most the number of levels examined |
| Progress.CompletedLevels | src/components/molecules/ProjectCard.jsx:13-16 | a project has at most 6 complete levels |
| Progress.LevelComplete | src/services/api/AchievementService.js:285-286 | a level is complete exactly when some task has that level and every task of that level is complete |
| Progress.CompleteLevelsAreNonEmpty | src/components/molecules/ProjectCard.jsx:13-16 | a level with no tasks is never counted as complete |
| Progress.ProjectComplete | src/services/api/AchievementService.js:278-281 | a project is complete exactly when it has tasks and its complete count equals its task count |
| Progress.HasIncomplete | src/services/api/AchievementService.js:296 | a project is active exactly when its complete count is below its task count |
| Progress.CompleteOrIncomplete | src/services/api/AchievementService.js:278-296 | a project with tasks is either complete or has an incomplete task, never both; an empty project is neither |
| Progress.Percent | src/components/molecules/ProjectCard.jsx:11 | 0 when there are no tasks; within [0,100] when done <= total; 100 exactly when done == total |
| AchievementService.CatalogShape | src/services/api/AchievementService.js:4-113 | the catalog has 12 rules with ids 1..12 in increasing order |
| AchievementService.CatalogThresholdsFirst | src/services/api/AchievementService.js:4-32 | rules 1-3 need 1 project created, 10 tasks completed and 1 level completed |
| AchievementService.CatalogThresholdsSecond | src/services/api/AchievementService.js:33-59 | rules 4-6 need 1 completed project, 5 tasks today and 3 active projects |
| AchievementService.CatalogThresholdsLast | src/services/api/AchievementService.js:60-113 | rules 7-12 need 7 consecutive days, 10 levels, 100 tasks and 5 projects; rule 11 follows the random draw; rule 12 needs 11 achievements |
| AchievementService.AllTasks | src/services/api/AchievementService.js:276 | every task of every project is in the flattened list, and every task in it comes from some project |
| AchievementService.AllTasksAppend | src/services/api/AchievementService.js:276 | flattening a concatenation of project lists concatenates their task lists |
| AchievementService.CountCompleteProjects | src/services/api/AchievementService.js:278-281 | the completed-project count is at most the number of projects |
| AchievementService.CountActiveProjects | src/services/api/AchievementService.js:296 | the active-project count is at most the number of projects |
| AchievementService.CountEmptyProjects | src/services/api/AchievementService.js:278-296 | the count of projects without tasks is at most the number of projects |
| AchievementService.ProjectsPartition | src/services/api/AchievementService.js:278-296 | completed + active + empty projects equals the number of projects |
| AchievementService.NoEmptyProjects | src/services/api/AchievementService.js:278-296 | the empty count is zero exactly when every project has a task |
| AchievementService.SumCompletedLevels | src/services/api/AchievementService.js:283-289 | the sum of complete levels is at most 6 per project |
| AchievementService.ComputeStats | src/services/api/AchievementService.js:275-301 | projects_created is the number of projects; tasks_completed is at most the number of tasks; completed + active <= created, with equality when every project has a task; levels_completed <= 6 * created; all_achievements is the unlocked count given |
| AchievementService.StatValue | src/services/api/AchievementService.js:323 | `stats[type]` is undefined exactly for `level_completion_time` and unknown kinds; every other kind has a number |
| AchievementService.StatOrZero | src/services/api/AchievementService.js:358-366 | `stats[type]`, or 0 when it is undefined: for each of the eight numeric kinds, the snapshot field of that name; for `level_completion_time` and unknown kinds, 0 |
| AchievementService.HasCount | src/services/api/AchievementService.js:357 | defines `if (req.count)`: the count is present and not zero |
| AchievementService.CheckRequirement | src/services/api/AchievementService.js:313-330 | an unknown kind fails; level_completion_time follows the draw; each of the eight stat kinds passes exactly when the count is present and the stat is >= it |
| AchievementService.RequirementMonotone | src/services/api/AchievementService.js:322 | a requirement met by a snapshot is met by every snapshot at least as large |
| AchievementService.IsEarned | src/services/api/AchievementService.js:332-334 | true exactly when some record carries the id |
| AchievementService.Unlock | src/services/api/AchievementService.js:336-345 | afterwards the id is earned; an earned id leaves the list unchanged; otherwise one record is appended; earned ids stay earned; a list without duplicates stays so |
| AchievementService.UnlockEarnsExactly | src/services/api/AchievementService.js:336-345 | after an unlock, the earned ids are those earned before plus the unlocked id |
| AchievementService.Records | src/services/api/AchievementService.js:337-342 | one record per rule, with the rule's id and the pass's timestamp, in order |
| AchievementService.UnlockPass | src/services/api/AchievementService.js:263-270 | a pass returns at most as many rules as it examines |
| AchievementService.PassAppends | src/services/api/AchievementService.js:263-270 | a pass only appends: the new list is the old list plus one record per returned rule, in the order returned |
| AchievementService.PassSound | src/services/api/AchievementService.js:263-270 | every returned rule is a catalog rule, was not earned before, met its requirement, and is earned afterwards |
| AchievementService.PassKeepsEarned | src/services/api/AchievementService.js:332-345 | an id earned before a pass is earned after it |
| AchievementService.PassEarnsMetRules | src/services/api/AchievementService.js:263-270 | every rule whose requirement the snapshot meets is earned after the pass |
| AchievementService.PassReturnsMet | src/services/api/AchievementService.js:263-270 | with distinct ids, every unearned rule whose requirement holds is returned |
| AchievementService.PassReturnsExactly | src/services/api/AchievementService.js:263-270 | with distinct ids, a rule is returned if and only if it was unearned and its requirement holds |
| AchievementService.PassNoDuplicates | src/services/api/AchievementService.js:336-345 | a pass never adds a second record for an id |
| AchievementService.PassKeepsOrder | src/services/api/AchievementService.js:263 | returned rules come in catalog order |
| AchievementService.PassFindsNothing | src/services/api/AchievementService.js:264-265 | when every rule that is met is already earned, a pass returns nothing |
| AchievementService.PassIdempotent | src/services/api/AchievementService.js:258-273 | a second pass against the same snapshot and draw returns nothing |
| AchievementService.PassesDisjoint | src/services/api/AchievementService.js:258-273 | two successive passes never return the same id |
| AchievementService.SecondPassUnlocks | src/services/api/AchievementService.js:258-299 | a rule that fails against the first snapshot and holds against the second is skipped by the first pass and returned by the second |
| AchievementService.RepeatedCheckCanUnlockMore | src/services/api/AchievementService.js:258-299 | with rules 1..10 earned and the draw passing, the first check returns rule 11 and not rule 12; a second check with the same projects returns rule 12 |
| AchievementService.RatioReachesOne | src/services/api/AchievementService.js:358 | a count divided by a positive target is non-negative and reaches 1 exactly when the count reaches the target |
| AchievementService.ProgressOf | src/services/api/AchievementService.js:351-369 | an earned rule has progress 1; progress lies in [0,1]; no count means progress 0; with a count, progress is 1 exactly when the requirement is met; currentValue is the stat or 0; targetValue is the count or 1 |
| AchievementService.ProgressReport | src/services/api/AchievementService.js:351-369 | one entry per rule, in rule order |
| AchievementService.ReportAfterPass | src/services/api/AchievementService.js:347-370 | after a pass, each rule it returned is reported as earned with progress 1 |
| AchievementService.PassStep | src/services/api/AchievementService.js:263-270 | one loop iteration preserves "collected so far + what the rest returns = what the whole pass returns" |
| AchievementService.PassSummary | src/services/api/AchievementService.js:258-273 | gathers append-only, soundness, monotonicity and no-duplicates for one pass |
| AchievementService.AchievementEngine.constructor | src/services/api/AchievementService.js:116-123 | the engine starts with the catalog and the stored unlocked list |
| AchievementService.AchievementEngine.IsAchievementEarned | src/services/api/AchievementService.js:332-334 | true exactly when some unlocked record carries the id |
| AchievementService.AchievementEngine.CalculateStats | src/services/api/AchievementService.js:275-301 | all_achievements is the current length of the unlocked list; projects_created is the number of projects |
| AchievementService.AchievementEngine.UnlockAchievement | src/services/api/AchievementService.js:336-345 | the new list is the old list with at most one record appended; an earned id leaves it unchanged; afterwards the id is earned |
| AchievementService.AchievementEngine.CheckAchievements | src/services/api/AchievementService.js:258-273 | returns the pass's rules and leaves its list; the list grows by exactly one record per returned rule; each returned rule is a catalog rule that was unearned and is now earned; earned ids stay earned; no duplicate is introduced |
| AchievementService.AchievementEngine.UnlockAgainst | src/services/api/AchievementService.js:263-270 | the loop returns what the pass over the catalog returns and leaves the list the pass computes |
| AchievementService.AchievementEngine.GetAchievementProgress | src/services/api/AchievementService.js:347-370 | one entry per catalog rule, in order, with the earned flag of the current list and progress in [0,1] |
| ProjectService.DefaultTasksShape | src/services/api/ProjectService.js:2-33 | 30 entries with ids 1..30 in order, all distinct, levels in 1..6 and non-decreasing |
| ProjectService.CountTemplateLevel | src/services/api/ProjectService.js:2-33 | a per-level count is at most the template length |
| ProjectService.CountLevelBlock | src/services/api/ProjectService.js:2-33 | a level occupying one contiguous block of positions has as many entries as the block |
| ProjectService.LayoutLevelCount | src/services/api/ProjectService.js:2-33 | a 30-entry list laid out level by level as the template is has 4, 4, 5, 6, 5, 6 entries per level |
| ProjectService.DefaultTaskLevelCount | src/services/api/ProjectService.js:2-33 | the template has 4, 4, 5, 6, 5 and 6 tasks at levels 1..6 |
| ProjectService.FreshTask | src/services/api/ProjectService.js:273-279 | defines one generated task: the template's id, name and level; pending; unassigned; no due date; empty notes |
| ProjectService.Instantiate | src/services/api/ProjectService.js:273-279 | each task keeps its template's id, name and level and is pending, unassigned, without due date or notes |
| ProjectService.GenerateTasksForProject | src/services/api/ProjectService.js:272-280 | every project gets 30 tasks |
| ProjectService.GeneratedTasksIndependentOfProject | src/services/api/ProjectService.js:272-280 | the generated list does not depend on the project id |
| ProjectService.InstantiateLevelCount | src/services/api/ProjectService.js:273-279 | instantiating keeps the per-level counts of the template |
| ProjectService.InstantiateProgress | src/services/api/ProjectService.js:273-279 | a non-empty instantiated template has every task pending, none complete, no complete level and an incomplete task |
| ProjectService.FreshTasksProgress | src/services/api/ProjectService.js:272-280 | a fresh project has 30 pending tasks, none complete, no complete level, is not complete and is active |
| ProjectService.FreshLevelSize | src/services/api/ProjectService.js:2-280 | in a fresh project, levels 1..6 hold 4, 4, 5, 6, 5 and 6 tasks |
| ProjectService.AllPendingCount | src/services/api/ProjectService.js:276 | when every task is pending, the pending count is the length |
| ProjectService.NoLevelCompleteWhenNothingComplete | src/services/api/AchievementService.js:284-287 | with no complete task, no level is complete |
| ProjectService.Merge | src/services/api/ProjectService.js:295 | defines `{ ...task, ...updates }`: a key present in the update takes its value, an absent key keeps the task's |
| ProjectService.MergeLaws | src/services/api/ProjectService.js:295 | merging an empty update changes nothing; merging the same update twice is merging it once; a status-only update changes only the status |
| ProjectService.FindTaskIndex | src/services/api/ProjectService.js:290 | -1 exactly when no task has the id; otherwise the first index holding the id |
| ProjectService.UpdatedTasks | src/services/api/ProjectService.js:290-295 | fails with TaskNotFound exactly when no task has the id; on success the length is unchanged |
| ProjectService.UpdateReplacesFirstMatch | src/services/api/ProjectService.js:290-295 | only the first task with the id is replaced, by its merge with the update; every other task is unchanged |
| ProjectService.StatusUpdateChangesOnlyStatus | src/services/api/ProjectService.js:299-301 | a status update changes only the status field of the task it hits |
| ProjectService.UpdateTask | src/services/api/ProjectService.js:290-296 | fails exactly when no task has the id, and then changes nothing; otherwise the array equals the updated list |
| ProjectService.UpdateTaskStatus | src/services/api/ProjectService.js:299-301 | is updateTask with `{ status }`: fails as it does; otherwise each slot is unchanged or is the matching task with the new status |
| LevelCard.LevelCardView | src/components/molecules/LevelCard.jsx:9-12 | totals are the list's; completed <= total; progress in [0,100]; an empty list gives 0 and no badge; the badge shows exactly when the list is non-empty and all complete, that is, when progress is 100 |
| LevelCard.LevelCardAgreesWithLevelComplete | src/components/molecules/LevelCard.jsx:12 | for the tasks of a level, the card's badge is the aggregator's level-complete test |
| TaskRow.NextStatus | src/components/molecules/TaskRow.jsx:7 | a next status exists exactly for the three known statuses, and it is known and differs from the current one |
| TaskRow.CycleHasPeriodThree | src/components/molecules/TaskRow.jsx:7 | three clicks return to the original status |
| TaskRow.CompleteWithinTwoClicks | src/components/molecules/TaskRow.jsx:7-13 | complete is reached within two clicks from any known status |
| TaskRow.HandleStatusClick | src/components/molecules/TaskRow.jsx:9-13 | the request carries the task's id and, for a known status, a different status |
| ProjectCard.ProjectCardView | src/components/molecules/ProjectCard.jsx:9-67 | the total is the number of tasks; done <= total; progress is 0 without tasks, in [0,100], and 100 exactly when the project is complete; at most 6 levels; done + working <= total |
| ProjectCard.CardLevelsAreNonEmpty | src/components/molecules/ProjectCard.jsx:13-16 | the completed levels are among the non-empty levels |
| ProjectCard.CardMatchesStats | src/components/molecules/ProjectCard.jsx:10-16 | the card's done count and completed levels are the engine's stats for that single project |
| ProjectDetail.LevelsNumbered | src/components/pages/ProjectDetail.jsx:78-85 | the level table has six rows numbered 1..6 in order |
| ProjectDetail.OverallProgress | src/components/pages/ProjectDetail.jsx:87-89 | 0 without tasks; in [0,100]; 100 exactly when the project is complete |
| ProjectDetail.OverallProgressMatchesCard | src/components/pages/ProjectDetail.jsx:87-89 | the page and the dashboard card show the same progress |
| ProjectDetail.Tally | src/components/pages/ProjectDetail.jsx:171-183 | the three figures sum to at most the number of tasks, and to exactly it when every status is known; completed is the total exactly when all are complete |
| ProjectDetail.LevelTaskLists | src/components/pages/ProjectDetail.jsx:201-210 | six lists, the i-th holding the tasks of level i+1 |
| ProjectDetail.LevelListsDisjoint | src/components/pages/ProjectDetail.jsx:201-210 | no task appears under two levels |
| ProjectDetail.LevelTaskTotal | src/components/pages/ProjectDetail.jsx:201-210 | the per-level lists together hold at most one copy of the task list per level examined |
| ProjectDetail.CountInLevelRange | src/components/pages/ProjectDetail.jsx:201-210 | the number of tasks with a level in 1..6 is at most the number of tasks |
| ProjectDetail.LevelTaskTotalCons | src/components/pages/ProjectDetail.jsx:210 | the first task adds one to the total for each listed level equal to its own |
| ProjectDetail.LevelTaskTotalEmpty | src/components/pages/ProjectDetail.jsx:210 | an empty task list gives empty level lists |
| ProjectDetail.LevelNumberOccurrences | src/components/pages/ProjectDetail.jsx:78-85 | each level 1..6 appears once among the level numbers, any other number never |
| ProjectDetail.LevelListsCover | src/components/pages/ProjectDetail.jsx:201-210 | together the level filters hold exactly the tasks whose level is in 1..6 |
| ProjectDetail.AllInLevelRange | src/components/pages/ProjectDetail.jsx:201-210 | when every task's level is in 1..6, every task is counted as in range |
| ProjectDetail.InstantiatedAllCounted | src/services/api/ProjectService.js:272-280 | tasks generated from a template whose levels are in 1..6 are all counted as in range |
| ProjectDetail.TotalLengthIsLevelTaskTotal | src/components/pages/ProjectDetail.jsx:201-210 | the lists' total length is the sum of the per-level filter sizes |
| ProjectDetail.LevelTaskListsCover | src/components/pages/ProjectDetail.jsx:201-210 | the six lists handed to the level cards hold every task whose level is in 1..6 |
| ProjectDetail.TemplateTasksCovered | src/components/pages/ProjectDetail.jsx:201-210 | for a generated project the six level lists hold all 30 tasks |
| ProjectDetail.BadgeCount | src/components/pages/ProjectDetail.jsx:201-210 | at most one badge per level |
| ProjectDetail.BadgesMatchCompletedLevels | src/components/pages/ProjectDetail.jsx:201-210 | the number of level cards showing the badge is the project's completed-level count |
| Dashboard.TasksCompletedCard | src/components/pages/Dashboard.jsx:134 | the card is at most the number of tasks |
| Dashboard.Cards | src/components/pages/Dashboard.jsx:121-154 | the "Active Projects" card is the number of projects; tasks are bounded by the task count; levels by 6 per project |
| Dashboard.TasksCardIsFlatCount | src/components/pages/Dashboard.jsx:134 | summing per-project complete counts equals counting over all tasks |
| Dashboard.ActiveCountIsLength | src/services/api/AchievementService.js:296 | every project counts as active exactly when each has an incomplete task |
| Dashboard.CardsMatchStats | src/components/pages/Dashboard.jsx:121-154 | the tasks and levels cards equal tasks_completed and levels_completed; the active card is projects_created, and equals active_projects exactly when every project has an incomplete task |
| Dashboard.AddProject | src/components/pages/Dashboard.jsx:49 | the new project is appended; the list grows by one and keeps the old projects in order |
| Dashboard.StatsAfterAdd | src/components/pages/Dashboard.jsx:49 | adding a project with tasks, none complete, raises projects_created and active_projects by one and leaves the other counts unchanged |
| Dashboard.StatsAfterCreate | src/components/pages/Dashboard.jsx:45-56 | creating a project with freshly generated tasks raises projects_created and active_projects by one and leaves tasks, levels and completed projects unchanged |
| Dashboard.RemoveProject | src/components/pages/Dashboard.jsx:72 | the result keeps exactly the projects whose id differs, and never grows |
| Dashboard.RemoveKeepsOrder | src/components/pages/Dashboard.jsx:72 | removal works piecewise over a concatenation, so the remaining projects keep their order |
| Dashboard.RemoveAbsent | src/components/pages/Dashboard.jsx:72 | deleting an id no project has leaves the list unchanged |
| Dashboard.RemoveUndoesAdd | src/components/pages/Dashboard.jsx:49-72 | deleting a just-appended project whose id was new restores the list |

## Left out

- Remote record storage: every call to the record client, the client set-up, the fetches in
  `getAll`, `getById`, `create`, `update` and `delete`, and the fetch at the start of
  `updateTask`. These are network I/O against a library that is not part of this model.
  `updateTask` is modelled on the task list of a project already fetched. Its "Project not
  found" path belongs to the fetch and is not modelled.
- `src/services/api/TaskService.js` is not part of this model. It only maps remote records.
- `getEarnedAchievements` is not modelled. It only copies the list.
- The remote achievement-record methods in `AchievementService.js` are not modelled.
- Random placeholders: `getTodaysCompletedTasks`, `getConsecutiveDays` and the
  `level_completion_time` coin are parameters. `CheckAchievements` takes one draw per call.
  The catalog has a single rule of that kind, so this is the same as one draw per rule.
- Time: `earnedAt` and `createdAt` come from the clock. `earnedAt` is a parameter, one value
  per call. `createdAt` is an opaque string.
- Local storage: the write after each unlock is not modelled. The list read at start-up is the
  constructor's argument.
- Asynchrony: `await this.delay()`, React state setters, toasts and timers are not modelled.
  `delay` is not defined in the service class. As written, the three async methods that call
  it would fail before doing any work. The model describes what they do once past that call.
- Floating point: percentages, progress ratios and `Math.min` are exact `real`s. `Math.round`
  only affects display and is left out.
- Rendering-only components and the form modals are not modelled. The modals' only logic is a
  non-empty name guard and field copying.
- ProjectService.Merge: a key present in the update with the value `undefined` is treated as
  absent. JavaScript's spread would copy the `undefined`. Keys that are not task fields are
  not modelled.
- TaskRow.NextStatus: inherited property names are treated as unknown. `statusCycle` is an
  object literal, so a status such as `constructor`, `toString`, `valueOf` or `__proto__`
  yields an inherited value rather than `undefined`. The model returns `None` for every status
  other than the three. The application itself only writes those three.
- Persistence of task edits: every fetch regenerates pending tasks, so an `updateTask`
  result is never persisted. The model states what one call does to the list it is given.
- AchievementService.AchievementEngine.UnlockAchievement: no-duplicates is stated as "if the
  list had none before, it has none after". The list read from local storage is arbitrary, so
  the source does not promise it outright.
- AchievementService.ComputeStats: `tasks_completed_daily` and `consecutive_days` are whatever
  the placeholders return. The model asserts nothing about them.
