/** The progress aggregator: the counts and completion tests that the achievement
    engine and every view compute over a task list. Each is stated once here;
    the views and the engine use these definitions. */
module Progress {
  import opened Model

  /** Number of tasks whose status is `s`. */
  function CountStatus(ts: seq<Task>, s: Status): (n: nat)
    ensures n <= |ts|
    ensures n == 0 <==> forall i :: 0 <= i < |ts| ==> ts[i].status != s
  {
    if ts == [] then 0
    else (if ts[0].status == s then 1 else 0) + CountStatus(ts[1..], s)
  }

  lemma {:induction false} CountStatusAppend(a: seq<Task>, b: seq<Task>, s: Status)
    ensures CountStatus(a + b, s) == CountStatus(a, s) + CountStatus(b, s)
  {
    if a == [] {
      assert a + b == b;
    } else {
      assert (a + b)[1..] == a[1..] + b;
      CountStatusAppend(a[1..], b, s);
    }
  }

  /** Every task is complete (`tasks.every(t => t.status === 'complete')`). */
  predicate AllComplete(ts: seq<Task>) {
    forall i :: 0 <= i < |ts| ==> ts[i].status == Complete
  }

  /** Every task carries one of the three known statuses. */
  predicate AllKnown(ts: seq<Task>) {
    forall i :: 0 <= i < |ts| ==> IsKnown(ts[i].status)
  }

  /** "Every task is complete" and "the complete count is the length" are the same test. */
  lemma {:induction false} AllCompleteIffCount(ts: seq<Task>)
    ensures AllComplete(ts) <==> CountStatus(ts, Complete) == |ts|
  {
    if ts != [] {
      AllCompleteIffCount(ts[1..]);
      if AllComplete(ts) {
        assert AllComplete(ts[1..]) by {
          forall i | 0 <= i < |ts[1..]| ensures ts[1..][i].status == Complete {
            assert ts[1..][i] == ts[i + 1];
          }
        }
      }
      if CountStatus(ts, Complete) == |ts| {
        assert ts[0].status == Complete;
        forall i | 0 <= i < |ts| ensures ts[i].status == Complete {
          if i > 0 { assert ts[i] == ts[1..][i - 1]; }
        }
      }
    }
  }

  /** The complete, working and pending counts never exceed the number of tasks, and
      they add up to it exactly when every status is one of the three. */
  lemma {:induction false} StatusCountsPartition(ts: seq<Task>)
    ensures CountStatus(ts, Complete) + CountStatus(ts, Working) + CountStatus(ts, Pending) <= |ts|
    ensures CountStatus(ts, Complete) + CountStatus(ts, Working) + CountStatus(ts, Pending) == |ts|
            <==> AllKnown(ts)
  {
    if ts != [] {
      StatusCountsPartition(ts[1..]);
      if AllKnown(ts) {
        assert AllKnown(ts[1..]) by {
          forall i | 0 <= i < |ts[1..]| ensures IsKnown(ts[1..][i].status) {
            assert ts[1..][i] == ts[i + 1];
          }
        }
      }
      if AllKnown(ts[1..]) && IsKnown(ts[0].status) {
        forall i | 0 <= i < |ts| ensures IsKnown(ts[i].status) {
          if i > 0 { assert ts[i] == ts[1..][i - 1]; }
        }
      }
    }
  }

  /** The tasks at one level, in their original order
      (`tasks.filter(t => t.level === level)`). */
  function TasksAtLevel(ts: seq<Task>, level: int): (r: seq<Task>)
    ensures |r| <= |ts|
    ensures forall t :: t in r ==> t in ts && t.level == level
    ensures forall t :: t in ts && t.level == level ==> t in r
  {
    if ts == [] then []
    else if ts[0].level == level then [ts[0]] + TasksAtLevel(ts[1..], level)
    else TasksAtLevel(ts[1..], level)
  }

  /** A level is complete when it has at least one task and all of them are complete. */
  predicate LevelComplete(ts: seq<Task>, level: int): (b: bool)
    ensures b <==> (exists i :: 0 <= i < |ts| && ts[i].level == level) &&
                   (forall i :: 0 <= i < |ts| && ts[i].level == level ==> ts[i].status == Complete)
  {
    var lt := TasksAtLevel(ts, level);
    assert forall i :: 0 <= i < |ts| && ts[i].level == level ==> ts[i] in lt;
    assert |lt| > 0 ==> exists i :: 0 <= i < |ts| && ts[i].level == level by {
      if |lt| > 0 {
        assert lt[0] in ts;
        var i :| 0 <= i < |ts| && ts[i] == lt[0];
        assert ts[i].level == level;
      }
    }
    assert (forall i :: 0 <= i < |ts| && ts[i].level == level ==> ts[i].status == Complete)
           ==> AllComplete(lt) by {
      forall j | 0 <= j < |lt|
        ensures (forall i :: 0 <= i < |ts| && ts[i].level == level ==> ts[i].status == Complete)
                ==> lt[j].status == Complete
      {
        assert lt[j] in ts;
        var i :| 0 <= i < |ts| && ts[i] == lt[j];
      }
    }
    |lt| > 0 && AllComplete(lt)
  }

  /** The six level numbers every project is organised in. */
  const LevelNumbers: seq<int> := [1, 2, 3, 4, 5, 6]

  /** How many of `levels` are complete in `ts`. */
  function CountCompleteLevels(ts: seq<Task>, levels: seq<int>): (n: nat)
    ensures n <= |levels|
  {
    if levels == [] then 0
    else (if LevelComplete(ts, levels[0]) then 1 else 0) + CountCompleteLevels(ts, levels[1..])
  }

  /** How many of `levels` have at least one task in `ts`. */
  function CountNonEmptyLevels(ts: seq<Task>, levels: seq<int>): (n: nat)
    ensures n <= |levels|
  {
    if levels == [] then 0
    else (if TasksAtLevel(ts, levels[0]) != [] then 1 else 0) + CountNonEmptyLevels(ts, levels[1..])
  }

  /** Number of complete levels among 1..6. */
  function CompletedLevels(ts: seq<Task>): (n: nat)
    ensures n <= 6
  {
    CountCompleteLevels(ts, LevelNumbers)
  }

  /** A level with no tasks is never counted: the complete levels are among the
      non-empty ones. */
  lemma {:induction false} CompleteLevelsAreNonEmpty(ts: seq<Task>, levels: seq<int>)
    ensures CountCompleteLevels(ts, levels) <= CountNonEmptyLevels(ts, levels)
  {
    if levels != [] {
      CompleteLevelsAreNonEmpty(ts, levels[1..]);
    }
  }

  /** A project is complete when it has at least one task and every task is complete. */
  predicate ProjectComplete(ts: seq<Task>): (b: bool)
    ensures b <==> |ts| > 0 && CountStatus(ts, Complete) == |ts|
  {
    AllCompleteIffCount(ts);
    |ts| > 0 && AllComplete(ts)
  }

  /** Some task is not complete (`tasks.some(t => t.status !== 'complete')`). */
  predicate HasIncomplete(ts: seq<Task>): (b: bool)
    ensures b <==> CountStatus(ts, Complete) < |ts|
  {
    AllCompleteIffCount(ts);
    exists i :: 0 <= i < |ts| && ts[i].status != Complete
  }

  /** A project with tasks is either complete or has an incomplete task, never both;
      a project without tasks is neither. */
  lemma CompleteOrIncomplete(ts: seq<Task>)
    ensures !(ProjectComplete(ts) && HasIncomplete(ts))
    ensures |ts| > 0 <==> ProjectComplete(ts) || HasIncomplete(ts)
  {
  }

  /** `total > 0 ? (done / total) * 100 : 0`, over exact reals. */
  function Percent(done: nat, total: nat): (p: real)
    ensures total == 0 ==> p == 0.0
    ensures done <= total ==> 0.0 <= p <= 100.0
    ensures total > 0 ==> (p == 100.0 <==> done == total)
  {
    if total > 0 then
      var q := done as real / total as real;
      assert q * total as real == done as real;
      assert done <= total ==> q <= 1.0;
      assert q == 1.0 <==> done == total;
      q * 100.0
    else 0.0
  }
}
