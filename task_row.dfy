/** The task row: clicking a task's status pill asks for the next status in the cycle
    pending -> working -> complete -> pending. */
module TaskRow {
  import opened Model

  /** The status-cycle table. Every status other than the three has no successor
      (`undefined`); names the object literal inherits are not told apart. */
  function NextStatus(s: Status): (r: Option<Status>)
    ensures r.Some? <==> IsKnown(s)
    ensures r.Some? ==> IsKnown(r.value) && r.value != s
  {
    match s
    case Pending => Some(Working)
    case Working => Some(Complete)
    case Complete => Some(Pending)
    case Other(_) => None
  }

  /** Three clicks bring a status back to where it started. */
  lemma CycleHasPeriodThree(s: Status)
    requires IsKnown(s)
    ensures var s1 := NextStatus(s).value;
            var s2 := NextStatus(s1).value;
            NextStatus(s2) == Some(s)
  {
  }

  /** From any known status, `complete` is at most two clicks away. */
  lemma CompleteWithinTwoClicks(s: Status)
    requires IsKnown(s)
    ensures s == Complete || NextStatus(s) == Some(Complete) ||
            NextStatus(NextStatus(s).value) == Some(Complete)
  {
  }

  /** The request a click sends up: the task's id and its next status. */
  datatype StatusChange = StatusChange(taskId: int, status: Option<Status>)

  /** `handleStatusClick`. */
  function HandleStatusClick(t: Task): (c: StatusChange)
    ensures c.taskId == t.id
    ensures IsKnown(t.status) ==> c.status.Some? && c.status.value != t.status
  {
    StatusChange(t.id, NextStatus(t.status))
  }
}
