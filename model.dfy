/** Value types shared by the services and the views: task status, tasks and projects. */
module Model {

  datatype Option<+T> = None | Some(value: T)

  datatype Result<+T, +E> = Success(value: T) | Failure(error: E)

  /** The outcome of an operation that changes state in place and may fail. */
  datatype Outcome<+E> = Pass | Fail(error: E)

  /** A task's status. The application itself only writes `pending`, `working` and
      `complete`; a record fetched from the remote store may carry any other string,
      which `Other` stands for. The `text` of an `Other` is never one of those three
      names: a status with one of them is always `Pending`, `Working` or `Complete`. */
  datatype Status = Pending | Working | Complete | Other(text: string)

  /** One of the three statuses the application knows. */
  predicate IsKnown(s: Status) {
    s == Pending || s == Working || s == Complete
  }

  /** A checklist item of a project. `dueDate` is `null` (None) or a date string. */
  datatype Task = Task(
    id: int,
    name: string,
    level: int,
    assignedTo: string,
    status: Status,
    dueDate: Option<string>,
    notes: string)

  /** A project as the views receive it: its record fields and its ordered task list. */
  datatype Project = Project(
    id: int,
    name: string,
    description: string,
    createdAt: string,
    tags: string,
    tasks: seq<Task>)
}
