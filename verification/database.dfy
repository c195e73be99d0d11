/**
 * The persistent tables behind the three services: time entries, tasks and
 * projects, each keyed by a unique id, with the column defaults the schema
 * supplies when a service leaves a field out. Services scope every lookup by
 * `(id, userId)`, so another user's row looks exactly like a missing one.
 */
module Db {
  import opened Wrappers
  import opened Listing
  import opened Domain

  /** What the schema fills in for fields a `create` leaves out. */
  datatype ColumnDefaults = ColumnDefaults(
    isManual: bool,
    status: TaskStatus,
    priority: Priority,
    color: string,
    isArchived: bool)

  /** The errors the services throw, one per message. */
  datatype ServiceError = ActiveTimerExists | NoActiveTimer | TimeEntryNotFound | TaskNotFound | ProjectNotFound {
    function Message(): string {
      match this
      case ActiveTimerExists => "You already have an active timer. Stop it first."
      case NoActiveTimer => "No active timer found"
      case TimeEntryNotFound => "Time entry not found"
      case TaskNotFound => "Task not found"
      case ProjectNotFound => "Project not found"
    }
  }

  datatype Result<+T> = Ok(value: T) | Err(error: ServiceError)

  function EntryKey(e: TimeEntry): string { e.id }
  function TaskKey(t: Task): string { t.id }
  function ProjectKey(p: Project): string { p.id }

  class Database {
    const defaults: ColumnDefaults
    var entries: seq<TimeEntry>
    var tasks: seq<Task>
    var projects: seq<Project>

    /** Ids are primary keys. */
    ghost predicate Valid()
      reads this
    {
      && KeysDistinct(entries, EntryKey)
      && KeysDistinct(tasks, TaskKey)
      && KeysDistinct(projects, ProjectKey)
    }

    constructor (defaults: ColumnDefaults)
      ensures Valid() && this.defaults == defaults
      ensures entries == [] && tasks == [] && projects == []
    {
      this.defaults := defaults;
      entries, tasks, projects := [], [], [];
    }
  }

  // `where: { id }`: how `update` and `delete` address a row once ownership
  // has been checked.

  function EntryIdIs(id: string): TimeEntry -> bool { (e: TimeEntry) => e.id == id }
  function TaskIdIs(id: string): Task -> bool { (t: Task) => t.id == id }
  function ProjectIdIs(id: string): Project -> bool { (p: Project) => p.id == id }

  // `where: { id, userId }`, `where: { userId, endTime: null }` and friends.

  function EntryOwned(id: string, user: string): TimeEntry -> bool {
    (e: TimeEntry) => e.id == id && e.userId == user
  }
  function OpenEntryOf(user: string): TimeEntry -> bool {
    (e: TimeEntry) => e.userId == user && e.IsOpen()
  }
  function OpenEntryOwned(id: string, user: string): TimeEntry -> bool {
    (e: TimeEntry) => e.id == id && e.userId == user && e.IsOpen()
  }
  function TaskOwned(id: string, user: string): Task -> bool {
    (t: Task) => t.id == id && t.userId == user
  }
  function ProjectOwned(id: string, user: string): Project -> bool {
    (p: Project) => p.id == id && p.userId == user
  }

  function EntryOf(user: string): TimeEntry -> bool { (e: TimeEntry) => e.userId == user }
  function TaskOf(user: string): Task -> bool { (t: Task) => t.userId == user }
  function ProjectOf(user: string): Project -> bool { (p: Project) => p.userId == user }

  /**
   * Scoping: an ownership lookup sees only the caller's rows. Two tables
   * that hold the same rows for `user` answer alike, whatever the other
   * users' rows are.
   */
  lemma TaskLookupIsScoped(a: seq<Task>, b: seq<Task>, id: string, user: string)
    requires Filter(a, TaskOf(user)) == Filter(b, TaskOf(user))
    ensures FindFirst(a, TaskOwned(id, user)) == FindFirst(b, TaskOwned(id, user))
  {
    FindFirstWithin(a, TaskOwned(id, user), TaskOf(user));
    FindFirstWithin(b, TaskOwned(id, user), TaskOf(user));
  }

  lemma EntryLookupIsScoped(a: seq<TimeEntry>, b: seq<TimeEntry>, id: string, user: string)
    requires Filter(a, EntryOf(user)) == Filter(b, EntryOf(user))
    ensures FindFirst(a, EntryOwned(id, user)) == FindFirst(b, EntryOwned(id, user))
    ensures FindFirst(a, OpenEntryOwned(id, user)) == FindFirst(b, OpenEntryOwned(id, user))
  {
    FindFirstWithin(a, EntryOwned(id, user), EntryOf(user));
    FindFirstWithin(b, EntryOwned(id, user), EntryOf(user));
    FindFirstWithin(a, OpenEntryOwned(id, user), EntryOf(user));
    FindFirstWithin(b, OpenEntryOwned(id, user), EntryOf(user));
  }

  lemma ProjectLookupIsScoped(a: seq<Project>, b: seq<Project>, id: string, user: string)
    requires Filter(a, ProjectOf(user)) == Filter(b, ProjectOf(user))
    ensures FindFirst(a, ProjectOwned(id, user)) == FindFirst(b, ProjectOwned(id, user))
  {
    FindFirstWithin(a, ProjectOwned(id, user), ProjectOf(user));
    FindFirstWithin(b, ProjectOwned(id, user), ProjectOf(user));
  }
}
