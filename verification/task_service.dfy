/**
 * `TaskService`: task operations over the database tables, scoped by the
 * calling user. The one piece of logic beyond lookups is the completion
 * stamp: `completedAt` is set to the clock when an update moves a task
 * into DONE from another status, and is otherwise carried over unchanged.
 */
module TaskService {
  import opened Wrappers
  import opened Listing
  import opened Domain
  import opened Js
  import opened Db
  import Store

  // ---------------------------------------------------------------------
  // createTask.
  // ---------------------------------------------------------------------

  /** The fields `createTask` accepts. */
  datatype NewTask = NewTask(
    title: string,
    description: Option<string>,
    status: Option<TaskStatus>,
    priority: Option<Priority>,
    projectId: Option<string>,
    dueDate: Option<int>)

  /**
   * Creates a task for the user; status and priority left out take the
   * column defaults. No completion stamp is set, even for a task created as DONE.
   */
  method CreateTask(db: Database, userId: string, data: NewTask, now: int, id: string) returns (t: Task)
    requires db.Valid() && KeyFree(db.tasks, TaskKey, id)
    modifies db`tasks
    ensures db.Valid()
    ensures db.tasks == old(db.tasks) + [t]
    ensures t == Task(id, data.title, data.description, data.status.GetOr(db.defaults.status),
                      data.priority.GetOr(db.defaults.priority), data.projectId, userId, data.dueDate,
                      None, now, now)
  {
    t := Task(id, data.title, data.description, data.status.GetOr(db.defaults.status),
              data.priority.GetOr(db.defaults.priority), data.projectId, userId, data.dueDate,
              None, now, now);
    KeysDistinctAppend(db.tasks, TaskKey, t);
    db.tasks := db.tasks + [t];
  }

  // ---------------------------------------------------------------------
  // updateTask and the completion stamp.
  // ---------------------------------------------------------------------

  /** The fields `updateTask` accepts; `None` is a field left out. */
  datatype TaskChanges = TaskChanges(
    title: Option<string>,
    description: Option<string>,
    status: Option<TaskStatus>,
    priority: Option<Priority>,
    projectId: Option<string>,
    dueDate: Option<int>)

  /** The update moves the task into DONE from another status. */
  predicate EntersDone(t: Task, d: TaskChanges) {
    d.status == Some(Done) && t.status != Done
  }

  /** `{ ...task, ...data, completedAt }` with the stamp taken at `now` on entering DONE. */
  function ApplyTaskChanges(t: Task, d: TaskChanges, now: int): (r: Task)
    ensures r.id == t.id && r.userId == t.userId && r.createdAt == t.createdAt
    ensures EntersDone(t, d) ==> r.completedAt == Some(now)
    ensures r.completedAt != t.completedAt ==> EntersDone(t, d)
    ensures Spread(d.title, t.title, r.title)
    ensures SpreadOptional(d.description, t.description, r.description)
    ensures Spread(d.status, t.status, r.status)
    ensures Spread(d.priority, t.priority, r.priority)
    ensures SpreadOptional(d.projectId, t.projectId, r.projectId)
    ensures SpreadOptional(d.dueDate, t.dueDate, r.dueDate)
  {
    t.(title := d.title.GetOr(t.title),
       description := Override(d.description, t.description),
       status := d.status.GetOr(t.status),
       priority := d.priority.GetOr(t.priority),
       projectId := Override(d.projectId, t.projectId),
       dueDate := Override(d.dueDate, t.dueDate),
       completedAt := if EntersDone(t, d) then Some(now) else t.completedAt)
  }

  /** Leaving DONE does not clear the completion stamp. */
  lemma CompletionStampOnEdge(t: Task, d: TaskChanges, now: int)
    ensures t.status == Done && d.status.Some? && d.status != Some(Done) ==>
      ApplyTaskChanges(t, d, now).completedAt == t.completedAt && ApplyTaskChanges(t, d, now).status != Done
  {
  }

  /** An update with its clock reading. */
  datatype TimedChanges = TimedChanges(changes: TaskChanges, at: int)

  /** A series of updates applied in order. */
  function ApplyAll(t: Task, run: seq<TimedChanges>): Task
    decreases |run|
  {
    if |run| == 0 then t else ApplyAll(ApplyTaskChanges(t, run[0].changes, run[0].at), run[1..])
  }

  /** Updates that never take a task out of DONE. */
  predicate StaysDone(run: seq<TimedChanges>) {
    forall k :: 0 <= k < |run| ==> run[k].changes.status in {None, Some(Done)}
  }

  /**
   * Once DONE, a task keeps its completion stamp through any number of
   * updates that leave it DONE, repeated DONE updates included.
   */
  lemma {:induction false} CompletedAtSticks(t: Task, run: seq<TimedChanges>)
    requires t.status == Done
    requires StaysDone(run)
    ensures ApplyAll(t, run).status == Done
    ensures ApplyAll(t, run).completedAt == t.completedAt
    decreases |run|
  {
    if |run| > 0 {
      var t' := ApplyTaskChanges(t, run[0].changes, run[0].at);
      assert t'.status == Done && t'.completedAt == t.completedAt;
      assert StaysDone(run[1..]) by {
        forall k | 0 <= k < |run[1..]| ensures run[1..][k].changes.status in {None, Some(Done)} {
          assert run[1..][k] == run[k + 1];
        }
      }
      CompletedAtSticks(t', run[1..]);
    }
  }

  /**
   * A task created as DONE is never stamped by updates that keep it DONE:
   * the edge into DONE never happens.
   */
  lemma CreatedDoneNeverStamped(t: Task, run: seq<TimedChanges>)
    requires t.status == Done && t.completedAt.None?
    requires StaysDone(run)
    ensures ApplyAll(t, run).completedAt.None?
  {
    CompletedAtSticks(t, run);
  }

  /**
   * Leaving DONE and coming back stamps the task again with the later time:
   * the stamp is the time of the most recent entry into DONE, not of the first.
   */
  lemma ReenteringDoneRestamps(t: Task, away: TaskStatus, t1: int, t2: int)
    requires t.status == Done && away != Done
    ensures
      var leave := TimedChanges(TaskChanges(None, None, Some(away), None, None, None), t1);
      var back := TimedChanges(TaskChanges(None, None, Some(Done), None, None, None), t2);
      ApplyAll(t, [leave, back]).completedAt == Some(t2)
  {
    var leave := TimedChanges(TaskChanges(None, None, Some(away), None, None, None), t1);
    var back := TimedChanges(TaskChanges(None, None, Some(Done), None, None, None), t2);
    var mid := ApplyTaskChanges(t, leave.changes, t1);
    assert mid.status == away;
    var last := ApplyTaskChanges(mid, back.changes, t2);
    assert EntersDone(mid, back.changes);
    assert last.completedAt == Some(t2);
    assert [leave, back][1..] == [back];
    assert [back][1..] == [];
    assert ApplyAll(last, []) == last;
    assert ApplyAll(mid, [back]) == ApplyAll(last, []);
    assert ApplyAll(t, [leave, back]) == ApplyAll(mid, [back]);
  }

  /**
   * The in-memory store stamps completion by the same rule: given the same
   * fields and clock, its update agrees with the service's on every field
   * except `updatedAt`, which the store sets and the service leaves to the database.
   */
  lemma StoreAndServiceStampAlike(t: Task, d: TaskChanges, now: int)
    ensures Store.MergeTask(t, Store.TaskFields(None, None, d.title, d.description, d.status, d.priority, d.projectId,
                                                None, d.dueDate, None), now)
            == ApplyTaskChanges(t, d, now).(updatedAt := now)
  {
  }

  /** Updates one of the user's tasks. */
  method UpdateTask(db: Database, userId: string, taskId: string, d: TaskChanges, now: int) returns (r: Result<Task>)
    requires db.Valid()
    modifies db`tasks
    ensures db.Valid()
    ensures r.Err? <==> forall k :: 0 <= k < |old(db.tasks)| ==> !TaskOwned(taskId, userId)(old(db.tasks)[k])
    ensures r.Err? ==> r.error == TaskNotFound && db.tasks == old(db.tasks)
    ensures r.Ok? ==>
      var i := FindIndex(old(db.tasks), TaskOwned(taskId, userId));
      r.value == ApplyTaskChanges(old(db.tasks)[i], d, now) && db.tasks == old(db.tasks)[i := r.value]
  {
    var i := FindIndex(db.tasks, TaskOwned(taskId, userId));
    if i == -1 {
      return Err(TaskNotFound);
    }
    var task := db.tasks[i];
    var completedAt := if d.status == Some(Done) && task.status != Done then Some(now) else task.completedAt;
    var updated := task.(title := d.title.GetOr(task.title),
                         description := Override(d.description, task.description),
                         status := d.status.GetOr(task.status),
                         priority := d.priority.GetOr(task.priority),
                         projectId := Override(d.projectId, task.projectId),
                         dueDate := Override(d.dueDate, task.dueDate),
                         completedAt := completedAt);
    var j := FindIndex(db.tasks, TaskIdIs(taskId));
    assert j == i;
    KeysDistinctReplace(db.tasks, TaskKey, j, updated);
    db.tasks := db.tasks[j := updated];
    r := Ok(updated);
  }

  // ---------------------------------------------------------------------
  // deleteTask / getTask.
  // ---------------------------------------------------------------------

  /** Deletes one of the user's tasks and returns it as it was. */
  method DeleteTask(db: Database, userId: string, taskId: string) returns (r: Result<Task>)
    requires db.Valid()
    modifies db`tasks
    ensures db.Valid()
    ensures r.Err? <==> forall k :: 0 <= k < |old(db.tasks)| ==> !TaskOwned(taskId, userId)(old(db.tasks)[k])
    ensures r.Err? ==> r.error == TaskNotFound && db.tasks == old(db.tasks)
    ensures r.Ok? ==>
      var i := FindIndex(old(db.tasks), TaskOwned(taskId, userId));
      r.value == old(db.tasks)[i] && db.tasks == RemoveAt(old(db.tasks), i)
    ensures r.Ok? ==> KeyFree(db.tasks, TaskKey, taskId)
  {
    var i := FindIndex(db.tasks, TaskOwned(taskId, userId));
    if i == -1 {
      return Err(TaskNotFound);
    }
    var task := db.tasks[i];
    var j := FindIndex(db.tasks, TaskIdIs(taskId));
    assert j == i;
    KeysDistinctRemove(db.tasks, TaskKey, j);
    db.tasks := RemoveAt(db.tasks, j);
    r := Ok(task);
  }

  /** A task with its related rows: its project and its time entries, newest first. */
  datatype TaskDetail = TaskDetail(task: Task, project: Option<Project>, timeEntries: seq<TimeEntry>)

  function EntryOfTask(taskId: string): TimeEntry -> bool {
    (e: TimeEntry) => e.taskId == Some(taskId)
  }

  /** The project a row refers to, if it exists (a relation include). */
  function RelatedProject(projects: seq<Project>, projectId: Option<string>): (r: Option<Project>)
    ensures r.Some? ==> r.value in projects && Some(r.value.id) == projectId
    ensures projectId.Some? && (exists k :: 0 <= k < |projects| && projects[k].id == projectId.value) ==> r.Some?
  {
    if projectId.None? then None else FindFirst(projects, ProjectIdIs(projectId.value))
  }

  /**
   * One of the user's tasks with its relations; another user's task is
   * reported as not found. The time entries are all those referring to the
   * task, in start-time order.
   */
  function GetTask(db: Database, userId: string, taskId: string): (r: Result<TaskDetail>)
    reads db
    ensures r.Err? <==> forall k :: 0 <= k < |db.tasks| ==> !TaskOwned(taskId, userId)(db.tasks[k])
    ensures r.Err? ==> r.error == TaskNotFound
    ensures r.Ok? ==> r.value.task in db.tasks && r.value.task.id == taskId && r.value.task.userId == userId
    ensures r.Ok? ==> SortedBy(r.value.timeEntries, StartTimeDesc)
    ensures r.Ok? ==> multiset(r.value.timeEntries) == multiset(Filter(db.entries, EntryOfTask(taskId)))
    ensures r.Ok? ==> r.value.project == RelatedProject(db.projects, r.value.task.projectId)
    ensures r.Ok? && r.value.project.Some? ==>
              r.value.project.value in db.projects && Some(r.value.project.value.id) == r.value.task.projectId
    ensures r.Ok? && r.value.task.projectId.Some? &&
            (exists k :: 0 <= k < |db.projects| && db.projects[k].id == r.value.task.projectId.value) ==>
              r.value.project.Some?
  {
    match FindFirst(db.tasks, TaskOwned(taskId, userId))
    case None => Err(TaskNotFound)
    case Some(task) =>
      NewestFirstOrders();
      SortBySorted(Filter(db.entries, EntryOfTask(task.id)), StartTimeDesc);
      Ok(TaskDetail(task, RelatedProject(db.projects, task.projectId),
                    SortBy(Filter(db.entries, EntryOfTask(task.id)), StartTimeDesc)))
  }

  // ---------------------------------------------------------------------
  // getTasks.
  // ---------------------------------------------------------------------

  /**
   * `orderBy: [{ status: 'asc' }, { priority: 'desc' }, { createdAt: 'desc' }]`:
   * by status rank, then highest priority rank first, then newest first.
   * The ranks are the database's order of the enumeration values, which
   * the schema fixes.
   */
  function TaskListOrder(statusRank: TaskStatus -> int, priorityRank: Priority -> int): (Task, Task) -> bool {
    (a: Task, b: Task) =>
      || statusRank(a.status) < statusRank(b.status)
      || (statusRank(a.status) == statusRank(b.status)
          && (|| priorityRank(a.priority) > priorityRank(b.priority)
              || (priorityRank(a.priority) == priorityRank(b.priority) && a.createdAt >= b.createdAt)))
  }

  lemma TaskListOrderIsTotal(statusRank: TaskStatus -> int, priorityRank: Priority -> int)
    ensures TotalPreorder(TaskListOrder(statusRank, priorityRank))
  {
  }

  /** The optional filters of `getTasks`. */
  datatype TaskOptions = TaskOptions(status: Option<TaskStatus>, projectId: Option<string>, priority: Option<Priority>)

  /** The `where` object the service assembles. */
  datatype TaskWhere = TaskWhere(userId: string, status: Option<TaskStatus>, projectId: Option<string>,
                                 priority: Option<Priority>)

  function TaskWhereMatches(w: TaskWhere): Task -> bool {
    (t: Task) =>
      && t.userId == w.userId
      && (w.status.Some? ==> t.status == w.status.value)
      && (w.projectId.Some? ==> t.projectId == w.projectId)
      && (w.priority.Some? ==> t.priority == w.priority.value)
  }

  /** Which tasks `getTasks` is meant to return; an empty project id filters nothing. */
  function TaskWanted(userId: string, o: TaskOptions): Task -> bool {
    (t: Task) =>
      && t.userId == userId
      && (o.status.Some? ==> t.status == o.status.value)
      && (Truthy(o.projectId) ==> t.projectId == o.projectId)
      && (o.priority.Some? ==> t.priority == o.priority.value)
  }

  /** All of the user's tasks matching the options, in list order. */
  method GetTasks(db: Database, userId: string, o: TaskOptions,
                  statusRank: TaskStatus -> int, priorityRank: Priority -> int) returns (r: seq<Task>)
    ensures forall i :: 0 <= i < |r| ==> r[i] in db.tasks && TaskWanted(userId, o)(r[i])
    ensures SortedBy(r, TaskListOrder(statusRank, priorityRank))
    ensures multiset(r) == multiset(Filter(db.tasks, TaskWanted(userId, o)))
  {
    var where := TaskWhere(userId, None, None, None);
    if o.status.Some? { where := where.(status := o.status); }
    if Truthy(o.projectId) { where := where.(projectId := o.projectId); }
    if o.priority.Some? { where := where.(priority := o.priority); }

    var all := db.tasks;
    FilterAgree(all, TaskWhereMatches(where), TaskWanted(userId, o));
    var order := TaskListOrder(statusRank, priorityRank);
    r := Sort(Filter(all, TaskWhereMatches(where)), order);
    TaskListOrderIsTotal(statusRank, priorityRank);
    PrefixOfSortedFilter(all, TaskWanted(userId, o), order, r);
  }

  /**
   * With the enumeration ranked in declaration order, every task still to
   * do comes before every finished or cancelled one, and among tasks of
   * one status the more urgent come first.
   */
  lemma OpenTasksFirst(r: seq<Task>, statusRank: TaskStatus -> int, priorityRank: Priority -> int, i: nat, j: nat)
    requires statusRank(Todo) < statusRank(InProgress) < statusRank(Done) < statusRank(Cancelled)
    requires SortedBy(r, TaskListOrder(statusRank, priorityRank))
    requires i < |r| && j < |r|
    ensures r[i].status in {Todo, InProgress} && r[j].status in {Done, Cancelled} ==> i < j
    ensures i < j && r[i].status == r[j].status ==> priorityRank(r[i].priority) >= priorityRank(r[j].priority)
  {
  }
}
