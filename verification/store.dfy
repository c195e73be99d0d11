/**
 * The in-memory entity store: three arrays of time entries, tasks and
 * projects that `timeStore`, `taskStore` and `projectStore` change in place
 * (`push`, index assignment, `splice`), and `statsHelper`, which reads them.
 *
 * JavaScript's `||` defaults are modelled as written: an empty string counts
 * as missing, so `userId: ''` becomes "demo-user" and an empty project or task
 * filter is no filter at all.
 */
module Store {
  import opened Wrappers
  import opened Listing
  import opened Domain
  import opened Js

  const DemoUser := "demo-user"
  const DefaultProjectColor := "#3B82F6"

  /**
   * The fields a caller may supply for a time entry (`Partial<TimeEntry>`).
   * `id` and `createdAt` are among them: `create` ignores both, but the
   * spread of `update` copies them over the stored record like any other key.
   */
  datatype EntryFields = EntryFields(
    id: Option<string>,
    createdAt: Option<int>,
    description: Option<string>,
    startTime: Option<int>,
    endTime: Option<int>,
    duration: Option<int>,
    userId: Option<string>,
    taskId: Option<string>,
    projectId: Option<string>,
    isManual: Option<bool>)

  datatype TaskFields = TaskFields(
    id: Option<string>,
    createdAt: Option<int>,
    title: Option<string>,
    description: Option<string>,
    status: Option<TaskStatus>,
    priority: Option<Priority>,
    projectId: Option<string>,
    userId: Option<string>,
    dueDate: Option<int>,
    completedAt: Option<int>)

  datatype ProjectFields = ProjectFields(
    id: Option<string>,
    createdAt: Option<int>,
    name: Option<string>,
    description: Option<string>,
    color: Option<string>,
    isArchived: Option<bool>,
    userId: Option<string>)

  datatype EntryQuery = EntryQuery(
    startDate: Option<int>,
    endDate: Option<int>,
    projectId: Option<string>,
    taskId: Option<string>,
    limit: Option<int>)

  datatype TaskQuery = TaskQuery(status: Option<TaskStatus>, priority: Option<Priority>, projectId: Option<string>)

  datatype ProjectSummary = ProjectSummary(
    project: Project,
    totalTime: int,
    tasksCount: nat,
    completedTasks: nat,
    timeEntries: seq<TimeEntry>)

  const NoEntryFields := EntryFields(None, None, None, None, None, None, None, None, None, None)

  /**
   * `{ ...e, ...d, updatedAt: now }`: every supplied key replaces the stored
   * one, `id` and `createdAt` included, and the update time is always now.
   */
  function MergeEntry(e: TimeEntry, d: EntryFields, now: int): (r: TimeEntry)
    ensures r.id == d.id.GetOr(e.id) && r.createdAt == d.createdAt.GetOr(e.createdAt)
    ensures d.id.None? && d.createdAt.None? ==> r.id == e.id && r.createdAt == e.createdAt
    ensures r.updatedAt == now
    ensures d == NoEntryFields ==> r == e.(updatedAt := now)
    ensures SpreadOptional(d.description, e.description, r.description)
    ensures Spread(d.startTime, e.startTime, r.startTime)
    ensures SpreadOptional(d.endTime, e.endTime, r.endTime)
    ensures SpreadOptional(d.duration, e.duration, r.duration)
    ensures Spread(d.userId, e.userId, r.userId)
    ensures SpreadOptional(d.taskId, e.taskId, r.taskId)
    ensures SpreadOptional(d.projectId, e.projectId, r.projectId)
    ensures Spread(d.isManual, e.isManual, r.isManual)
  {
    e.(id := d.id.GetOr(e.id),
       description := Override(d.description, e.description),
       startTime := d.startTime.GetOr(e.startTime),
       endTime := Override(d.endTime, e.endTime),
       duration := Override(d.duration, e.duration),
       userId := d.userId.GetOr(e.userId),
       taskId := Override(d.taskId, e.taskId),
       projectId := Override(d.projectId, e.projectId),
       isManual := d.isManual.GetOr(e.isManual),
       createdAt := d.createdAt.GetOr(e.createdAt),
       updatedAt := now)
  }

  /** Applying the same patch twice is applying it once. */
  lemma MergeEntryIdempotent(e: TimeEntry, d: EntryFields, now: int)
    ensures MergeEntry(MergeEntry(e, d, now), d, now) == MergeEntry(e, d, now)
  {
  }

  /**
   * The in-memory task update: `{ ...t, ...d, updatedAt: now }`, with
   * `completedAt` set to `now` when the patch moves the task into DONE.
   */
  function MergeTask(t: Task, d: TaskFields, now: int): (r: Task)
    ensures d.status == Some(Done) && t.status != Done ==> r.completedAt == Some(now)
    ensures !(d.status == Some(Done) && t.status != Done) && d.completedAt.None? ==> r.completedAt == t.completedAt
    ensures !(d.status == Some(Done) && t.status != Done) && d.completedAt.Some? ==> r.completedAt == d.completedAt
    ensures Spread(d.title, t.title, r.title)
    ensures SpreadOptional(d.description, t.description, r.description)
    ensures Spread(d.status, t.status, r.status)
    ensures Spread(d.priority, t.priority, r.priority)
    ensures SpreadOptional(d.projectId, t.projectId, r.projectId)
    ensures Spread(d.userId, t.userId, r.userId)
    ensures SpreadOptional(d.dueDate, t.dueDate, r.dueDate)
    ensures r.id == d.id.GetOr(t.id) && r.createdAt == d.createdAt.GetOr(t.createdAt) && r.updatedAt == now
    ensures d.id.None? && d.createdAt.None? ==> r.id == t.id && r.createdAt == t.createdAt
  {
    var stamped := if d.status == Some(Done) && t.status != Done then Some(now) else d.completedAt;
    t.(id := d.id.GetOr(t.id),
       title := d.title.GetOr(t.title),
       description := Override(d.description, t.description),
       status := d.status.GetOr(t.status),
       priority := d.priority.GetOr(t.priority),
       projectId := Override(d.projectId, t.projectId),
       userId := d.userId.GetOr(t.userId),
       dueDate := Override(d.dueDate, t.dueDate),
       completedAt := Override(stamped, t.completedAt),
       createdAt := d.createdAt.GetOr(t.createdAt),
       updatedAt := now)
  }

  /** `{ ...p, ...d, updatedAt: now }` for a project. */
  function MergeProject(p: Project, d: ProjectFields, now: int): (r: Project)
    ensures r.id == d.id.GetOr(p.id) && r.createdAt == d.createdAt.GetOr(p.createdAt)
    ensures d.id.None? && d.createdAt.None? ==> r.id == p.id && r.createdAt == p.createdAt
    ensures r.updatedAt == now
    ensures d == ProjectFields(None, None, None, None, None, None, None) ==> r == p.(updatedAt := now)
    ensures Spread(d.name, p.name, r.name)
    ensures SpreadOptional(d.description, p.description, r.description)
    ensures Spread(d.color, p.color, r.color)
    ensures Spread(d.isArchived, p.isArchived, r.isArchived)
    ensures Spread(d.userId, p.userId, r.userId)
  {
    p.(id := d.id.GetOr(p.id),
       name := d.name.GetOr(p.name),
       description := Override(d.description, p.description),
       color := d.color.GetOr(p.color),
       isArchived := d.isArchived.GetOr(p.isArchived),
       userId := d.userId.GetOr(p.userId),
       createdAt := d.createdAt.GetOr(p.createdAt),
       updatedAt := now)
  }

  function EntryHasId(id: string): TimeEntry -> bool {
    (e: TimeEntry) => e.id == id }
  function TaskHasId(id: string): Task -> bool {
    (t: Task) => t.id == id }
  function ProjectHasId(id: string): Project -> bool {
    (p: Project) => p.id == id }

  function OpenEntry(): TimeEntry -> bool {
    (e: TimeEntry) => e.IsOpen() }

  // The filters of `timeStore.findAll` and `taskStore.findAll`, one per
  // optional field; a filter that is not given keeps every record.

  function EntryStartFilter(f: EntryQuery): TimeEntry -> bool {
    (e: TimeEntry) => f.startDate.None? || e.startTime >= f.startDate.value
  }
  function EntryEndFilter(f: EntryQuery): TimeEntry -> bool {
    (e: TimeEntry) => f.endDate.None? || e.startTime <= f.endDate.value
  }
  function EntryProjectFilter(f: EntryQuery): TimeEntry -> bool {
    (e: TimeEntry) => !Truthy(f.projectId) || e.projectId == f.projectId
  }
  function EntryTaskFilter(f: EntryQuery): TimeEntry -> bool {
    (e: TimeEntry) => !Truthy(f.taskId) || e.taskId == f.taskId
  }

  /** All four: an empty project or task id filters nothing. */
  function MatchesEntryQuery(f: EntryQuery): TimeEntry -> bool {
    (e: TimeEntry) =>
      && (f.startDate.None? || e.startTime >= f.startDate.value)
      && (f.endDate.None? || e.startTime <= f.endDate.value)
      && (!Truthy(f.projectId) || e.projectId == f.projectId)
      && (!Truthy(f.taskId) || e.taskId == f.taskId)
  }

  function TaskStatusFilter(f: TaskQuery): Task -> bool {
    (t: Task) => f.status.None? || t.status == f.status.value
  }
  function TaskPriorityFilter(f: TaskQuery): Task -> bool {
    (t: Task) => f.priority.None? || t.priority == f.priority.value
  }
  function TaskProjectFilter(f: TaskQuery): Task -> bool {
    (t: Task) => !Truthy(f.projectId) || t.projectId == f.projectId
  }

  function MatchesTaskQuery(f: TaskQuery): Task -> bool {
    (t: Task) =>
      && (f.status.None? || t.status == f.status.value)
      && (f.priority.None? || t.priority == f.priority.value)
      && (!Truthy(f.projectId) || t.projectId == f.projectId)
  }

  /** Applying the entry filters one after another keeps exactly the entries meeting all of them. */
  lemma {:induction false} EntryFiltersCompose(all: seq<TimeEntry>, f: EntryQuery)
    ensures Filter(Filter(Filter(Filter(all, EntryStartFilter(f)), EntryEndFilter(f)), EntryProjectFilter(f)), EntryTaskFilter(f))
         == Filter(all, MatchesEntryQuery(f))
  {
    var c1, c2, c3, c4 := EntryStartFilter(f), EntryEndFilter(f), EntryProjectFilter(f), EntryTaskFilter(f);
    var c12 := (e: TimeEntry) => c1(e) && c2(e);
    var c123 := (e: TimeEntry) => c12(e) && c3(e);
    FilterCompose(all, c1, c2, c12);
    FilterCompose(all, c12, c3, c123);
    FilterCompose(all, c123, c4, MatchesEntryQuery(f));
  }

  lemma {:induction false} TaskFiltersCompose(all: seq<Task>, f: TaskQuery)
    ensures Filter(Filter(Filter(all, TaskStatusFilter(f)), TaskPriorityFilter(f)), TaskProjectFilter(f))
         == Filter(all, MatchesTaskQuery(f))
  {
    var c1, c2, c3 := TaskStatusFilter(f), TaskPriorityFilter(f), TaskProjectFilter(f);
    var c12 := (t: Task) => c1(t) && c2(t);
    FilterCompose(all, c1, c2, c12);
    FilterCompose(all, c12, c3, MatchesTaskQuery(f));
  }

  /** `if (limit) list = list.slice(0, limit)`: a missing or zero limit keeps everything. */
  function ApplyLimit<T>(s: seq<T>, limit: Option<int>): (r: seq<T>)
    ensures r <= s
    ensures limit.None? || limit.value == 0 ==> r == s
    ensures limit.Some? && limit.value > 0 ==> |r| == if limit.value < |s| then limit.value else |s|
  {
    if limit.Some? && limit.value != 0 then SlicePrefix(s, limit.value) else s
  }

  /** `entry.startTime >= start && entry.duration`: the entries a window sum reads. */
  function CountedSince(start: int): TimeEntry -> bool {
    (e: TimeEntry) => e.startTime >= start && e.duration.Some? && e.duration.value != 0
  }

  function StartsSince(start: int): TimeEntry -> bool {
    (e: TimeEntry) => e.startTime >= start }

  function IsDone(): Task -> bool {
    (t: Task) => t.status == Done }
  function NotArchived(): Project -> bool {
    (p: Project) => !p.isArchived }
  function TaskInProject(id: string): Task -> bool {
    (t: Task) => t.projectId == Some(id) }
  function EntryInProject(id: string): TimeEntry -> bool {
    (e: TimeEntry) => e.projectId == Some(id) }
  function DoneInProject(id: string): Task -> bool {
    (t: Task) => t.projectId == Some(id) && t.status == Done }

  /** The sum one statistics window reports, over the entries it reads. */
  function WindowSum(s: seq<TimeEntry>, start: int): (r: int)
    ensures r == TotalDuration(Filter(s, StartsSince(start)))
  {
    TotalDurationSkipsZeros(s, StartsSince(start), CountedSince(start));
    TotalDuration(Filter(s, CountedSince(start)))
  }

  /** A window that opens earlier never reports less, as long as no duration is negative. */
  lemma WindowSumMono(s: seq<TimeEntry>, later: int, earlier: int)
    ensures NonNegativeDurations(s) && earlier <= later ==> WindowSum(s, later) <= WindowSum(s, earlier)
  {
    if NonNegativeDurations(s) && earlier <= later {
      TotalDurationMono(s, StartsSince(later), StartsSince(earlier));
    }
  }

  /** The successive `filter` calls of `timeStore.findAll`; together they keep what meets every filter. */
  method SelectEntries(all: seq<TimeEntry>, f: EntryQuery) returns (filtered: seq<TimeEntry>)
    ensures filtered == Filter(all, MatchesEntryQuery(f))
  {
    filtered := all;
    if f.startDate.Some? {
      filtered := Filter(filtered, EntryStartFilter(f));
    } else {
      FilterKeepsAll(filtered, EntryStartFilter(f));
    }
    ghost var step1 := filtered;
    if f.endDate.Some? {
      filtered := Filter(filtered, EntryEndFilter(f));
    } else {
      FilterKeepsAll(filtered, EntryEndFilter(f));
    }
    ghost var step2 := filtered;
    if Truthy(f.projectId) {
      filtered := Filter(filtered, EntryProjectFilter(f));
    } else {
      FilterKeepsAll(filtered, EntryProjectFilter(f));
    }
    ghost var step3 := filtered;
    if Truthy(f.taskId) {
      filtered := Filter(filtered, EntryTaskFilter(f));
    } else {
      FilterKeepsAll(filtered, EntryTaskFilter(f));
    }
    assert filtered == Filter(step3, EntryTaskFilter(f));
    assert step3 == Filter(step2, EntryProjectFilter(f));
    assert step2 == Filter(step1, EntryEndFilter(f));
    assert step1 == Filter(all, EntryStartFilter(f));
    EntryFiltersCompose(all, f);
  }

  /** The successive `filter` calls of `taskStore.findAll`. */
  method SelectTasks(all: seq<Task>, f: TaskQuery) returns (filtered: seq<Task>)
    ensures filtered == Filter(all, MatchesTaskQuery(f))
  {
    filtered := all;
    if f.status.Some? {
      filtered := Filter(filtered, TaskStatusFilter(f));
    } else {
      FilterKeepsAll(filtered, TaskStatusFilter(f));
    }
    ghost var step1 := filtered;
    if f.priority.Some? {
      filtered := Filter(filtered, TaskPriorityFilter(f));
    } else {
      FilterKeepsAll(filtered, TaskPriorityFilter(f));
    }
    ghost var step2 := filtered;
    if Truthy(f.projectId) {
      filtered := Filter(filtered, TaskProjectFilter(f));
    } else {
      FilterKeepsAll(filtered, TaskProjectFilter(f));
    }
    assert filtered == Filter(step2, TaskProjectFilter(f));
    assert step2 == Filter(step1, TaskPriorityFilter(f));
    assert step1 == Filter(all, TaskStatusFilter(f));
    TaskFiltersCompose(all, f);
  }

  class MemoryStore {
    var timeEntries: seq<TimeEntry>
    var tasks: seq<Task>
    var projects: seq<Project>

    constructor ()
      ensures timeEntries == [] && tasks == [] && projects == []
    {
      timeEntries, tasks, projects := [], [], [];
    }

    // ------------------------------------------------------------- timeStore

    /** `timeStore.findActive`: the first running entry of anybody. */
    function FindActiveTimeEntry(): (r: Option<TimeEntry>)
      reads this
      ensures r.None? <==> forall i :: 0 <= i < |timeEntries| ==> !timeEntries[i].IsOpen()
      ensures r.Some? ==> r.value in timeEntries && r.value.IsOpen()
      ensures r.Some? ==> exists i :: 0 <= i < |timeEntries| && timeEntries[i] == r.value
                                      && forall k :: 0 <= k < i ==> !timeEntries[k].IsOpen()
    {
      FindFirst(timeEntries, OpenEntry())
    }

    /** `timeStore.create`: appends one entry, defaulting the start to now, the user to "demo-user" and isManual to false. */
    method CreateTimeEntry(d: EntryFields, id: string, now: int) returns (e: TimeEntry)
      modifies this`timeEntries
      ensures timeEntries == old(timeEntries) + [e]
      ensures e.id == id && e.createdAt == now && e.updatedAt == now
      ensures e.startTime == d.startTime.GetOr(now)
      ensures e.userId == OrString(d.userId, DemoUser)
      ensures e.isManual == (d.isManual == Some(true))
      ensures e.endTime == d.endTime && e.duration == d.duration && e.description == d.description
      ensures e.taskId == d.taskId && e.projectId == d.projectId
    {
      e := TimeEntry(id, d.description, d.startTime.GetOr(now), d.endTime, d.duration,
                     OrString(d.userId, DemoUser), d.taskId, d.projectId,
                     d.isManual == Some(true), now, now);
      timeEntries := timeEntries + [e];
    }

    /** `timeStore.update`: merges `d` into the first entry with that id; null and no change when there is none. */
    method UpdateTimeEntry(id: string, d: EntryFields, now: int) returns (r: Option<TimeEntry>)
      modifies this`timeEntries
      ensures var i := FindIndex(old(timeEntries), EntryHasId(id));
        if i == -1 then r.None? && timeEntries == old(timeEntries)
        else r == Some(MergeEntry(old(timeEntries)[i], d, now)) && timeEntries == old(timeEntries)[i := r.value]
      ensures r.None? <==> forall k :: 0 <= k < |old(timeEntries)| ==> old(timeEntries)[k].id != id
    {
      var i := FindIndex(timeEntries, EntryHasId(id));
      if i == -1 {
        return None;
      }
      timeEntries := timeEntries[i := MergeEntry(timeEntries[i], d, now)];
      r := Some(timeEntries[i]);
    }

    /** `timeStore.findById`: the first entry with that id. */
    function FindTimeEntry(id: string): (r: Option<TimeEntry>)
      reads this
      ensures r.None? <==> forall i :: 0 <= i < |timeEntries| ==> timeEntries[i].id != id
      ensures r.Some? ==> r.value in timeEntries && r.value.id == id
      ensures r.Some? ==> exists i :: 0 <= i < |timeEntries| && timeEntries[i] == r.value
                                      && forall k :: 0 <= k < i ==> timeEntries[k].id != id
    {
      FindFirst(timeEntries, EntryHasId(id))
    }

    /**
     * `timeStore.findAll`: the entries meeting every filter, newest first
     * (a stable sort), cut to `limit` unless the limit is missing or zero.
     */
    method FindAllTimeEntries(f: EntryQuery) returns (r: seq<TimeEntry>)
      ensures r == ApplyLimit(SortBy(Filter(timeEntries, MatchesEntryQuery(f)), StartTimeDesc), f.limit)
      ensures forall i :: 0 <= i < |r| ==> r[i] in timeEntries && MatchesEntryQuery(f)(r[i])
      ensures SortedBy(r, StartTimeDesc)
      ensures f.limit.None? || f.limit.value == 0 ==> multiset(r) == multiset(Filter(timeEntries, MatchesEntryQuery(f)))
      ensures f.limit.Some? && f.limit.value > 0 ==> |r| <= f.limit.value
    {
      var all := timeEntries;
      var filtered := SelectEntries(all, f);
      filtered := Sort(filtered, StartTimeDesc);
      if f.limit.Some? && f.limit.value != 0 {
        filtered := SlicePrefix(filtered, f.limit.value);
      }
      r := filtered;
      NewestFirstOrders();
      PrefixOfSortedFilter(all, MatchesEntryQuery(f), StartTimeDesc, r);
    }

    /** `timeStore.delete`: removes the first entry with that id; false and no change when there is none. */
    method DeleteTimeEntry(id: string) returns (deleted: bool)
      modifies this`timeEntries
      ensures var i := FindIndex(old(timeEntries), EntryHasId(id));
        (deleted <==> i != -1) &&
        timeEntries == if i == -1 then old(timeEntries) else RemoveAt(old(timeEntries), i)
      ensures deleted <==> exists k :: 0 <= k < |old(timeEntries)| && old(timeEntries)[k].id == id
    {
      var i := FindIndex(timeEntries, EntryHasId(id));
      if i == -1 {
        return false;
      }
      timeEntries := RemoveAt(timeEntries, i);
      deleted := true;
    }

    // ------------------------------------------------------------- taskStore

    /** `taskStore.findAll`: the tasks meeting every filter, newest first. */
    method FindAllTasks(f: TaskQuery) returns (r: seq<Task>)
      ensures r == SortBy(Filter(tasks, MatchesTaskQuery(f)), TaskCreatedDesc)
      ensures forall i :: 0 <= i < |r| ==> r[i] in tasks && MatchesTaskQuery(f)(r[i])
      ensures SortedBy(r, TaskCreatedDesc)
      ensures multiset(r) == multiset(Filter(tasks, MatchesTaskQuery(f)))
    {
      var all := tasks;
      var filtered := SelectTasks(all, f);
      r := Sort(filtered, TaskCreatedDesc);
      NewestFirstOrders();
      PrefixOfSortedFilter(all, MatchesTaskQuery(f), TaskCreatedDesc, r);
    }

    function FindTask(id: string): (r: Option<Task>)
      reads this
      ensures r.None? <==> forall i :: 0 <= i < |tasks| ==> tasks[i].id != id
      ensures r.Some? ==> r.value in tasks && r.value.id == id
      ensures r.Some? ==> exists i :: 0 <= i < |tasks| && tasks[i] == r.value
                                      && forall k :: 0 <= k < i ==> tasks[k].id != id
    {
      FindFirst(tasks, TaskHasId(id))
    }

    /** `taskStore.create`: status TODO, priority MEDIUM, title '' and user "demo-user" unless supplied. */
    method CreateTask(d: TaskFields, id: string, now: int) returns (t: Task)
      modifies this`tasks
      ensures tasks == old(tasks) + [t]
      ensures t.id == id && t.createdAt == now && t.updatedAt == now
      ensures t.title == OrString(d.title, "")
      ensures t.status == d.status.GetOr(Todo) && t.priority == d.priority.GetOr(Medium)
      ensures t.userId == OrString(d.userId, DemoUser)
      ensures t.description == d.description && t.projectId == d.projectId
      ensures t.dueDate == d.dueDate && t.completedAt == d.completedAt
    {
      t := Task(id, OrString(d.title, ""), d.description, d.status.GetOr(Todo), d.priority.GetOr(Medium),
                d.projectId, OrString(d.userId, DemoUser), d.dueDate, d.completedAt, now, now);
      tasks := tasks + [t];
    }

    /** `taskStore.update`: merges `d` into the first task with that id, stamping completion on the edge into DONE. */
    method UpdateTask(id: string, d: TaskFields, now: int) returns (r: Option<Task>)
      modifies this`tasks
      ensures var i := FindIndex(old(tasks), TaskHasId(id));
        if i == -1 then r.None? && tasks == old(tasks)
        else r == Some(MergeTask(old(tasks)[i], d, now)) && tasks == old(tasks)[i := r.value]
    {
      var i := FindIndex(tasks, TaskHasId(id));
      if i == -1 {
        return None;
      }
      tasks := tasks[i := MergeTask(tasks[i], d, now)];
      r := Some(tasks[i]);
    }

    method DeleteTask(id: string) returns (deleted: bool)
      modifies this`tasks
      ensures var i := FindIndex(old(tasks), TaskHasId(id));
        (deleted <==> i != -1) &&
        tasks == if i == -1 then old(tasks) else RemoveAt(old(tasks), i)
    {
      var i := FindIndex(tasks, TaskHasId(id));
      if i == -1 {
        return false;
      }
      tasks := RemoveAt(tasks, i);
      deleted := true;
    }

    // ---------------------------------------------------------- projectStore

    /** `projectStore.findAll`: archived projects only when asked for, newest first. */
    method FindAllProjects(includeArchived: bool) returns (r: seq<Project>)
      ensures includeArchived ==> r == SortBy(projects, ProjectCreatedDesc)
      ensures !includeArchived ==> r == SortBy(Filter(projects, NotArchived()), ProjectCreatedDesc)
      ensures forall i :: 0 <= i < |r| ==> r[i] in projects && (includeArchived || !r[i].isArchived)
      ensures SortedBy(r, ProjectCreatedDesc)
      ensures includeArchived ==> multiset(r) == multiset(projects)
    {
      var filtered := projects;
      if !includeArchived {
        filtered := Filter(filtered, NotArchived());
      }
      r := Sort(filtered, ProjectCreatedDesc);
      NewestFirstOrders();
      SortBySorted(filtered, ProjectCreatedDesc);
      forall i | 0 <= i < |r| ensures r[i] in filtered {
        assert r[i] in multiset(r);
      }
    }

    function FindProject(id: string): (r: Option<Project>)
      reads this
      ensures r.None? <==> forall i :: 0 <= i < |projects| ==> projects[i].id != id
      ensures r.Some? ==> r.value in projects && r.value.id == id
      ensures r.Some? ==> exists i :: 0 <= i < |projects| && projects[i] == r.value
                                      && forall k :: 0 <= k < i ==> projects[k].id != id
    {
      FindFirst(projects, ProjectHasId(id))
    }

    /** `projectStore.create`: colour '#3B82F6', not archived, name '' and user "demo-user" unless supplied. */
    method CreateProject(d: ProjectFields, id: string, now: int) returns (p: Project)
      modifies this`projects
      ensures projects == old(projects) + [p]
      ensures p.id == id && p.createdAt == now && p.updatedAt == now
      ensures p.name == OrString(d.name, "") && p.color == OrString(d.color, DefaultProjectColor)
      ensures p.isArchived == (d.isArchived == Some(true))
      ensures p.userId == OrString(d.userId, DemoUser) && p.description == d.description
    {
      p := Project(id, OrString(d.name, ""), d.description, OrString(d.color, DefaultProjectColor),
                   d.isArchived == Some(true), OrString(d.userId, DemoUser), now, now);
      projects := projects + [p];
    }

    method UpdateProject(id: string, d: ProjectFields, now: int) returns (r: Option<Project>)
      modifies this`projects
      ensures var i := FindIndex(old(projects), ProjectHasId(id));
        if i == -1 then r.None? && projects == old(projects)
        else r == Some(MergeProject(old(projects)[i], d, now)) && projects == old(projects)[i := r.value]
    {
      var i := FindIndex(projects, ProjectHasId(id));
      if i == -1 {
        return None;
      }
      projects := projects[i := MergeProject(projects[i], d, now)];
      r := Some(projects[i]);
    }

    method DeleteProject(id: string) returns (deleted: bool)
      modifies this`projects
      ensures var i := FindIndex(old(projects), ProjectHasId(id));
        (deleted <==> i != -1) &&
        projects == if i == -1 then old(projects) else RemoveAt(old(projects), i)
    {
      var i := FindIndex(projects, ProjectHasId(id));
      if i == -1 {
        return false;
      }
      projects := RemoveAt(projects, i);
      deleted := true;
    }

    // ----------------------------------------------------------- statsHelper

    /**
     * `statsHelper.getTimeStats` with the local-time window starts given.
     * Each window sums the durations of the entries started at or after its
     * start; tasks and projects are counted over the whole store.
     */
    function TimeStats(todayStart: int, weekStart: int, monthStart: int): (r: Domain.TimeStats)
      reads this
      ensures r.today == TotalDuration(Filter(timeEntries, StartsSince(todayStart)))
      ensures r.thisWeek == TotalDuration(Filter(timeEntries, StartsSince(weekStart)))
      ensures r.thisMonth == TotalDuration(Filter(timeEntries, StartsSince(monthStart)))
      ensures r.totalTasks == |tasks| && r.completedTasks == |Filter(tasks, IsDone())|
      ensures r.activeProjects == |Filter(projects, NotArchived())|
      ensures r.completedTasks <= r.totalTasks && r.activeProjects <= |projects|
      ensures NonNegativeDurations(timeEntries) && weekStart <= todayStart ==> r.today <= r.thisWeek
      ensures NonNegativeDurations(timeEntries) && monthStart <= todayStart ==> r.today <= r.thisMonth
    {
      WindowSumMono(timeEntries, todayStart, weekStart);
      WindowSumMono(timeEntries, todayStart, monthStart);
      Domain.TimeStats(
        WindowSum(timeEntries, todayStart),
        WindowSum(timeEntries, weekStart),
        WindowSum(timeEntries, monthStart),
        |tasks|,
        |Filter(tasks, IsDone())|,
        |Filter(projects, NotArchived())|)
    }

    /** `statsHelper.getProjectStats`: null for an unknown project, else its entries, their total and its task counts. */
    function ProjectStats(projectId: string): (r: Option<ProjectSummary>)
      reads this
      ensures r.None? <==> forall i :: 0 <= i < |projects| ==> projects[i].id != projectId
      ensures r.Some? ==> r.value.project in projects && r.value.project.id == projectId
      ensures r.Some? ==> r.value.timeEntries == Filter(timeEntries, EntryInProject(projectId))
      ensures r.Some? ==> r.value.totalTime == TotalDuration(r.value.timeEntries)
      ensures r.Some? ==> r.value.tasksCount == |Filter(tasks, TaskInProject(projectId))|
      ensures r.Some? ==> r.value.completedTasks == |Filter(tasks, DoneInProject(projectId))|
      ensures r.Some? ==> r.value.completedTasks <= r.value.tasksCount <= |tasks|
      ensures r.Some? ==> forall i :: 0 <= i < |r.value.timeEntries| ==>
                r.value.timeEntries[i] in timeEntries && r.value.timeEntries[i].projectId == Some(projectId)
    {
      match FindProject(projectId)
      case None => None
      case Some(project) =>
        FilterCompose(tasks, TaskInProject(projectId), IsDone(), DoneInProject(projectId));
        var projectTasks := Filter(tasks, TaskInProject(projectId));
        var projectEntries := Filter(timeEntries, EntryInProject(projectId));
        Some(ProjectSummary(project, TotalDuration(projectEntries), |projectTasks|,
                            |Filter(projectTasks, IsDone())|, projectEntries))
    }
  }
}
