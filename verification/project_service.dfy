/**
 * `ProjectService`: project operations over the database tables, scoped by
 * the calling user, with the project detail view and per-project figures.
 */
module ProjectService {
  import opened Wrappers
  import opened Listing
  import opened Domain
  import opened Db
  import opened Js

  /** The fields `createProject` accepts. */
  datatype NewProject = NewProject(name: string, description: Option<string>, color: Option<string>)

  /**
   * Creates a project for the user; a color left out takes the column
   * default, and a new project is never archived unless the column says so.
   */
  method CreateProject(db: Database, userId: string, data: NewProject, now: int, id: string) returns (p: Project)
    requires db.Valid() && KeyFree(db.projects, ProjectKey, id)
    modifies db`projects
    ensures db.Valid()
    ensures db.projects == old(db.projects) + [p]
    ensures p == Project(id, data.name, data.description, data.color.GetOr(db.defaults.color),
                         db.defaults.isArchived, userId, now, now)
  {
    p := Project(id, data.name, data.description, data.color.GetOr(db.defaults.color),
                 db.defaults.isArchived, userId, now, now);
    KeysDistinctAppend(db.projects, ProjectKey, p);
    db.projects := db.projects + [p];
  }

  /** The fields `updateProject` accepts; `None` is a field left out. */
  datatype ProjectChanges = ProjectChanges(
    name: Option<string>,
    description: Option<string>,
    color: Option<string>,
    isArchived: Option<bool>)

  function ApplyProjectChanges(p: Project, d: ProjectChanges): (r: Project)
    ensures r.id == p.id && r.userId == p.userId && r.createdAt == p.createdAt
    ensures d == ProjectChanges(None, None, None, None) ==> r == p
    ensures Spread(d.name, p.name, r.name)
    ensures SpreadOptional(d.description, p.description, r.description)
    ensures Spread(d.color, p.color, r.color)
    ensures Spread(d.isArchived, p.isArchived, r.isArchived)
  {
    p.(name := d.name.GetOr(p.name),
       description := if d.description.Some? then d.description else p.description,
       color := d.color.GetOr(p.color),
       isArchived := d.isArchived.GetOr(p.isArchived))
  }

  /** Repeating an update changes nothing more. */
  lemma ApplyProjectChangesProperties(p: Project, d: ProjectChanges)
    ensures ApplyProjectChanges(ApplyProjectChanges(p, d), d) == ApplyProjectChanges(p, d)
  {
  }

  /** Updates one of the user's projects (archiving is `isArchived: true`). */
  method UpdateProject(db: Database, userId: string, projectId: string, d: ProjectChanges) returns (r: Result<Project>)
    requires db.Valid()
    modifies db`projects
    ensures db.Valid()
    ensures r.Err? <==> forall k :: 0 <= k < |old(db.projects)| ==> !ProjectOwned(projectId, userId)(old(db.projects)[k])
    ensures r.Err? ==> r.error == ProjectNotFound && db.projects == old(db.projects)
    ensures r.Ok? ==>
      var i := FindIndex(old(db.projects), ProjectOwned(projectId, userId));
      r.value == ApplyProjectChanges(old(db.projects)[i], d) && db.projects == old(db.projects)[i := r.value]
  {
    var i := FindIndex(db.projects, ProjectOwned(projectId, userId));
    if i == -1 {
      return Err(ProjectNotFound);
    }
    var project := db.projects[i];
    var updated := ApplyProjectChanges(project, d);
    var j := FindIndex(db.projects, ProjectIdIs(projectId));
    assert j == i;
    KeysDistinctReplace(db.projects, ProjectKey, j, updated);
    db.projects := db.projects[j := updated];
    r := Ok(updated);
  }

  /** Deletes one of the user's projects and returns it as it was. */
  method DeleteProject(db: Database, userId: string, projectId: string) returns (r: Result<Project>)
    requires db.Valid()
    modifies db`projects
    ensures db.Valid()
    ensures r.Err? <==> forall k :: 0 <= k < |old(db.projects)| ==> !ProjectOwned(projectId, userId)(old(db.projects)[k])
    ensures r.Err? ==> r.error == ProjectNotFound && db.projects == old(db.projects)
    ensures r.Ok? ==>
      var i := FindIndex(old(db.projects), ProjectOwned(projectId, userId));
      r.value == old(db.projects)[i] && db.projects == RemoveAt(old(db.projects), i)
    ensures r.Ok? ==> KeyFree(db.projects, ProjectKey, projectId)
  {
    var i := FindIndex(db.projects, ProjectOwned(projectId, userId));
    if i == -1 {
      return Err(ProjectNotFound);
    }
    var project := db.projects[i];
    var j := FindIndex(db.projects, ProjectIdIs(projectId));
    assert j == i;
    KeysDistinctRemove(db.projects, ProjectKey, j);
    db.projects := RemoveAt(db.projects, j);
    r := Ok(project);
  }

  // ---------------------------------------------------------------------
  // Reads.
  // ---------------------------------------------------------------------

  const RecentEntryCount := 10

  /** A project with its tasks (newest first) and its most recent time entries. */
  datatype ProjectDetail = ProjectDetail(project: Project, tasks: seq<Task>, timeEntries: seq<TimeEntry>)

  function TaskOfProject(projectId: string): Task -> bool { (t: Task) => t.projectId == Some(projectId) }
  function EntryOfProject(projectId: string): TimeEntry -> bool { (e: TimeEntry) => e.projectId == Some(projectId) }

  /**
   * One of the user's projects with its relations; another user's project
   * is reported as not found. The related rows are every task and entry
   * that refers to the project, whoever owns them: all tasks, newest first,
   * and the ten entries that started last.
   */
  function GetProject(db: Database, userId: string, projectId: string): (r: Result<ProjectDetail>)
    reads db
    ensures r.Err? <==> forall k :: 0 <= k < |db.projects| ==> !ProjectOwned(projectId, userId)(db.projects[k])
    ensures r.Err? ==> r.error == ProjectNotFound
    ensures r.Ok? ==> r.value.project in db.projects && r.value.project.id == projectId
                      && r.value.project.userId == userId
    ensures r.Ok? ==> SortedBy(r.value.tasks, TaskCreatedDesc)
                      && multiset(r.value.tasks) == multiset(Filter(db.tasks, TaskOfProject(projectId)))
    ensures r.Ok? ==> TopBy(r.value.timeEntries, Filter(db.entries, EntryOfProject(projectId)), StartTimeDesc)
    ensures r.Ok? ==> |r.value.timeEntries| == Min(RecentEntryCount, |Filter(db.entries, EntryOfProject(projectId))|)
  {
    match FindFirst(db.projects, ProjectOwned(projectId, userId))
    case None => Err(ProjectNotFound)
    case Some(project) =>
      var tasks := Filter(db.tasks, TaskOfProject(project.id));
      var entries := Filter(db.entries, EntryOfProject(project.id));
      NewestFirstOrders();
      SortBySorted(tasks, TaskCreatedDesc);
      TakeOfSortIsTop(entries, StartTimeDesc, Some(RecentEntryCount));
      Ok(ProjectDetail(project, SortBy(tasks, TaskCreatedDesc),
                       Take(SortBy(entries, StartTimeDesc), Some(RecentEntryCount))))
  }

  function Min(a: int, b: int): int { if a < b then a else b }

  function ProjectListed(userId: string, includeArchived: bool): Project -> bool {
    (p: Project) => p.userId == userId && (includeArchived || !p.isArchived)
  }

  /**
   * The user's projects, newest first: all of them when `includeArchived`,
   * otherwise the ones not archived.
   */
  function GetProjects(db: Database, userId: string, includeArchived: bool): (r: seq<Project>)
    reads db
    ensures forall i :: 0 <= i < |r| ==> r[i] in db.projects && r[i].userId == userId
    ensures !includeArchived ==> forall i :: 0 <= i < |r| ==> !r[i].isArchived
    ensures forall k :: 0 <= k < |db.projects| && ProjectListed(userId, includeArchived)(db.projects[k]) ==>
                          db.projects[k] in r
    ensures SortedBy(r, ProjectCreatedDesc)
    ensures multiset(r) == multiset(Filter(db.projects, ProjectListed(userId, includeArchived)))
  {
    ListedProjects(db.projects, userId, includeArchived);
    SortBy(Filter(db.projects, ProjectListed(userId, includeArchived)), ProjectCreatedDesc)
  }

  /** The listing of a table of projects: owned, unarchived unless asked, complete, newest first. */
  lemma ListedProjects(s: seq<Project>, userId: string, includeArchived: bool)
    ensures var r := SortBy(Filter(s, ProjectListed(userId, includeArchived)), ProjectCreatedDesc);
      && (forall i :: 0 <= i < |r| ==> r[i] in s && r[i].userId == userId && (includeArchived || !r[i].isArchived))
      && (forall k :: 0 <= k < |s| && ProjectListed(userId, includeArchived)(s[k]) ==> s[k] in r)
      && SortedBy(r, ProjectCreatedDesc)
  {
    var p := ProjectListed(userId, includeArchived);
    var listed := Filter(s, p);
    var r := SortBy(listed, ProjectCreatedDesc);
    NewestFirstOrders();
    SortBySorted(listed, ProjectCreatedDesc);
    SortedFilterMembers(s, p, ProjectCreatedDesc);
    forall i | 0 <= i < |r| ensures r[i] in s && r[i].userId == userId && (includeArchived || !r[i].isArchived) {
      assert r[i] in r;
      assert p(r[i]);
    }
  }

  /** Listing with archived projects keeps everything the default listing shows, and more only when something is archived. */
  lemma IncludeArchivedWidens(db: Database, userId: string)
    ensures multiset(GetProjects(db, userId, false)) <= multiset(GetProjects(db, userId, true))
    ensures (forall k :: 0 <= k < |db.projects| ==> !db.projects[k].isArchived) ==>
      GetProjects(db, userId, false) == GetProjects(db, userId, true)
  {
    var a := Filter(db.projects, ProjectListed(userId, false));
    var b := Filter(db.projects, ProjectListed(userId, true));
    forall x ensures multiset(a)[x] <= multiset(b)[x] {
      FilterMultiplicity(db.projects, ProjectListed(userId, false), x);
      FilterMultiplicity(db.projects, ProjectListed(userId, true), x);
    }
    if forall k :: 0 <= k < |db.projects| ==> !db.projects[k].isArchived {
      FilterAgree(db.projects, ProjectListed(userId, false), ProjectListed(userId, true));
    }
  }

  /** The figures `getProjectStats` reports. */
  datatype ProjectStats = ProjectStats(projectId: string, projectName: string, totalTime: int,
                                       tasksCount: nat, completedTasks: nat, color: string)

  function UserEntryOfProject(userId: string, projectId: string): TimeEntry -> bool {
    (e: TimeEntry) => e.projectId == Some(projectId) && e.userId == userId
  }
  function UserTaskOfProject(userId: string, projectId: string): Task -> bool {
    (t: Task) => t.projectId == Some(projectId) && t.userId == userId
  }
  function UserDoneTaskOfProject(userId: string, projectId: string): Task -> bool {
    (t: Task) => t.projectId == Some(projectId) && t.userId == userId && t.status == Done
  }

  /**
   * Seconds tracked and task counts for one of the user's projects, counting
   * only the user's own rows (unlike `GetProject`'s relations); another
   * user's project is reported as not found.
   */
  function GetProjectStats(db: Database, userId: string, projectId: string): (r: Result<ProjectStats>)
    reads db
    ensures r.Err? <==> forall k :: 0 <= k < |db.projects| ==> !ProjectOwned(projectId, userId)(db.projects[k])
    ensures r.Err? ==> r.error == ProjectNotFound
    ensures r.Ok? ==> exists k :: 0 <= k < |db.projects| && ProjectOwned(projectId, userId)(db.projects[k])
                        && r.value.projectName == db.projects[k].name && r.value.color == db.projects[k].color
    ensures r.Ok? ==> r.value.projectId == projectId
    ensures r.Ok? ==> r.value.tasksCount == |Filter(db.tasks, UserTaskOfProject(userId, projectId))|
    ensures r.Ok? ==> r.value.completedTasks == |Filter(db.tasks, UserDoneTaskOfProject(userId, projectId))|
    ensures r.Ok? ==> r.value.completedTasks <= r.value.tasksCount <= |Filter(db.tasks, TaskOf(userId))|
    ensures r.Ok? ==> r.value.totalTime == TotalDuration(Filter(db.entries, UserEntryOfProject(userId, projectId)))
  {
    match FindFirst(db.projects, ProjectOwned(projectId, userId))
    case None => Err(ProjectNotFound)
    case Some(project) =>
      FilterCountMono(db.tasks, UserDoneTaskOfProject(userId, projectId), UserTaskOfProject(userId, projectId));
      FilterCountMono(db.tasks, UserTaskOfProject(userId, projectId), TaskOf(userId));
      Ok(ProjectStats(projectId, project.name,
                      TotalDuration(Filter(db.entries, UserEntryOfProject(userId, projectId))),
                      |Filter(db.tasks, UserTaskOfProject(userId, projectId))|,
                      |Filter(db.tasks, UserDoneTaskOfProject(userId, projectId))|,
                      project.color))
  }

  /**
   * A project's time never exceeds the user's total when durations are not
   * negative: the per-project figure is a part of the whole.
   */
  lemma ProjectTimeWithinUserTotal(db: Database, userId: string, projectId: string)
    requires NonNegativeDurations(db.entries)
    requires GetProjectStats(db, userId, projectId).Ok?
    ensures 0 <= GetProjectStats(db, userId, projectId).value.totalTime
              <= TotalDuration(Filter(db.entries, EntryOf(userId)))
  {
    TotalDurationMono(db.entries, UserEntryOfProject(userId, projectId), EntryOf(userId));
    TotalDurationMono(db.entries, (e: TimeEntry) => false, UserEntryOfProject(userId, projectId));
    FilterCountMono(db.entries, (e: TimeEntry) => false, (e: TimeEntry) => false);
  }
}
