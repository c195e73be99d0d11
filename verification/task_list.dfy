/**
 * The task list's choices: the status a click toggles to, the colour of a
 * priority, the icon of a status, and the URL the list is fetched from.
 */
module TaskList {
  import opened Wrappers
  import opened Domain
  import TaskService

  // ---------------------------------------------------------------------
  // toggleTaskStatus.
  // ---------------------------------------------------------------------

  /** A click on a DONE task sends TODO; on any other task, DONE. */
  function Toggle(current: TaskStatus): (r: TaskStatus)
    ensures r == Done <==> current != Done
    ensures r == Todo <==> current == Done
  {
    if current == Done then Todo else Done
  }

  /** Two clicks restore DONE and TODO but turn IN_PROGRESS and CANCELLED into TODO. */
  lemma ToggleProperties(s: TaskStatus)
    ensures Toggle(Toggle(s)) == s <==> s == Done || s == Todo
    ensures s != Done ==> Toggle(Toggle(s)) == Todo
  {
  }

  /** The update a click sends: only the status. */
  function ToggleChanges(current: TaskStatus): TaskService.TaskChanges {
    TaskService.TaskChanges(None, None, Some(Toggle(current)), None, None, None)
  }

  /**
   * With the service's completion stamp, a click on an unfinished task
   * stamps it with the click time, and unchecking a finished task and
   * checking it again moves its stamp to the second click.
   */
  lemma ToggleAndCompletion(t: Task, t1: int, t2: int)
    ensures t.status != Done ==>
      TaskService.ApplyTaskChanges(t, ToggleChanges(t.status), t1).completedAt == Some(t1)
    ensures t.status == Done ==>
      var once := TaskService.ApplyTaskChanges(t, ToggleChanges(t.status), t1);
      var twice := TaskService.ApplyTaskChanges(once, ToggleChanges(once.status), t2);
      once.completedAt == t.completedAt && twice.status == Done && twice.completedAt == Some(t2)
  {
  }

  // ---------------------------------------------------------------------
  // getPriorityColor / getStatusIcon.
  // ---------------------------------------------------------------------

  /** `getPriorityColor`: red, orange and yellow for the three upper priorities, grey for anything else. */
  function PriorityColor(priority: string): (r: string)
    ensures r == "text-gray-400" <==> priority !in {"URGENT", "HIGH", "MEDIUM"}
    ensures r in {"text-red-500", "text-orange-500", "text-yellow-500", "text-gray-400"}
  {
    if priority == "URGENT" then "text-red-500"
    else if priority == "HIGH" then "text-orange-500"
    else if priority == "MEDIUM" then "text-yellow-500"
    else "text-gray-400"
  }

  /**
   * Every priority has its own colour; LOW shares grey with any string
   * that is not a priority name.
   */
  lemma PriorityColorsDistinct(p: Priority, q: Priority, other: string)
    ensures PriorityColor(p.Name()) == PriorityColor(q.Name()) <==> p == q
    ensures other !in {"URGENT", "HIGH", "MEDIUM"} ==> PriorityColor(other) == PriorityColor(Low.Name())
  {
  }

  datatype IconShape = CheckCircle | ClockFace | Circle

  datatype Icon = Icon(shape: IconShape, color: string)

  /** `getStatusIcon`: a green check for DONE, a blue clock for IN_PROGRESS, a grey circle otherwise. */
  function StatusIcon(status: string): (r: Icon)
    ensures r.shape == CheckCircle <==> status == "DONE"
    ensures r.shape == ClockFace <==> status == "IN_PROGRESS"
    ensures r.color == match r.shape
                       case CheckCircle => "text-green-500"
                       case ClockFace => "text-blue-500"
                       case Circle => "text-gray-400"
  {
    if status == "DONE" then Icon(CheckCircle, "text-green-500")
    else if status == "IN_PROGRESS" then Icon(ClockFace, "text-blue-500")
    else Icon(Circle, "text-gray-400")
  }

  /** The check mark shows exactly for DONE and the clock exactly for IN_PROGRESS; TODO and CANCELLED look alike. */
  lemma StatusIconChoice(s: TaskStatus)
    ensures StatusIcon(s.Name()).shape == CheckCircle <==> s == Done
    ensures StatusIcon(s.Name()).shape == ClockFace <==> s == InProgress
    ensures StatusIcon(Cancelled.Name()) == StatusIcon(Todo.Name())
  {
  }

  // ---------------------------------------------------------------------
  // The fetch URL.
  // ---------------------------------------------------------------------

  /** The list's filter tabs. */
  datatype TaskFilter = ShowAll | ShowTodo | ShowInProgress | ShowDone {
    function Status(): Option<TaskStatus> {
      match this
      case ShowAll => None
      case ShowTodo => Some(Todo)
      case ShowInProgress => Some(InProgress)
      case ShowDone => Some(Done)
    }
  }

  const TasksPath := "/api/tasks"
  const StatusQuery := "/api/tasks?status="

  /**
   * `filter === 'all' ? '/api/tasks' : '/api/tasks?status=' + filter`: each
   * tab fetches a URL that names its own status and nothing else.
   */
  function FetchUrl(f: TaskFilter): (r: string)
    ensures FilterOfUrl(r) == Some(f)
  {
    if f == ShowAll then TasksPath
    else
      var url := StatusQuery + f.Status().value.Name();
      assert url[..|StatusQuery|] == StatusQuery;
      assert url[|StatusQuery|..] == f.Status().value.Name();
      url
  }

  /** Which tab a URL of the list belongs to. */
  function FilterOfUrl(url: string): Option<TaskFilter> {
    if url == TasksPath then Some(ShowAll)
    else if |StatusQuery| <= |url| && url[..|StatusQuery|] == StatusQuery then
      var name := url[|StatusQuery|..];
      if name == "TODO" then Some(ShowTodo)
      else if name == "IN_PROGRESS" then Some(ShowInProgress)
      else if name == "DONE" then Some(ShowDone)
      else None
    else None
  }

  /** No two tabs share a URL. */
  lemma FetchUrlsDistinct(f: TaskFilter, g: TaskFilter)
    ensures FetchUrl(f) == FetchUrl(g) <==> f == g
  {
  }
}
