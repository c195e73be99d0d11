/**
 * The records of the time tracker (time entries, tasks, projects), their
 * enumerations, the duration formula shared by server and client, and the
 * sums and invariants the statistics and the timer rely on.
 *
 * Instants are integer milliseconds since the epoch; identifiers are strings.
 */
module Domain {
  import opened Wrappers
  import opened Listing

  datatype TaskStatus = Todo | InProgress | Done | Cancelled {
    /** The enumeration's string value. */
    function Name(): string {
      match this
      case Todo => "TODO"
      case InProgress => "IN_PROGRESS"
      case Done => "DONE"
      case Cancelled => "CANCELLED"
    }
  }

  datatype Priority = Low | Medium | High | Urgent {
    function Name(): string {
      match this
      case Low => "LOW"
      case Medium => "MEDIUM"
      case High => "HIGH"
      case Urgent => "URGENT"
    }
  }

  /** A span of tracked time; it is running ("the active timer") while `endTime` is absent. */
  datatype TimeEntry = TimeEntry(
    id: string,
    description: Option<string>,
    startTime: int,
    endTime: Option<int>,
    duration: Option<int>,   // whole seconds
    userId: string,
    taskId: Option<string>,
    projectId: Option<string>,
    isManual: bool,
    createdAt: int,
    updatedAt: int)
  {
    predicate IsOpen() { endTime.None? }
  }

  datatype Task = Task(
    id: string,
    title: string,
    description: Option<string>,
    status: TaskStatus,
    priority: Priority,
    projectId: Option<string>,
    userId: string,
    dueDate: Option<int>,
    completedAt: Option<int>,
    createdAt: int,
    updatedAt: int)

  datatype Project = Project(
    id: string,
    name: string,
    description: Option<string>,
    color: string,
    isArchived: bool,
    userId: string,
    createdAt: int,
    updatedAt: int)

  /** The dashboard figures: seconds tracked in three windows and three counts. */
  datatype TimeStats = TimeStats(
    today: int,
    thisWeek: int,
    thisMonth: int,
    totalTasks: nat,
    completedTasks: nat,
    activeProjects: nat)

  /**
   * Whole seconds from `startMs` to `endMs`, rounded down:
   * `Math.floor((end - start) / 1000)`. Dafny's `/` is Euclidean, which for
   * the positive divisor 1000 is exactly the floor, negative spans included.
   */
  function ElapsedSeconds(startMs: int, endMs: int): (r: int)
    ensures r * 1000 <= endMs - startMs < r * 1000 + 1000
    ensures startMs <= endMs ==> r >= 0
    ensures endMs < startMs ==> r < 0
  {
    (endMs - startMs) / 1000
  }

  /** An entry's contribution to a sum: `e.duration || 0`. */
  function DurationOrZero(e: TimeEntry): int {
    e.duration.GetOr(0)
  }

  /** `entries.reduce((sum, e) => sum + (e.duration || 0), 0)`. */
  function TotalDuration(s: seq<TimeEntry>): int {
    if |s| == 0 then 0 else DurationOrZero(s[0]) + TotalDuration(s[1..])
  }

  predicate NonNegativeDurations(s: seq<TimeEntry>) {
    forall i :: 0 <= i < |s| ==> DurationOrZero(s[i]) >= 0
  }

  lemma {:induction false} TotalDurationAppend(a: seq<TimeEntry>, b: seq<TimeEntry>)
    ensures TotalDuration(a + b) == TotalDuration(a) + TotalDuration(b)
  {
    if |a| == 0 {
      assert a + b == b;
    } else {
      assert (a + b)[1..] == a[1..] + b;
      TotalDurationAppend(a[1..], b);
    }
  }

  /**
   * With no negative durations, a wider selection never sums to less:
   * the reason today's total cannot exceed this week's.
   */
  lemma {:induction false} TotalDurationMono(s: seq<TimeEntry>, p: TimeEntry -> bool, q: TimeEntry -> bool)
    requires NonNegativeDurations(s)
    requires forall e :: e in s && p(e) ==> q(e)
    ensures TotalDuration(Filter(s, p)) <= TotalDuration(Filter(s, q))
  {
    if |s| > 0 {
      TotalDurationMono(s[1..], p, q);
      var hp := if p(s[0]) then [s[0]] else [];
      var hq := if q(s[0]) then [s[0]] else [];
      TotalDurationAppend(hp, Filter(s[1..], p));
      TotalDurationAppend(hq, Filter(s[1..], q));
    }
  }

  /** Leaving out entries that contribute nothing (a missing or zero duration) leaves a sum as it was. */
  lemma {:induction false} TotalDurationSkipsZeros(s: seq<TimeEntry>, p: TimeEntry -> bool, q: TimeEntry -> bool)
    requires forall e :: e in s && q(e) ==> p(e)
    requires forall e :: e in s && p(e) && !q(e) ==> DurationOrZero(e) == 0
    ensures TotalDuration(Filter(s, p)) == TotalDuration(Filter(s, q))
  {
    if |s| > 0 {
      TotalDurationSkipsZeros(s[1..], p, q);
      var hp := if p(s[0]) then [s[0]] else [];
      var hq := if q(s[0]) then [s[0]] else [];
      TotalDurationAppend(hp, Filter(s[1..], p));
      TotalDurationAppend(hq, Filter(s[1..], q));
    }
  }

  // ---------------------------------------------------------------------
  // The active-timer invariant: at most one open entry per user.
  // ---------------------------------------------------------------------

  predicate OneActivePerUser(s: seq<TimeEntry>) {
    forall i, j :: 0 <= i < j < |s| && s[i].IsOpen() && s[j].IsOpen() ==> s[i].userId != s[j].userId
  }

  /** Does `user` have a running timer among `s`? */
  predicate HasOpenEntry(s: seq<TimeEntry>, user: string) {
    exists i :: 0 <= i < |s| && s[i].IsOpen() && s[i].userId == user
  }

  /** Adding a closed entry, or an open one for a user without a running timer, keeps the invariant. */
  lemma OneActiveAppend(s: seq<TimeEntry>, e: TimeEntry)
    requires OneActivePerUser(s)
    requires e.IsOpen() ==> !HasOpenEntry(s, e.userId)
    ensures OneActivePerUser(s + [e])
  {
    var t := s + [e];
    forall i, j | 0 <= i < j < |t| && t[i].IsOpen() && t[j].IsOpen() ensures t[i].userId != t[j].userId {
      if j == |s| {
        assert t[i] == s[i];
      }
    }
  }

  /** Replacing an entry by one of the same user that is open only if the old one was keeps the invariant. */
  lemma OneActiveReplace(s: seq<TimeEntry>, i: nat, e: TimeEntry)
    requires OneActivePerUser(s)
    requires i < |s| && e.userId == s[i].userId && (e.IsOpen() ==> s[i].IsOpen())
    ensures OneActivePerUser(s[i := e])
  {
  }

  /** Removing an entry keeps the invariant. */
  lemma OneActiveRemove(s: seq<TimeEntry>, i: nat)
    requires OneActivePerUser(s)
    requires i < |s|
    ensures OneActivePerUser(RemoveAt(s, i))
  {
    var t := RemoveAt(s, i);
    forall a, b | 0 <= a < b < |t| && t[a].IsOpen() && t[b].IsOpen() ensures t[a].userId != t[b].userId {
      var a' := if a < i then a else a + 1;
      var b' := if b < i then b else b + 1;
      assert t[a] == s[a'] && t[b] == s[b'];
    }
  }

  // ---------------------------------------------------------------------
  // Orderings.
  // ---------------------------------------------------------------------

  /**
   * Newest first: the store's comparators (`b.startTime - a.startTime`) and
   * the services' `orderBy: { ... : 'desc' }` both sort by these.
   */
  predicate StartTimeDesc(a: TimeEntry, b: TimeEntry) { a.startTime >= b.startTime }
  predicate TaskCreatedDesc(a: Task, b: Task) { a.createdAt >= b.createdAt }
  predicate ProjectCreatedDesc(a: Project, b: Project) { a.createdAt >= b.createdAt }

  lemma NewestFirstOrders()
    ensures TotalPreorder(StartTimeDesc)
    ensures TotalPreorder(TaskCreatedDesc)
    ensures TotalPreorder(ProjectCreatedDesc)
  {
  }
}
