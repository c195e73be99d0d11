/**
 * `TimeService`: the time entry operations behind the API, over the
 * database tables. Every lookup is scoped by the calling user; writes then
 * address the row by its id.
 *
 * Two invariants of the entries table are kept by every operation here:
 * each user has at most one running timer (`OneActivePerUser`), and every
 * finished entry's duration is the whole seconds between its start and its
 * end while a running entry has none (`DurationsDerived`).
 */
module TimeService {
  import opened Wrappers
  import opened Listing
  import opened Domain
  import opened Js
  import opened Db

  // ---------------------------------------------------------------------
  // The derived-duration invariant.
  // ---------------------------------------------------------------------

  predicate DurationDerived(e: TimeEntry) {
    if e.endTime.Some? then e.duration == Some(ElapsedSeconds(e.startTime, e.endTime.value))
    else e.duration.None?
  }

  predicate DurationsDerived(s: seq<TimeEntry>) {
    forall i :: 0 <= i < |s| ==> DurationDerived(s[i])
  }

  lemma DurationsDerivedAppend(s: seq<TimeEntry>, e: TimeEntry)
    requires DurationsDerived(s) && DurationDerived(e)
    ensures DurationsDerived(s + [e])
  {
  }

  lemma DurationsDerivedRemove(s: seq<TimeEntry>, i: nat)
    requires DurationsDerived(s) && i < |s|
    ensures DurationsDerived(RemoveAt(s, i))
  {
  }

  /** A finished entry whose duration is derived from its times; it is negative exactly when the end precedes the start. */
  function Finished(e: TimeEntry, endMs: int): (r: TimeEntry)
    ensures DurationDerived(r) && !r.IsOpen()
    ensures r.endTime == Some(endMs)
    ensures r.duration.value < 0 <==> endMs < e.startTime
    ensures r == e.(endTime := r.endTime, duration := r.duration)
  {
    e.(endTime := Some(endMs), duration := Some(ElapsedSeconds(e.startTime, endMs)))
  }

  // ---------------------------------------------------------------------
  // startTimer / stopTimer / getActiveTimer.
  // ---------------------------------------------------------------------

  /**
   * Starts a timer unless the user already has a running one. `now` is the
   * clock reading and `id` the identifier the database generates.
   */
  method StartTimer(db: Database, userId: string, taskId: Option<string>, projectId: Option<string>,
                    description: Option<string>, now: int, id: string) returns (r: Result<TimeEntry>)
    requires db.Valid() && KeyFree(db.entries, EntryKey, id)
    modifies db`entries
    ensures db.Valid()
    ensures r.Err? <==> HasOpenEntry(old(db.entries), userId)
    ensures r.Err? ==> r.error == ActiveTimerExists && db.entries == old(db.entries)
    ensures r.Ok? ==> r.value == TimeEntry(id, description, now, None, None, userId, taskId, projectId,
                                           db.defaults.isManual, now, now)
    ensures r.Ok? ==> db.entries == old(db.entries) + [r.value]
    ensures OneActivePerUser(old(db.entries)) ==> OneActivePerUser(db.entries)
    ensures DurationsDerived(old(db.entries)) ==> DurationsDerived(db.entries)
  {
    var active := FindFirst(db.entries, OpenEntryOf(userId));
    if active.Some? {
      return Err(ActiveTimerExists);
    }
    var entry := TimeEntry(id, description, now, None, None, userId, taskId, projectId,
                           db.defaults.isManual, now, now);
    if OneActivePerUser(db.entries) {
      OneActiveAppend(db.entries, entry);
    }
    KeysDistinctAppend(db.entries, EntryKey, entry);
    db.entries := db.entries + [entry];
    r := Ok(entry);
  }

  /**
   * Stops the user's running entry `entryId` at `now`. Afterwards no running
   * entry has that id, so stopping it again reports `NoActiveTimer`.
   */
  method StopTimer(db: Database, userId: string, entryId: string, now: int) returns (r: Result<TimeEntry>)
    requires db.Valid()
    modifies db`entries
    ensures db.Valid()
    ensures r.Err? <==> forall k :: 0 <= k < |old(db.entries)| ==> !OpenEntryOwned(entryId, userId)(old(db.entries)[k])
    ensures r.Err? ==> r.error == NoActiveTimer && db.entries == old(db.entries)
    ensures r.Ok? ==>
      var i := FindIndex(old(db.entries), OpenEntryOwned(entryId, userId));
      r.value == Finished(old(db.entries)[i], now) && db.entries == old(db.entries)[i := r.value]
    ensures forall k :: 0 <= k < |db.entries| ==> !OpenEntryOwned(entryId, userId)(db.entries[k])
    ensures OneActivePerUser(old(db.entries)) ==> OneActivePerUser(db.entries)
    ensures DurationsDerived(old(db.entries)) ==> DurationsDerived(db.entries)
  {
    var i := FindIndex(db.entries, OpenEntryOwned(entryId, userId));
    if i == -1 {
      return Err(NoActiveTimer);
    }
    var entry := db.entries[i];
    var j := FindIndex(db.entries, EntryIdIs(entryId));
    assert j == i;
    var updated := Finished(entry, now);
    if OneActivePerUser(db.entries) {
      OneActiveReplace(db.entries, j, updated);
    }
    KeysDistinctReplace(db.entries, EntryKey, j, updated);
    db.entries := db.entries[j := updated];
    r := Ok(updated);
  }

  /**
   * The user's running entry, if any. Under the one-timer invariant it is
   * the only one, so which row the database returns first does not matter.
   */
  function GetActiveTimer(db: Database, userId: string): (r: Option<TimeEntry>)
    reads db
    ensures r.None? <==> !HasOpenEntry(db.entries, userId)
    ensures r.Some? ==> r.value in db.entries && r.value.IsOpen() && r.value.userId == userId
    ensures OneActivePerUser(db.entries) ==>
      forall i :: 0 <= i < |db.entries| && db.entries[i].IsOpen() && db.entries[i].userId == userId ==>
        r == Some(db.entries[i])
  {
    FindFirst(db.entries, OpenEntryOf(userId))
  }

  // ---------------------------------------------------------------------
  // createManualEntry / deleteTimeEntry / updateTimeEntry.
  // ---------------------------------------------------------------------

  /**
   * Records a finished entry. Nothing checks that `endTime` follows
   * `startTime` (the duration is then negative) or that a timer is running.
   */
  method CreateManualEntry(db: Database, userId: string, startTime: int, endTime: int,
                           taskId: Option<string>, projectId: Option<string>, description: Option<string>,
                           now: int, id: string) returns (e: TimeEntry)
    requires db.Valid() && KeyFree(db.entries, EntryKey, id)
    modifies db`entries
    ensures db.Valid()
    ensures db.entries == old(db.entries) + [e]
    ensures e == TimeEntry(id, description, startTime, Some(endTime), Some(ElapsedSeconds(startTime, endTime)),
                           userId, taskId, projectId, true, now, now)
    ensures OneActivePerUser(old(db.entries)) ==> OneActivePerUser(db.entries)
    ensures DurationsDerived(old(db.entries)) ==> DurationsDerived(db.entries)
  {
    e := TimeEntry(id, description, startTime, Some(endTime), Some(ElapsedSeconds(startTime, endTime)),
                   userId, taskId, projectId, true, now, now);
    if OneActivePerUser(db.entries) {
      OneActiveAppend(db.entries, e);
    }
    KeysDistinctAppend(db.entries, EntryKey, e);
    db.entries := db.entries + [e];
  }

  /** Deletes one of the user's entries and returns it as it was. */
  method DeleteTimeEntry(db: Database, userId: string, entryId: string) returns (r: Result<TimeEntry>)
    requires db.Valid()
    modifies db`entries
    ensures db.Valid()
    ensures r.Err? <==> forall k :: 0 <= k < |old(db.entries)| ==> !EntryOwned(entryId, userId)(old(db.entries)[k])
    ensures r.Err? ==> r.error == TimeEntryNotFound && db.entries == old(db.entries)
    ensures r.Ok? ==>
      var i := FindIndex(old(db.entries), EntryOwned(entryId, userId));
      r.value == old(db.entries)[i] && db.entries == RemoveAt(old(db.entries), i)
    ensures r.Ok? ==> KeyFree(db.entries, EntryKey, entryId)
    ensures OneActivePerUser(old(db.entries)) ==> OneActivePerUser(db.entries)
    ensures DurationsDerived(old(db.entries)) ==> DurationsDerived(db.entries)
  {
    var i := FindIndex(db.entries, EntryOwned(entryId, userId));
    if i == -1 {
      return Err(TimeEntryNotFound);
    }
    var entry := db.entries[i];
    var j := FindIndex(db.entries, EntryIdIs(entryId));
    assert j == i;
    if OneActivePerUser(db.entries) {
      OneActiveRemove(db.entries, j);
    }
    if DurationsDerived(db.entries) {
      DurationsDerivedRemove(db.entries, j);
    }
    KeysDistinctRemove(db.entries, EntryKey, j);
    db.entries := RemoveAt(db.entries, j);
    r := Ok(entry);
  }

  /** The fields `updateTimeEntry` accepts; `None` is a field left out. */
  datatype EntryChanges = EntryChanges(
    description: Option<string>,
    startTime: Option<int>,
    endTime: Option<int>,
    taskId: Option<string>,
    projectId: Option<string>)

  /**
   * The duration written back: recomputed from the new times when a time was
   * supplied and the entry (after the change) has an end; the stored value otherwise.
   */
  function UpdatedDuration(e: TimeEntry, d: EntryChanges): Option<int> {
    if d.startTime.Some? || d.endTime.Some? then
      var start := d.startTime.GetOr(e.startTime);
      var end := Override(d.endTime, e.endTime);
      if end.Some? then Some(ElapsedSeconds(start, end.value)) else e.duration
    else e.duration
  }

  /** `{ ...entry, ...data, duration }`. */
  function ApplyEntryChanges(e: TimeEntry, d: EntryChanges): (r: TimeEntry)
    ensures DurationDerived(e) ==> DurationDerived(r)
    ensures r.IsOpen() ==> e.IsOpen()
    ensures r.id == e.id && r.userId == e.userId && r.isManual == e.isManual
    ensures r.createdAt == e.createdAt && r.updatedAt == e.updatedAt
    ensures SpreadOptional(d.description, e.description, r.description)
    ensures Spread(d.startTime, e.startTime, r.startTime)
    ensures SpreadOptional(d.endTime, e.endTime, r.endTime)
    ensures SpreadOptional(d.taskId, e.taskId, r.taskId)
    ensures SpreadOptional(d.projectId, e.projectId, r.projectId)
  {
    e.(description := Override(d.description, e.description),
       startTime := d.startTime.GetOr(e.startTime),
       endTime := Override(d.endTime, e.endTime),
       taskId := Override(d.taskId, e.taskId),
       projectId := Override(d.projectId, e.projectId),
       duration := UpdatedDuration(e, d))
  }

  /** Applying the same changes twice is applying them once. */
  lemma ApplyEntryChangesProperties(e: TimeEntry, d: EntryChanges)
    ensures ApplyEntryChanges(ApplyEntryChanges(e, d), d) == ApplyEntryChanges(e, d)
  {
  }

  /**
   * A change that supplies no time keeps the stored duration even when the
   * entry is running; one that supplies a time to a finished entry makes
   * the duration agree with the new times.
   */
  lemma UpdatedDurationCases(e: TimeEntry, d: EntryChanges)
    ensures d.startTime.None? && d.endTime.None? ==> ApplyEntryChanges(e, d).duration == e.duration
    ensures (d.startTime.Some? || d.endTime.Some?) && !ApplyEntryChanges(e, d).IsOpen() ==>
      var u := ApplyEntryChanges(e, d);
      u.duration == Some(ElapsedSeconds(u.startTime, u.endTime.value))
  {
  }

  /** Updates one of the user's entries. */
  method UpdateTimeEntry(db: Database, userId: string, entryId: string, d: EntryChanges) returns (r: Result<TimeEntry>)
    requires db.Valid()
    modifies db`entries
    ensures db.Valid()
    ensures r.Err? <==> forall k :: 0 <= k < |old(db.entries)| ==> !EntryOwned(entryId, userId)(old(db.entries)[k])
    ensures r.Err? ==> r.error == TimeEntryNotFound && db.entries == old(db.entries)
    ensures r.Ok? ==>
      var i := FindIndex(old(db.entries), EntryOwned(entryId, userId));
      r.value == ApplyEntryChanges(old(db.entries)[i], d) && db.entries == old(db.entries)[i := r.value]
    ensures OneActivePerUser(old(db.entries)) ==> OneActivePerUser(db.entries)
    ensures DurationsDerived(old(db.entries)) ==> DurationsDerived(db.entries)
  {
    var i := FindIndex(db.entries, EntryOwned(entryId, userId));
    if i == -1 {
      return Err(TimeEntryNotFound);
    }
    var entry := db.entries[i];
    var duration := entry.duration;
    if d.startTime.Some? || d.endTime.Some? {
      var start := d.startTime.GetOr(entry.startTime);
      var end := Override(d.endTime, entry.endTime);
      if end.Some? {
        duration := Some(ElapsedSeconds(start, end.value));
      }
    }
    var updated := entry.(description := Override(d.description, entry.description),
                          startTime := d.startTime.GetOr(entry.startTime),
                          endTime := Override(d.endTime, entry.endTime),
                          taskId := Override(d.taskId, entry.taskId),
                          projectId := Override(d.projectId, entry.projectId),
                          duration := duration);
    assert updated == ApplyEntryChanges(entry, d);
    ApplyEntryChangesProperties(entry, d);
    var j := FindIndex(db.entries, EntryIdIs(entryId));
    assert j == i;
    if OneActivePerUser(db.entries) {
      OneActiveReplace(db.entries, j, updated);
    }
    KeysDistinctReplace(db.entries, EntryKey, j, updated);
    db.entries := db.entries[j := updated];
    r := Ok(updated);
  }

  // ---------------------------------------------------------------------
  // getTimeEntries.
  // ---------------------------------------------------------------------

  /** The optional filters and page size of `getTimeEntries`. */
  datatype EntryOptions = EntryOptions(
    startDate: Option<int>,
    endDate: Option<int>,
    projectId: Option<string>,
    taskId: Option<string>,
    limit: Option<nat>)

  /** The `where` object the service assembles: user, an optional start-time range, project and task. */
  datatype StartRange = StartRange(gte: Option<int>, lte: Option<int>)
  datatype EntryWhere = EntryWhere(userId: string, startTime: Option<StartRange>,
                                   projectId: Option<string>, taskId: Option<string>)

  function EntryWhereMatches(w: EntryWhere): TimeEntry -> bool {
    (e: TimeEntry) =>
      && e.userId == w.userId
      && (w.startTime.Some? ==>
            (w.startTime.value.gte.Some? ==> e.startTime >= w.startTime.value.gte.value)
            && (w.startTime.value.lte.Some? ==> e.startTime <= w.startTime.value.lte.value))
      && (w.projectId.Some? ==> e.projectId == w.projectId)
      && (w.taskId.Some? ==> e.taskId == w.taskId)
  }

  /**
   * Which entries `getTimeEntries` is meant to return, stated directly: the
   * user's, starting inside the given dates, in the given project and task;
   * an empty project or task id filters nothing.
   */
  function EntryWanted(userId: string, o: EntryOptions): TimeEntry -> bool {
    (e: TimeEntry) =>
      && e.userId == userId
      && (o.startDate.Some? ==> o.startDate.value <= e.startTime)
      && (o.endDate.Some? ==> e.startTime <= o.endDate.value)
      && (Truthy(o.projectId) ==> e.projectId == o.projectId)
      && (Truthy(o.taskId) ==> e.taskId == o.taskId)
  }

  /**
   * The user's entries matching the options, newest first, at most `limit`
   * of them: a leading part of the matching entries in start-time order,
   * so every entry left out started no later than the last one returned.
   */
  method GetTimeEntries(db: Database, userId: string, o: EntryOptions) returns (r: seq<TimeEntry>)
    ensures forall i :: 0 <= i < |r| ==> r[i] in db.entries && EntryWanted(userId, o)(r[i])
    ensures TopBy(r, Filter(db.entries, EntryWanted(userId, o)), StartTimeDesc)
    ensures |r| == (var n := |Filter(db.entries, EntryWanted(userId, o))|;
                    if o.limit.Some? && o.limit.value < n then o.limit.value else n)
  {
    var where := EntryWhere(userId, None, None, None);
    if o.startDate.Some? || o.endDate.Some? {
      var range := StartRange(None, None);
      if o.startDate.Some? { range := range.(gte := o.startDate); }
      if o.endDate.Some? { range := range.(lte := o.endDate); }
      where := where.(startTime := Some(range));
    }
    if Truthy(o.projectId) { where := where.(projectId := o.projectId); }
    if Truthy(o.taskId) { where := where.(taskId := o.taskId); }

    var all := db.entries;
    FilterAgree(all, EntryWhereMatches(where), EntryWanted(userId, o));
    var matching := Filter(all, EntryWhereMatches(where));
    var sorted := Sort(matching, StartTimeDesc);
    r := Take(sorted, o.limit);
    NewestFirstOrders();
    TakeOfSortIsTop(matching, StartTimeDesc, o.limit);
    PrefixOfSortedFilter(all, EntryWanted(userId, o), StartTimeDesc, r);
  }

  // ---------------------------------------------------------------------
  // getTimeStats.
  // ---------------------------------------------------------------------

  /** An inclusive range of instants, `[startOfDay(now), endOfDay(now)]` and the like. */
  datatype Span = Span(first: int, last: int) {
    predicate Within(outer: Span) { outer.first <= first && last <= outer.last }
  }

  function StartsIn(userId: string, w: Span): TimeEntry -> bool {
    (e: TimeEntry) => e.userId == userId && w.first <= e.startTime <= w.last
  }

  function DoneOf(userId: string): Task -> bool {
    (t: Task) => t.userId == userId && t.status == Done
  }

  function ActiveProjectOf(userId: string): Project -> bool {
    (p: Project) => p.userId == userId && !p.isArchived
  }

  /**
   * The dashboard figures for a user: seconds tracked in the day, week and
   * month spans (rows without a duration add nothing, and an empty sum is
   * 0), task counts and active projects. The spans are computed from the
   * clock by the caller.
   */
  function GetTimeStats(db: Database, userId: string, day: Span, week: Span, month: Span): (r: TimeStats)
    reads db
    ensures r.today == TotalDuration(Filter(db.entries, StartsIn(userId, day)))
    ensures r.thisWeek == TotalDuration(Filter(db.entries, StartsIn(userId, week)))
    ensures r.thisMonth == TotalDuration(Filter(db.entries, StartsIn(userId, month)))
    ensures r.totalTasks == |Filter(db.tasks, TaskOf(userId))|
    ensures r.completedTasks == |Filter(db.tasks, DoneOf(userId))|
    ensures r.activeProjects == |Filter(db.projects, ActiveProjectOf(userId))|
    ensures r.completedTasks <= r.totalTasks
    ensures r.activeProjects <= |Filter(db.projects, ProjectOf(userId))|
    ensures NonNegativeDurations(db.entries) && day.Within(week) ==> 0 <= r.today <= r.thisWeek
    ensures NonNegativeDurations(db.entries) && week.Within(month) ==> r.thisWeek <= r.thisMonth
  {
    FilterCountMono(db.tasks, DoneOf(userId), TaskOf(userId));
    FilterCountMono(db.projects, ActiveProjectOf(userId), ProjectOf(userId));
    SpanTotalMono(db.entries, userId, day, week);
    SpanTotalMono(db.entries, userId, week, month);
    TimeStats(
      TotalDuration(Filter(db.entries, StartsIn(userId, day))),
      TotalDuration(Filter(db.entries, StartsIn(userId, week))),
      TotalDuration(Filter(db.entries, StartsIn(userId, month))),
      |Filter(db.tasks, TaskOf(userId))|,
      |Filter(db.tasks, DoneOf(userId))|,
      |Filter(db.projects, ActiveProjectOf(userId))|)
  }

  /** A span inside another sums no more, and nothing is negative. */
  lemma SpanTotalMono(s: seq<TimeEntry>, userId: string, inner: Span, outer: Span)
    ensures NonNegativeDurations(s) && inner.Within(outer) ==>
      0 <= TotalDuration(Filter(s, StartsIn(userId, inner))) <= TotalDuration(Filter(s, StartsIn(userId, outer)))
  {
    if NonNegativeDurations(s) && inner.Within(outer) {
      TotalDurationMono(s, StartsIn(userId, inner), StartsIn(userId, outer));
      TotalDurationMono(s, (e: TimeEntry) => false, StartsIn(userId, inner));
      assert Filter(s, (e: TimeEntry) => false) == [] by {
        FilterCountMono(s, (e: TimeEntry) => false, (e: TimeEntry) => false);
      }
    }
  }

  /**
   * The figures depend on the user's own rows only: two databases that hold
   * the same rows for `userId` report the same statistics.
   */
  lemma {:induction false} TimeStatsScoped(a: Database, b: Database, userId: string, day: Span, week: Span, month: Span)
    requires Filter(a.entries, EntryOf(userId)) == Filter(b.entries, EntryOf(userId))
    requires Filter(a.tasks, TaskOf(userId)) == Filter(b.tasks, TaskOf(userId))
    requires Filter(a.projects, ProjectOf(userId)) == Filter(b.projects, ProjectOf(userId))
    ensures GetTimeStats(a, userId, day, week, month) == GetTimeStats(b, userId, day, week, month)
  {
    forall w: Span, x: seq<TimeEntry> {:trigger Filter(x, StartsIn(userId, w))}
      ensures Filter(Filter(x, EntryOf(userId)), StartsIn(userId, w)) == Filter(x, StartsIn(userId, w))
    {
      FilterCompose(x, EntryOf(userId), StartsIn(userId, w), StartsIn(userId, w));
    }
    FilterCompose(a.tasks, TaskOf(userId), DoneOf(userId), DoneOf(userId));
    FilterCompose(b.tasks, TaskOf(userId), DoneOf(userId), DoneOf(userId));
    FilterCompose(a.projects, ProjectOf(userId), ActiveProjectOf(userId), ActiveProjectOf(userId));
    FilterCompose(b.projects, ProjectOf(userId), ActiveProjectOf(userId), ActiveProjectOf(userId));
  }
}
