# Time tracking bot: a verified model of its core

This project models the core of a time-tracking Telegram bot and its web app.
Users start and stop timers, record manual time entries, keep tasks and
projects, and see totals on a dashboard. The model covers:

- the three database services: time entries (`TimeService`), tasks
  (`TaskService`) and projects (`ProjectService`). They run over a `Database`
  class whose tables (`entries`, `tasks`, `projects`) the write operations
  change in place. Every lookup is scoped by the calling user, and writes
  then address the row by its id;
- the in-memory store the app can run on instead (`Store.MemoryStore`). It
  has its own defaults, filters, newest-first sorting, completion stamping
  and statistics;
- the Telegram Mini App login check (`TelegramAuth`): the data-check string,
  the HMAC comparison, and the status codes of the login endpoint;
- the display logic of the UI components. This covers the timer's elapsed
  time and `HH:MM:SS` text (`Timer`), the dashboard's `Xh Ym` durations
  (`StatsCard`), and the project list's total time (`ProjectList`). It also
  covers the task list's toggle, colours, icons and fetch URL (`TaskList`).

Shared pieces:

- `Domain` holds the records and the two enumerations, and the
  seconds-from-milliseconds rule.
- `Listing` holds the generic sequence machinery: first match, filter, and a
  stable insertion sort with its uniqueness theorem. It also defines
  `TopBy`, which states a database `orderBy` plus `take` when ties may come
  back in any order.
- `Text` holds decimal printing, `padStart`, `join` and `split`.
- `Js` holds JavaScript's `||` defaults, object-spread override and
  truncating `%`.

Time is an integer count of milliseconds. The clock, fresh ids, and the
day, week and month windows are parameters of the operations that use them.

The model proves these properties:

- Every time-service write keeps two invariants of the entries table:
  - each user has at most one running timer (`OneActivePerUser`);
  - every finished entry's duration is the whole seconds between its start
    and end, and a running entry has none (`DurationsDerived`).
- Ids stay unique in every table (`Database.Valid`).
- Another user's row is indistinguishable from a missing one.
- The completion stamp changes only when a task enters DONE. It survives
  any number of updates that keep the task DONE.
- Listings are the matching rows, sorted, with nothing lost.
- The login check ignores the hash pair and the order the client sent the
  pairs in.
- The formatters lose nothing beyond what they round away: reading `HH:MM:SS`
  back gives the seconds, and reading `Xh Ym` back gives the whole minutes.

A task's completion time is not set once and for all. An update stamps it
each time the task re-enters DONE, so the stamp records the most recent
completion (`TaskService.ReenteringDoneRestamps`). A task created as DONE is
never stamped (`TaskService.CreatedDoneNeverStamped`).

## Model

| member | source | states |
|---|---|---|
| Domain.ElapsedSeconds | src/lib/services/timeService.ts:49-50 | whole seconds rounded down: `r*1000 <= end-start < r*1000+1000`, non-negative exactly when the end is not before the start |
| Domain.TotalDurationAppend | src/lib/services/timeService.ts:188-190 | a duration sum splits over concatenation |
| Domain.TotalDurationMono | src/lib/services/timeService.ts:152-183 | with no negative durations, a wider selection of entries never sums to less |
| Domain.TotalDurationSkipsZeros | src/lib/store.ts:215-222 | leaving out entries with a missing or zero duration does not change a sum |
| Domain.OneActiveAppend | src/lib/services/timeService.ts:8-17 | appending a closed entry, or an open one for a user with no running timer, keeps at most one running timer per user |
| Domain.OneActiveReplace | src/lib/services/timeService.ts:52-58 | replacing an entry by one of the same user that is open only if the old one was keeps the one-timer invariant |
| Domain.OneActiveRemove | src/lib/services/timeService.ts:205 | removing an entry keeps the one-timer invariant |
| Domain.NewestFirstOrders | src/lib/store.ts:73 | the newest-first comparisons on start time and creation time are total preorders (a side condition the sort lemmas need, not a promise of the store) |
| Js.JsRem | app/components/Timer.tsx:119-120 | JavaScript's `%`: equals the Euclidean remainder for a non-negative dividend, and is minus the remainder of the negated dividend (in `(-b, 0]`) for a negative one |
| Js.OrString | src/lib/store.ts:30 | `s \|\| d`: the supplied string unless it is missing or empty |
| Db.Database.constructor | src/lib/store.ts:6-10 | starts with three empty tables, satisfying `Valid` (unique ids) |
| Db.TaskLookupIsScoped | src/lib/services/taskService.ts:44-50 | the `(id, userId)` task lookup depends only on that user's rows |
| Db.EntryLookupIsScoped | src/lib/services/timeService.ts:37-47 | the owned and the open-owned entry lookups depend only on that user's rows |
| Db.ProjectLookupIsScoped | src/lib/services/projectService.ts:35-40 | the `(id, userId)` project lookup depends only on that user's rows |
| TimeService.DurationsDerivedAppend | src/lib/services/timeService.ts:91-106 | appending an entry whose duration is derived keeps every duration derived (a step of the invariant proofs) |
| TimeService.DurationsDerivedRemove | src/lib/services/timeService.ts:205 | removing an entry keeps every duration derived |
| TimeService.Finished | src/lib/services/timeService.ts:49-58 | stopping sets the end and the derived duration and changes nothing else; the duration is negative exactly when the end precedes the start |
| TimeService.StartTimer | src/lib/services/timeService.ts:7-35 | fails with the active-timer error exactly when the user has a running entry, changing nothing; otherwise appends the running entry it returns; keeps unique ids, one timer per user and derived durations |
| TimeService.StopTimer | src/lib/services/timeService.ts:37-66 | fails exactly when the user has no running entry with that id; otherwise finishes the first such entry in place; afterwards no running entry of the user has that id; keeps both invariants |
| TimeService.GetActiveTimer | src/lib/services/timeService.ts:68-81 | none exactly when the user has no running entry; otherwise a running entry of the user, and under the one-timer invariant that very entry |
| TimeService.CreateManualEntry | src/lib/services/timeService.ts:83-111 | appends a finished manual entry whose duration is derived from the given times, with no check of their order; keeps both invariants |
| TimeService.DeleteTimeEntry | src/lib/services/timeService.ts:197-208 | fails exactly when the user owns no entry with that id; otherwise removes it, returns it as it was, and leaves no row with that id; keeps both invariants |
| TimeService.ApplyEntryChanges | src/lib/services/timeService.ts:229-245 | each supplied field (description, start, end, task, project) replaces the stored one and each absent field keeps it; id, owner, manual flag and timestamps stay; a derived duration stays derived and a finished entry is never reopened |
| TimeService.ApplyEntryChangesProperties | src/lib/services/timeService.ts:229-245 | applying the same changes twice is applying them once |
| TimeService.UpdatedDurationCases | src/lib/services/timeService.ts:229-236 | with no time supplied the stored duration stays (even on a running entry); with a time supplied to a finished entry the duration agrees with the new times |
| TimeService.UpdateTimeEntry | src/lib/services/timeService.ts:210-251 | fails exactly when the user owns no entry with that id; otherwise replaces it by the changed entry; keeps both invariants |
| TimeService.GetTimeEntries | src/lib/services/timeService.ts:113-145 | only the user's entries matching the dates, project and task (empty ids filter nothing); a leading part of them in newest-first order; exactly `min(limit, matches)` of them |
| TimeService.GetTimeStats | src/lib/services/timeService.ts:147-195 | each of today, this week and this month is the total duration of the user's entries started in that span; total tasks, completed tasks and active projects are exactly the counts of the user's tasks, DONE tasks and unarchived projects; completed ≤ total and active ≤ the user's projects; with no negative durations, a day inside the week and a week inside the month never sum to more |
| TimeService.SpanTotalMono | src/lib/services/timeService.ts:152-183 | a span inside another sums no more, and no span sums below zero, when no duration is negative |
| TimeService.TimeStatsScoped | src/lib/services/timeService.ts:147-195 | the statistics depend only on the user's own entries, tasks and projects |
| TaskService.CreateTask | src/lib/services/taskService.ts:8-30 | appends the task it returns, with the column defaults for a missing status or priority and no completion stamp; keeps ids unique |
| TaskService.ApplyTaskChanges | src/lib/services/taskService.ts:52-60 | each supplied field (title, description, status, priority, project, due date) replaces the stored one and each absent field keeps it; id, owner and creation time stay; the stamp becomes the clock reading on the edge into DONE and changes on no other update |
| TaskService.CompletionStampOnEdge | src/lib/services/taskService.ts:52 | leaving DONE keeps the completion stamp |
| TaskService.CompletedAtSticks | src/lib/services/taskService.ts:52 | a DONE task keeps its stamp and stays DONE through any series of updates that keep it DONE |
| TaskService.CreatedDoneNeverStamped | src/lib/services/taskService.ts:8-30 | a task created as DONE is never stamped by updates that keep it DONE |
| TaskService.ReenteringDoneRestamps | src/lib/services/taskService.ts:52 | leaving DONE and returning stamps the task with the time of the return |
| TaskService.StoreAndServiceStampAlike | src/lib/store.ts:130-145 | the in-memory store's task update agrees with the service's on every field except `updatedAt` |
| TaskService.UpdateTask | src/lib/services/taskService.ts:32-67 | fails exactly when the user owns no task with that id; otherwise replaces it by the changed task with its completion stamp |
| TaskService.DeleteTask | src/lib/services/taskService.ts:69-80 | fails exactly when the user owns no task with that id; otherwise removes it, returns it, and leaves no task with that id |
| TaskService.RelatedProject | src/lib/services/taskService.ts:83-86 | the included project is the one the task refers to, and is present whenever it exists |
| TaskService.GetTask | src/lib/services/taskService.ts:82-98 | not found exactly when the user owns no such task; otherwise the task with its related project (the stored project its project id names, present whenever one exists) and all its time entries, newest first, none lost or added |
| TaskService.TaskListOrderIsTotal | src/lib/services/taskService.ts:120 | status ascending, then priority descending, then newest first is a total preorder |
| TaskService.GetTasks | src/lib/services/taskService.ts:100-124 | only the user's tasks matching status, priority and project; sorted by the list order; exactly the matching tasks, each as often as stored |
| TaskService.OpenTasksFirst | src/lib/services/taskService.ts:120 | with the enumerations ranked in declaration order, unfinished tasks come before finished or cancelled ones, and within a status the higher priority comes first |
| ProjectService.CreateProject | src/lib/services/projectService.ts:6-22 | appends the project it returns, with the column defaults for colour and archiving; keeps ids unique |
| ProjectService.ApplyProjectChanges | src/lib/services/projectService.ts:42-48 | each supplied field (name, description, colour, archive flag) replaces the stored one and each absent field keeps it; id, owner and creation time stay; an empty update changes nothing |
| ProjectService.ApplyProjectChangesProperties | src/lib/services/projectService.ts:42-48 | repeating an update changes nothing more |
| ProjectService.UpdateProject | src/lib/services/projectService.ts:24-52 | fails exactly when the user owns no project with that id; otherwise replaces it by the changed project |
| ProjectService.DeleteProject | src/lib/services/projectService.ts:54-65 | fails exactly when the user owns no project with that id; otherwise removes it, returns it, and leaves no project with that id |
| ProjectService.GetProject | src/lib/services/projectService.ts:67-86 | not found exactly when the user owns no such project; otherwise all its tasks newest first with none lost, and its ten (or fewer) latest-started entries |
| ProjectService.GetProjects | src/lib/services/projectService.ts:88-104 | exactly the user's projects (archived ones only when asked for), each as often as stored, newest first |
| ProjectService.IncludeArchivedWidens | src/lib/services/projectService.ts:88-104 | including archived projects only adds to the listing, and adds nothing when none is archived |
| ProjectService.GetProjectStats | src/lib/services/projectService.ts:106-135 | not found exactly when the user owns no such project; otherwise its name and colour, the sum of the user's durations in it (0 when none), the task count exactly the user's tasks in it, the completed count exactly those of them that are DONE, and completed ≤ tasks ≤ the user's tasks |
| ProjectService.ProjectTimeWithinUserTotal | src/lib/services/projectService.ts:106-135 | a project's time lies between zero and the user's total time when no duration is negative |
| Store.MergeEntry | src/lib/store.ts:41-51 | every supplied key replaces the stored one and every absent key keeps it, id and creation time included; `updatedAt` is always the clock; an empty patch changes nothing else |
| Store.MergeEntryIdempotent | src/lib/store.ts:41-51 | applying the same entry patch twice is applying it once |
| Store.MergeTask | src/lib/store.ts:130-145 | every supplied key replaces the stored one and every absent key keeps it, id and creation time included; the stamp is the clock when the patch moves the task into DONE, otherwise the supplied stamp when given and the stored one when not |
| Store.MergeProject | src/lib/store.ts:186-196 | every supplied key replaces the stored one and every absent key keeps it, id and creation time included; `updatedAt` is the clock; an empty patch changes nothing else |
| Listing.FilterAppend | src/lib/store.ts:61 | `filter` keeps the order of what it keeps: filtering a concatenation is concatenating the filtered parts |
| Listing.FilterMultiplicity | src/lib/store.ts:61 | `filter` keeps each element it keeps exactly as often as it occurs in the input, and drops every other |
| Store.EntryFiltersCompose | src/lib/store.ts:60-71 | the four successive entry filters keep exactly the entries meeting all of them |
| Store.TaskFiltersCompose | src/lib/store.ts:95-103 | the three successive task filters keep exactly the tasks meeting all of them |
| Store.ApplyLimit | src/lib/store.ts:75-77 | a missing or zero limit keeps the list; a positive one keeps a prefix of length `min(limit, n)`; any limit keeps a prefix |
| Store.WindowSum | src/lib/store.ts:215-222 | the window sum is the total duration of the entries starting in the window |
| Store.WindowSumMono | src/lib/store.ts:208-227 | an earlier-opening window never reports less when no duration is negative |
| Store.SelectEntries | src/lib/store.ts:57-71 | the filtered list is exactly the entries matching the query |
| Store.SelectTasks | src/lib/store.ts:92-103 | the filtered list is exactly the tasks matching the query |
| Store.MemoryStore.constructor | src/lib/store.ts:6-10 | the three arrays start empty |
| Store.MemoryStore.FindActiveTimeEntry | src/lib/store.ts:19-21 | null exactly when no entry is running; otherwise the first running stored entry, whoever owns it |
| Store.MemoryStore.CreateTimeEntry | src/lib/store.ts:23-39 | appends the entry; start defaults to now, user to "demo-user" (also for ''), isManual to false |
| Store.MemoryStore.UpdateTimeEntry | src/lib/store.ts:41-51 | null and no change exactly when no entry has that id; otherwise merges into the first one in place |
| Store.MemoryStore.FindTimeEntry | src/lib/store.ts:53-55 | null exactly when no entry has that id; otherwise the first stored entry with that id |
| Store.MemoryStore.FindAllTimeEntries | src/lib/store.ts:57-80 | stored entries matching every filter, newest first, a stable sort cut to the limit; with no limit, all the matches |
| Store.MemoryStore.DeleteTimeEntry | src/lib/store.ts:82-87 | true exactly when an entry has that id, and then the first one is removed; otherwise no change |
| Store.MemoryStore.FindAllTasks | src/lib/store.ts:92-106 | exactly the stored tasks matching every filter, newest first |
| Store.MemoryStore.FindTask | src/lib/store.ts:108-110 | null exactly when no task has that id; otherwise the first stored task with that id |
| Store.MemoryStore.CreateTask | src/lib/store.ts:112-128 | appends the task; title '', status TODO, priority MEDIUM and user "demo-user" unless supplied |
| Store.MemoryStore.UpdateTask | src/lib/store.ts:130-145 | null and no change when no task has that id; otherwise the merged task with its completion stamp in place |
| Store.MemoryStore.DeleteTask | src/lib/store.ts:147-152 | removes the first task with that id, reporting whether there was one |
| Store.MemoryStore.FindAllProjects | src/lib/store.ts:157-165 | stored projects, archived ones only when asked for, newest first; with them, all of them |
| Store.MemoryStore.FindProject | src/lib/store.ts:167-169 | null exactly when no project has that id; otherwise the first stored project with that id |
| Store.MemoryStore.CreateProject | src/lib/store.ts:171-184 | appends the project; name '', colour '#3B82F6', not archived and user "demo-user" unless supplied |
| Store.MemoryStore.UpdateProject | src/lib/store.ts:186-196 | null and no change when no project has that id; otherwise the merged project in place |
| Store.MemoryStore.DeleteProject | src/lib/store.ts:198-203 | removes the first project with that id, reporting whether there was one |
| Store.MemoryStore.TimeStats | src/lib/store.ts:208-227 | each window is the total of the entries started in it; total tasks = all tasks, completed = the DONE tasks, active = the unarchived projects, so completed ≤ total and active ≤ all projects; today ≤ week and today ≤ month when durations are not negative |
| Store.MemoryStore.ProjectStats | src/lib/store.ts:229-244 | null exactly for an unknown project; otherwise exactly the entries in the project and their total, the task count exactly the tasks in the project and the completed count exactly those of them that are DONE, with completed ≤ tasks ≤ all tasks |
| TelegramAuth.Get | app/api/auth/route.ts:10 | none exactly when no pair has the key; otherwise the value of the first such pair |
| TelegramAuth.Delete | app/api/auth/route.ts:11 | removes every pair with the key and keeps all others |
| TelegramAuth.DeleteCounts | app/api/auth/route.ts:11 | every other pair is kept exactly as often as it occurs |
| TelegramAuth.DeleteKeepsOrder | app/api/auth/route.ts:11 | the remaining pairs keep their order: deleting distributes over concatenation and a single pair survives exactly when its key differs |
| TelegramAuth.ByKeyTotal | app/api/auth/route.ts:14 | comparing pairs by key is a total preorder when the key order is |
| TelegramAuth.CheckPairsContents | app/api/auth/route.ts:11-14 | the signed pairs are exactly the non-hash pairs, with multiplicity, sorted by key |
| TelegramAuth.DataCheckString | app/api/auth/route.ts:13-16 | splitting the data-check string at newlines gives back the rendered `key=value` signed pairs, when no key or value holds a newline and some pair besides the hash exists |
| TelegramAuth.DataCheckIgnoresHash | app/api/auth/route.ts:10-16 | a hash pair anywhere, with any value, leaves the data-check string unchanged |
| TelegramAuth.DataCheckOrderIndependent | app/api/auth/route.ts:13-16 | with distinct keys the string does not depend on the order the pairs were sent in |
| TelegramAuth.Validate | app/api/auth/route.ts:8-22 | init data without a hash never validates; init data that validates carries the digest of its signed pairs as a hash pair |
| TelegramAuth.HashDecides | app/api/auth/route.ts:8-22 | with its first hash pair carrying `h`, the data validates exactly when `h` is the HMAC of the other pairs |
| TelegramAuth.Authenticate | app/api/auth/route.ts:24-51 | 400 for missing init data, then 500 for a missing token, then 401 for a bad signature, then 400 exactly when the signed `user` value is missing or empty, else 200 with that value; 200 exactly when all pass |
| TelegramAuth.MissingInitDataFirst | app/api/auth/route.ts:28-36 | missing init data is answered 400 whether or not the token is configured |
| Text.DigitsValueOfNatString | app/components/StatsCard.tsx:40 | printing a natural number in decimal and reading it back gives the number |
| Text.NatStringLength | app/components/Timer.tsx:120-123 | one digit below 10, two below 100, three or more from 100, with no leading zero |
| Text.PaddedNatValue | app/components/Timer.tsx:120-123 | `padStart(n, '0')` of a number's digits is all digits and reads back as the number |
| Text.SplitJoin | app/api/auth/route.ts:16 | splitting the join of a non-empty list of separator-free parts gives back the parts |
| Text.JoinInjective | app/api/auth/route.ts:16 | joining separator-free parts is injective |
| Timer.Elapsed | app/components/Timer.tsx:28 | the elapsed whole seconds: the largest count whose thousand milliseconds fit in the time since the start |
| Timer.ElapsedMatchesServer | app/components/Timer.tsx:28 | the display's elapsed seconds equal the duration the server stores on stopping, and never run backwards |
| Timer.ClockFields | app/components/Timer.tsx:117-120 | hours, minutes in 0..59 and seconds in 0..59 that add up to the count exactly |
| Timer.FieldLength | app/components/Timer.tsx:121-123 | each field has at least two digits and reads back as its value |
| Timer.FormatTimeLength | app/components/Timer.tsx:117-124 | eight characters up to 99:59:59, nine or more from 100 hours |
| Timer.FormatTime | app/components/Timer.tsx:117-124 | for a non-negative count, reading the `HH:MM:SS` text back gives the seconds |
| Timer.SkewedClockDisplay | app/components/Timer.tsx:117-124 | a count of -1 second renders as `-1:-1:-1` |
| StatsCard.HoursAndMinutes | app/components/StatsCard.tsx:37-41 | whole hours and minutes in 0..59 that fall short of the count by less than a minute |
| StatsCard.FormatDuration | app/components/StatsCard.tsx:37-41 | for a non-negative count, reading the `Xh Ym` text back gives the whole minutes |
| StatsCard.FormatDurationSameMinutes | app/components/StatsCard.tsx:37-41 | two counts print alike exactly when they have the same whole minutes |
| StatsCard.FormatDurationShape | app/components/StatsCard.tsx:37-41 | hours shown from one hour on, only minutes below, "0m" under a minute |
| ProjectList.ReduceIsTotal | app/components/ProjectList.tsx:35 | the left-to-right running sum with missing durations as 0 is the total duration |
| ProjectList.GetTotalTime | app/components/ProjectList.tsx:34-39 | the label is the dashboard's rendering of the summed durations, so it reads back as their whole minutes; "0m" for no entries |
| TaskList.Toggle | app/components/TaskList.tsx:38 | a click finishes any unfinished task and reopens a finished one as TODO |
| TaskList.ToggleProperties | app/components/TaskList.tsx:38 | two clicks restore only DONE and TODO; IN_PROGRESS and CANCELLED end as TODO |
| TaskList.ToggleAndCompletion | app/components/TaskList.tsx:37-46 | through the service, a click on an unfinished task stamps it; unchecking and checking a DONE task moves its stamp to the second click |
| TaskList.PriorityColor | app/components/TaskList.tsx:56-67 | grey exactly for anything but URGENT, HIGH and MEDIUM; always one of the four colours |
| TaskList.PriorityColorsDistinct | app/components/TaskList.tsx:56-67 | each priority has its own colour; LOW's grey is also every unknown string's (a case check over the four names) |
| TaskList.StatusIcon | app/components/TaskList.tsx:69-78 | the check mark exactly for DONE and the clock exactly for IN_PROGRESS, the colour following the shape |
| TaskList.StatusIconChoice | app/components/TaskList.tsx:69-78 | over the status enumeration, TODO and CANCELLED look alike (a case check) |
| TaskList.FetchUrl | app/components/TaskList.tsx:26 | the tab can be read back from the URL it fetches |
| TaskList.FetchUrlsDistinct | app/components/TaskList.tsx:26 | no two tabs share a URL |

## Left out

- Network, HTTP parsing, React state and rendering, timers and `fetch` are left out. The model keeps only the values these components compute.
- The Prisma client is modelled as three in-memory tables. Relation includes are modelled only for `GetTask` (its project and time entries) and `GetProject` (its tasks and time entries). `GetActiveTimer`, `GetTimeEntries`, `GetTasks` and `GetProjects` return the bare rows, without the task and project, project and time entries, or tasks and time entries the source includes with them; the project list's total time is modelled over an explicit sequence of entries instead. Writes return the bare row.
- Referential actions on delete (cascades, nulling foreign keys) are left out. The schema is not part of this model.
- The database-managed `updatedAt` column is left out of the service writes. The in-memory store sets it, and the model does too.
- Column defaults (isManual, status, priority, colour, archived) come from the schema, which is not part of this model. They are a `ColumnDefaults` value fixed when the `Database` is constructed.
- TaskService.GetTasks: the database's order of the enumeration values is given as two rank functions. `OpenTasksFirst` states the consequence for declaration order.
- TimeService.GetTimeEntries: rows with equal start times may come back in any order. The contract says the result is a leading part of some newest-first arrangement (`TopBy`), not which one. The same holds for `GetProject`'s ten entries and for every service listing's ties.
- TimeService.GetTimeEntries: a negative `limit` cannot be given (`take` is a natural number here).
- TimeService.GetTimeStats: the windows `startOfDay`..`endOfDay`, week (Sunday start, the date-fns default) and month come from date-fns and the clock. They are `Span` parameters. The contract relates the three sums only when the spans nest.
- Promise.all and concurrency: the operations are modelled as atomic and sequential. Two concurrent `startTimer` calls could both pass the check in the original.
- A patch key that is present with the value `undefined` would clear a field in the in-memory store. It is modelled as a key that is left out.
- `generateId`, `Date.now` and `new Date()` are parameters (`id`, `now`).
- TelegramAuth: HMAC-SHA256, UTF-8 and hex encoding are uninterpreted parameters (`Crypto`). `URLSearchParams` parsing and percent-decoding are a `parse` parameter. `localeCompare` is a key-order parameter.
- TelegramAuth.Authenticate: it ends before `JSON.parse` of the user and the user upsert and settings creation. It also leaves out the 500 "Authentication failed" answer that any exception there, or a malformed request body, produces.
- The `% 3600` and `% 60` in the formatters use JavaScript's truncating remainder, so negative counts render as the source does. The round-trip properties are stated for non-negative counts only.
- Store.MemoryStore.UpdateTask: the in-memory store lets a caller supply `completedAt` directly. The model keeps that. `StoreAndServiceStampAlike` compares the two only for patches without it.
