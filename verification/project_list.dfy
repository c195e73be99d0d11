/**
 * The project list's total-time label: the durations of a project's time
 * entries summed in list order, a missing duration counting as 0, printed
 * like the dashboard's durations.
 */
module ProjectList {
  import opened Wrappers
  import opened Domain
  import opened Js
  import opened Text
  import StatsCard

  /** `timeEntries.reduce((acc, entry) => acc + (entry.duration || 0), acc0)`. */
  function Reduce(acc: int, entries: seq<TimeEntry>): int
    decreases |entries|
  {
    if |entries| == 0 then acc else Reduce(acc + DurationOrZero(entries[0]), entries[1..])
  }

  /** The left-to-right running sum is the total duration. */
  lemma {:induction false} ReduceIsTotal(acc: int, entries: seq<TimeEntry>)
    ensures Reduce(acc, entries) == acc + TotalDuration(entries)
    decreases |entries|
  {
    if |entries| > 0 {
      ReduceIsTotal(acc + DurationOrZero(entries[0]), entries[1..]);
    }
  }

  /**
   * `getTotalTime`: the label is the dashboard's rendering of the summed
   * durations, so it reads back as their whole minutes; a project without
   * entries shows "0m".
   */
  function GetTotalTime(entries: seq<TimeEntry>): (r: string)
    ensures r == StatsCard.FormatDuration(TotalDuration(entries))
    ensures TotalDuration(entries) >= 0 ==> StatsCard.ParseDuration(r) == Some(TotalDuration(entries) / 60)
    ensures |entries| == 0 ==> r == "0m"
  {
    var total := Reduce(0, entries);
    var hours := total / 3600;
    var mins := JsRem(total, 3600) / 60;
    ReduceIsTotal(0, entries);
    StatsCard.FormatDurationShape(0);
    if hours > 0 then IntString(hours) + "h " + IntString(mins) + "m" else IntString(mins) + "m"
  }
}
