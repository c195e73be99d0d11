/**
 * The dashboard's duration text: whole hours and minutes, seconds dropped,
 * hours shown only when there is at least one.
 */
module StatsCard {
  import opened Wrappers
  import opened Js
  import opened Text

  /**
   * `formatDuration`: `"{h}h {m}m"` from one hour on, `"{m}m"` below, no
   * padding. The text keeps exactly the whole minutes: reading it back
   * gives `seconds / 60`, so the leftover seconds are all that is lost.
   */
  function FormatDuration(seconds: int): (r: string)
    ensures seconds >= 0 ==> ParseDuration(r) == Some(seconds / 60)
  {
    DurationTextReadsBack(seconds);
    DurationText(seconds / 3600, JsRem(seconds, 3600) / 60)
  }

  /** Hours and minutes printed without padding, the hours only when positive. */
  function DurationText(hrs: int, mins: int): string {
    if hrs > 0 then IntString(hrs) + "h " + IntString(mins) + "m" else IntString(mins) + "m"
  }

  /** The text of a non-negative count reads back as its whole minutes. */
  lemma DurationTextReadsBack(seconds: int)
    ensures seconds >= 0 ==> ParseDuration(DurationText(seconds / 3600, JsRem(seconds, 3600) / 60)) == Some(seconds / 60)
  {
    if seconds >= 0 {
      HoursAndMinutes(seconds);
      var h: nat, m: nat := seconds / 3600, JsRem(seconds, 3600) / 60;
      DigitsValueOfNatString(h);
      DigitsValueOfNatString(m);
      NatStringHasNoSpace(h);
      NatStringHasNoSpace(m);
      if h > 0 {
        ReadHoursAndMinutes(NatString(h), NatString(m), h, m);
      } else {
        ReadMinutesOnly(NatString(m), m);
      }
    }
  }

  /** Whole hours and leftover minutes of a non-negative count of seconds. */
  lemma HoursAndMinutes(seconds: int)
    requires seconds >= 0
    ensures var h, m := seconds / 3600, JsRem(seconds, 3600) / 60;
      && 0 <= m < 60 && h >= 0
      && h * 3600 + m * 60 <= seconds < h * 3600 + m * 60 + 60
      && h == (seconds / 60) / 60 && m == (seconds / 60) % 60
  {
    var h, r := seconds / 3600, seconds % 3600;
    var m, q := r / 60, r % 60;
    assert seconds == (h * 60 + m) * 60 + q;
    assert seconds / 60 == h * 60 + m;
  }

  /** Reads the text back as a whole number of minutes. */
  function ParseDuration(t: string): Option<nat> {
    if |t| == 0 || t[|t| - 1] != 'm' then None
    else
      var parts := Split(t[..|t| - 1], ' ');
      if |parts| == 1 then ParseNat(parts[0])
      else if |parts| == 2 && |parts[0]| > 0 && parts[0][|parts[0]| - 1] == 'h' then
        var h := ParseNat(parts[0][..|parts[0]| - 1]);
        var m := ParseNat(parts[1]);
        if h.Some? && m.Some? then Some(h.value * 60 + m.value) else None
      else None
  }

  lemma NatStringHasNoSpace(n: nat)
    ensures ' ' !in NatString(n)
  {
  }

  /** A space-free run of digits followed by `m` reads back as its minutes. */
  lemma ReadMinutesOnly(b: string, m: nat)
    requires ' ' !in b && ParseNat(b) == Some(m)
    ensures ParseDuration(b + "m") == Some(m)
  {
    var t := b + "m";
    assert t[..|t| - 1] == b;
    SplitPlain(b, ' ');
  }

  /** `{h}h {m}m` with space-free digit runs reads back as `h * 60 + m` minutes. */
  lemma ReadHoursAndMinutes(a: string, b: string, h: nat, m: nat)
    requires ' ' !in a && ' ' !in b
    requires ParseNat(a) == Some(h) && ParseNat(b) == Some(m)
    ensures ParseDuration(a + "h " + b + "m") == Some(h * 60 + m)
  {
    var t := a + "h " + b + "m";
    var hs := a + "h";
    assert t[..|t| - 1] == hs + [' '] + b;
    SplitFirst(hs, ' ', b);
    SplitPlain(b, ' ');
    assert hs[..|hs| - 1] == a;
  }

  /** Two non-negative durations print alike exactly when they have the same whole minutes. */
  lemma FormatDurationSameMinutes(a: int, b: int)
    requires a >= 0 && b >= 0
    ensures FormatDuration(a) == FormatDuration(b) <==> a / 60 == b / 60
  {
    HoursAndMinutes(a);
    HoursAndMinutes(b);
  }

  /** From one hour on the hours are shown; below an hour only minutes, so no duration prints as empty. */
  lemma FormatDurationShape(seconds: int)
    requires seconds >= 0
    ensures seconds >= 3600 ==> FormatDuration(seconds) == NatString(seconds / 3600) + "h " + NatString(JsRem(seconds, 3600) / 60) + "m"
    ensures seconds < 3600 ==> FormatDuration(seconds) == NatString(seconds / 60) + "m"
    ensures seconds < 60 ==> FormatDuration(seconds) == "0m"
  {
    HoursAndMinutes(seconds);
  }
}
