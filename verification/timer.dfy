/**
 * The running-timer display: the elapsed seconds it shows and the
 * `HH:MM:SS` text it renders them as.
 */
module Timer {
  import opened Wrappers
  import opened Domain
  import opened Js
  import opened Text

  /** `Math.floor((now - startTime) / 1000)`, re-evaluated every second while the timer runs. */
  function Elapsed(startMs: int, nowMs: int): (r: int)
    ensures r * 1000 <= nowMs - startMs < r * 1000 + 1000
  {
    (nowMs - startMs) / 1000
  }

  /**
   * The display agrees with the server: at the instant the timer is stopped
   * it shows the duration the server stores, and it never runs backwards.
   */
  lemma ElapsedMatchesServer(startMs: int, nowMs: int, laterMs: int)
    ensures Elapsed(startMs, nowMs) == ElapsedSeconds(startMs, nowMs)
    ensures nowMs <= laterMs ==> Elapsed(startMs, nowMs) <= Elapsed(startMs, laterMs)
  {
  }

  /** The three fields of `formatTime` before rendering. */
  datatype Clock = Clock(hrs: int, mins: int, secs: int)

  function ClockOf(seconds: int): Clock {
    Clock(seconds / 3600, JsRem(seconds, 3600) / 60, JsRem(seconds, 60))
  }

  /** `n.toString().padStart(2, '0')`. */
  function Field(n: int): string {
    PadStart(IntString(n), 2, '0')
  }

  /**
   * `formatTime`: hours, minutes and seconds, each padded to two digits and
   * joined by colons. The rendering loses nothing: for a non-negative count
   * reading the text back gives the seconds.
   */
  function FormatTime(seconds: int): (r: string)
    ensures seconds >= 0 ==> ParseClock(r) == Some(seconds)
  {
    ClockTextReadsBack(seconds);
    ClockText(ClockOf(seconds))
  }

  /** The three fields, padded and joined by colons. */
  function ClockText(c: Clock): string {
    Field(c.hrs) + ":" + Field(c.mins) + ":" + Field(c.secs)
  }

  /**
   * For a non-negative count the fields are hours, minutes in 0..59 and
   * seconds in 0..59, and together they make up the count exactly; hours
   * never wrap.
   */
  lemma ClockFields(seconds: int)
    requires seconds >= 0
    ensures var c := ClockOf(seconds);
      && 0 <= c.hrs && 0 <= c.mins < 60 && 0 <= c.secs < 60
      && c.hrs * 3600 + c.mins * 60 + c.secs == seconds
  {
    var h, r := seconds / 3600, seconds % 3600;
    var m, q := r / 60, r % 60;
    assert seconds == h * 3600 + m * 60 + q;
    assert q == seconds % 60 by {
      assert seconds == (h * 60 + m) * 60 + q;
    }
  }

  /** Each field is printed with at least two digits. */
  lemma FieldLength(n: nat)
    ensures |Field(n)| == if n < 100 then 2 else |NatString(n)|
    ensures AllDigits(Field(n)) && DigitsValue(Field(n)) == n
  {
    NatStringLength(n);
    PaddedNatValue(n, 2);
  }

  /** Up to 99:59:59 the text is eight characters; from 100 hours the hours take three or more digits. */
  lemma FormatTimeLength(seconds: int)
    requires seconds >= 0
    ensures seconds < 360000 ==> |FormatTime(seconds)| == 8
    ensures seconds >= 360000 ==> |FormatTime(seconds)| >= 9
  {
    var c := ClockOf(seconds);
    ClockFields(seconds);
    FieldLength(c.hrs);
    FieldLength(c.mins);
    FieldLength(c.secs);
    NatStringLength(c.hrs);
  }

  /** Reads `H:M:S` back into seconds. */
  function ParseClock(t: string): Option<int> {
    ClockOfParts(Split(t, ':'))
  }

  /** Three decimal fields, read as hours, minutes and seconds. */
  function ClockOfParts(parts: seq<string>): Option<int> {
    if |parts| == 3 && ParseNat(parts[0]).Some? && ParseNat(parts[1]).Some? && ParseNat(parts[2]).Some? then
      Some(ParseNat(parts[0]).value * 3600 + ParseNat(parts[1]).value * 60 + ParseNat(parts[2]).value)
    else None
  }

  lemma FieldReadsBack(n: nat)
    ensures ParseNat(Field(n)) == Some(n)
  {
    PaddedNatValue(n, 2);
  }

  /** A padded non-negative field holds only digits, so never the separator. */
  lemma FieldHasNoColon(n: nat)
    ensures ':' !in Field(n)
  {
    PaddedNatValue(n, 2);
  }

  /** Three colon-free decimal texts joined by colons read back as the seconds they denote. */
  lemma ReadJoinedFields(a: string, b: string, c: string, h: nat, m: nat, s: nat)
    requires ':' !in a && ':' !in b && ':' !in c
    requires ParseNat(a) == Some(h) && ParseNat(b) == Some(m) && ParseNat(c) == Some(s)
    ensures ParseClock(Join([a, b, c], ':')) == Some(h * 3600 + m * 60 + s)
  {
    SplitJoin([a, b, c], ':');
  }

  /** The text of a non-negative count reads back as that count. */
  lemma ClockTextReadsBack(seconds: int)
    ensures seconds >= 0 ==> ParseClock(ClockText(ClockOf(seconds))) == Some(seconds)
  {
    if seconds >= 0 {
      var c := ClockOf(seconds);
      ClockFields(seconds);
      var h, m, s: nat := c.hrs, c.mins, c.secs;
      ParseFields(h, m, s);
      ReadColonText(Field(h), Field(m), Field(s));
      assert h * 3600 + m * 60 + s == seconds;
    }
  }

  /** Text built with colons is the join of its fields. */
  lemma ReadColonText(a: string, b: string, c: string)
    ensures a + ":" + b + ":" + c == Join([a, b, c], ':')
  {
    Join3(a, b, c, ':');
  }

  /** Three padded fields joined by colons read back as the seconds they denote. */
  lemma ParseFields(h: nat, m: nat, s: nat)
    ensures ParseClock(Join([Field(h), Field(m), Field(s)], ':')) == Some(h * 3600 + m * 60 + s)
  {
    FieldHasNoColon(h);
    FieldHasNoColon(m);
    FieldHasNoColon(s);
    FieldReadsBack(h);
    FieldReadsBack(m);
    FieldReadsBack(s);
    ReadJoinedFields(Field(h), Field(m), Field(s), h, m, s);
  }

  /**
   * A start time a second ahead of the display's clock shows as
   * `-1:-1:-1`: negative fields are printed with their sign and not padded.
   */
  lemma SkewedClockDisplay()
    ensures FormatTime(-1) == "-1:-1:-1"
  {
    assert ClockOf(-1) == Clock(-1, -1, -1);
    assert IntString(-1) == "-1";
  }
}
