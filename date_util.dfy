/**
 * Relative-time formatting of the web UI: how long ago a time was, in the
 * largest unit that fits, plus the timestamp munging and the half-year test.
 * Times are JavaScript time values: integer milliseconds since the epoch.
 */
module DateUtil {
  import opened Common

  const SECOND_MS: int := 1000
  const HOUR_MS: int := 1000 * 60 * 60
  const DAY_MS: int := 1000 * 60 * 60 * 24

  /** `Math.floor(a / b)` for a positive divisor. */
  function FloorDiv(a: int, b: int): (q: int)
    requires b > 0
    ensures b * q <= a < b * q + b
  {
    a / b
  }

  /** Whole seconds from `from` to `to`, rounded down (negative when `to` is earlier). */
  function SecondsBetween(from: int, to: int): int {
    FloorDiv(to - from, SECOND_MS)
  }

  function Ago(noAgo: bool): string {
    if noAgo then "" else " ago"
  }

  /** `durationString(from, to, noAgo)`: every text from one minute on ends in the same suffix. */
  function DurationString(from: int, to: int, noAgo: bool): string {
    var secondsAgo := SecondsBetween(from, to);
    if secondsAgo <= 59 then
      (if noAgo then IntToString(secondsAgo) + " seconds" else "just now")
    else ElapsedText(secondsAgo) + Ago(noAgo)
  }

  /** The ladder of units `durationString` walks down from one minute on, without the suffix. */
  function ElapsedText(secondsAgo: int): string
    requires secondsAgo >= 60
  {
    if secondsAgo <= 119 then "1 minute"
    else
      var minutesAgo := FloorDiv(secondsAgo, 60);
      if minutesAgo <= 59 then IntToString(minutesAgo) + " minutes"
      else if minutesAgo == 60 then "1 hour"
      else if minutesAgo <= 119 then "1 hour " + IntToString(minutesAgo - 60) + " min"
      else
        var hoursAgo := FloorDiv(minutesAgo, 60);
        if hoursAgo <= 23 then IntToString(hoursAgo) + " hours"
        else if hoursAgo == 24 then "1 day"
        else if hoursAgo <= 47 then "1 day " + IntToString(hoursAgo - 24) + " hr"
        else
          var daysAgo := FloorDiv(hoursAgo, 24);
          if daysAgo <= 30 then IntToString(daysAgo) + " days"
          else if daysAgo <= 60 then "1 month"
          else
            var monthsAgo := FloorDiv(daysAgo, 30);
            if monthsAgo <= 11 then IntToString(monthsAgo) + " months"
            else if monthsAgo == 12 then "1 year"
            else if monthsAgo <= 24 then "1 year " + IntToString(monthsAgo - 12) + " m"
            else IntToString(FloorDiv(daysAgo, 365)) + " years"
  }

  /** `fromNow(date, noAgo)`, with the clock reading passed in as `now`: under a
      minute it is "just now" (or the seconds), from one minute on the ladder of
      units with ` ago` appended unless `noAgo`. The later buckets are the
      `Duration*` lemmas below. */
  function FromNow(date: int, now: int, noAgo: bool): (r: string)
    ensures SecondsBetween(date, now) <= 59 && !noAgo ==> r == "just now"
    ensures SecondsBetween(date, now) <= 59 && noAgo ==> r == IntToString(SecondsBetween(date, now)) + " seconds"
    ensures 60 <= SecondsBetween(date, now) <= 119 ==> r == "1 minute" + Ago(noAgo)
    ensures 120 <= SecondsBetween(date, now) < 3600 ==>
      r == IntToString(SecondsBetween(date, now) / 60) + " minutes" + Ago(noAgo)
    ensures SecondsBetween(date, now) >= 60 && !noAgo ==> r == DurationString(date, now, true) + " ago"
  {
    if SecondsBetween(date, now) >= 60 then
      AgoIsSuffix(date, now);
      DurationString(date, now, noAgo)
    else DurationString(date, now, noAgo)
  }

  // ---------------------------------------------------------------------------
  // The buckets, stated on the elapsed seconds directly

  lemma NestedFloor60(a: int)
    requires a >= 0
    ensures (a / 60) / 60 == a / 3600
  {
    var q := a / 60;
    var q2 := q / 60;
    assert a == 3600 * q2 + (60 * (q % 60) + a % 60);
  }

  lemma NestedFloor24(a: int)
    requires a >= 0
    ensures (a / 3600) / 24 == a / 86400
  {
    var q := a / 3600;
    var q2 := q / 24;
    assert a == 86400 * q2 + (3600 * (q % 24) + a % 3600);
  }

  /** The minutes, hours and days `durationString` computes step by step are the
      elapsed seconds divided by 60, 3600 and 86400. */
  lemma Units(s: int)
    requires s >= 0
    ensures (s / 60) / 60 == s / 3600
    ensures ((s / 60) / 60) / 24 == s / 86400
  {
    NestedFloor60(s);
    NestedFloor24(s);
  }

  /** Up to 59 seconds, including negative differences. */
  lemma DurationJustNow(from: int, to: int, noAgo: bool)
    requires SecondsBetween(from, to) <= 59
    ensures DurationString(from, to, noAgo)
         == if noAgo then IntToString(SecondsBetween(from, to)) + " seconds" else "just now"
  {
  }

  lemma DurationOneMinute(from: int, to: int, noAgo: bool)
    requires 60 <= SecondsBetween(from, to) <= 119
    ensures DurationString(from, to, noAgo) == "1 minute" + Ago(noAgo)
  {
  }

  lemma DurationMinutes(from: int, to: int, noAgo: bool)
    requires 120 <= SecondsBetween(from, to) < 3600
    ensures DurationString(from, to, noAgo)
         == IntToString(SecondsBetween(from, to) / 60) + " minutes" + Ago(noAgo)
  {
  }

  lemma DurationOneHour(from: int, to: int, noAgo: bool)
    requires 3600 <= SecondsBetween(from, to) < 3660
    ensures DurationString(from, to, noAgo) == "1 hour" + Ago(noAgo)
  {
  }

  lemma DurationHourMinutes(from: int, to: int, noAgo: bool)
    requires 3660 <= SecondsBetween(from, to) < 7200
    ensures DurationString(from, to, noAgo)
         == "1 hour " + IntToString(SecondsBetween(from, to) / 60 - 60) + " min" + Ago(noAgo)
  {
  }

  lemma DurationHours(from: int, to: int, noAgo: bool)
    requires 7200 <= SecondsBetween(from, to) < 86400
    ensures DurationString(from, to, noAgo)
         == IntToString(SecondsBetween(from, to) / 3600) + " hours" + Ago(noAgo)
  {
    Units(SecondsBetween(from, to));
  }

  lemma DurationOneDay(from: int, to: int, noAgo: bool)
    requires 86400 <= SecondsBetween(from, to) < 90000
    ensures DurationString(from, to, noAgo) == "1 day" + Ago(noAgo)
  {
    Units(SecondsBetween(from, to));
  }

  lemma DurationDayHours(from: int, to: int, noAgo: bool)
    requires 90000 <= SecondsBetween(from, to) < 2 * 86400
    ensures DurationString(from, to, noAgo)
         == "1 day " + IntToString(SecondsBetween(from, to) / 3600 - 24) + " hr" + Ago(noAgo)
  {
    Units(SecondsBetween(from, to));
  }

  lemma DurationDays(from: int, to: int, noAgo: bool)
    requires 2 * 86400 <= SecondsBetween(from, to) < 31 * 86400
    ensures DurationString(from, to, noAgo)
         == IntToString(SecondsBetween(from, to) / 86400) + " days" + Ago(noAgo)
  {
    Units(SecondsBetween(from, to));
  }

  lemma DurationOneMonth(from: int, to: int, noAgo: bool)
    requires 31 * 86400 <= SecondsBetween(from, to) < 61 * 86400
    ensures DurationString(from, to, noAgo) == "1 month" + Ago(noAgo)
  {
    Units(SecondsBetween(from, to));
  }

  /** With `d` whole days elapsed: `d / 30` months from 61 to 359 days. */
  lemma DurationMonths(from: int, to: int, noAgo: bool)
    requires 61 * 86400 <= SecondsBetween(from, to) < 360 * 86400
    ensures DurationString(from, to, noAgo)
         == IntToString(SecondsBetween(from, to) / 86400 / 30) + " months" + Ago(noAgo)
  {
    Units(SecondsBetween(from, to));
  }

  lemma DurationOneYear(from: int, to: int, noAgo: bool)
    requires 360 * 86400 <= SecondsBetween(from, to) < 390 * 86400
    ensures DurationString(from, to, noAgo) == "1 year" + Ago(noAgo)
  {
    Units(SecondsBetween(from, to));
  }

  /** From 390 to 749 days: one year and `d / 30 - 12` months, which reaches 12
      (`1 year 12 m`) from 720 days on. */
  lemma DurationYearMonths(from: int, to: int, noAgo: bool)
    requires 390 * 86400 <= SecondsBetween(from, to) < 750 * 86400
    ensures DurationString(from, to, noAgo)
         == "1 year " + IntToString(SecondsBetween(from, to) / 86400 / 30 - 12) + " m" + Ago(noAgo)
    ensures 1 <= SecondsBetween(from, to) / 86400 / 30 - 12 <= 12
  {
    Units(SecondsBetween(from, to));
  }

  /** From 750 days on: whole years of 365 days, always at least two. */
  lemma DurationYears(from: int, to: int, noAgo: bool)
    requires SecondsBetween(from, to) >= 750 * 86400
    ensures DurationString(from, to, noAgo)
         == IntToString(SecondsBetween(from, to) / 86400 / 365) + " years" + Ago(noAgo)
    ensures SecondsBetween(from, to) / 86400 / 365 >= 2
  {
    Units(SecondsBetween(from, to));
  }

  /** From one minute on, the text with ` ago` is the text without it plus ` ago`. */
  lemma AgoIsSuffix(from: int, to: int)
    requires SecondsBetween(from, to) >= 60
    ensures DurationString(from, to, false) == DurationString(from, to, true) + " ago"
  {
    assert DurationString(from, to, true) == ElapsedText(SecondsBetween(from, to)) + "";
  }

  // ---------------------------------------------------------------------------
  // Timestamps and the half-year window

  /** `str.replace(' ', 'T')`: the first space becomes a `T`. */
  function ReplaceFirstSpace(s: string): (r: string)
    ensures |r| == |s|
    ensures ' ' !in s ==> r == s
  {
    if |s| == 0 then ""
    else if s[0] == ' ' then "T" + s[1..]
    else [s[0]] + ReplaceFirstSpace(s[1..])
  }

  /** The ISO 8601 text `parseDate` hands to the `Date` constructor. */
  function IsoTimestamp(s: string): (r: string)
    ensures |r| == |s| + 1 && r[|s|] == 'Z'
  {
    ReplaceFirstSpace(s) + "Z"
  }

  /** The inverse: drop the `Z` and turn the first `T` back into a space. */
  function ServerTimestamp(iso: string): string {
    var body := if |iso| > 0 && iso[|iso| - 1] == 'Z' then iso[..|iso| - 1] else iso;
    ReplaceFirstT(body)
  }

  function ReplaceFirstT(s: string): (r: string)
    ensures |r| == |s|
  {
    if |s| == 0 then ""
    else if s[0] == 'T' then " " + s[1..]
    else [s[0]] + ReplaceFirstT(s[1..])
  }

  /** A server timestamp holds no `T` before its first space (`yyyy-mm-dd hh:mm:ss`). */
  predicate NoTBeforeSpace(s: string) {
    forall i :: 0 <= i < |s| && s[i] == 'T' ==> exists j :: 0 <= j < i && s[j] == ' '
  }

  lemma {:induction false} ReplaceRoundTrip(s: string)
    requires NoTBeforeSpace(s)
    requires ' ' in s
    ensures ReplaceFirstT(ReplaceFirstSpace(s)) == s
  {
    if s[0] == ' ' {
      assert ReplaceFirstSpace(s) == "T" + s[1..];
      assert ("T" + s[1..])[1..] == s[1..];
    } else {
      assert s[0] != 'T';
      var t := s[1..];
      assert ' ' in t by {
        var k :| 0 <= k < |s| && s[k] == ' ';
        assert k > 0 && t[k - 1] == ' ';
      }
      assert NoTBeforeSpace(t) by {
        forall i | 0 <= i < |t| && t[i] == 'T' ensures exists j :: 0 <= j < i && t[j] == ' ' {
          assert s[i + 1] == 'T';
          var j :| 0 <= j < i + 1 && s[j] == ' ';
          assert j > 0 && t[j - 1] == ' ';
        }
      }
      ReplaceRoundTrip(t);
      assert ReplaceFirstSpace(s) == [s[0]] + ReplaceFirstSpace(t);
      var u := ReplaceFirstSpace(t);
      assert ([s[0]] + u)[0] == s[0];
      assert ([s[0]] + u)[1..] == u;
      assert [s[0]] + t == s;
    }
  }

  /** `parseDate` changes only the first space, so the server text is recovered. */
  lemma IsoTimestampRoundTrip(s: string)
    requires NoTBeforeSpace(s)
    requires ' ' in s
    ensures ServerTimestamp(IsoTimestamp(s)) == s
  {
    var iso := IsoTimestamp(s);
    assert iso[..|iso| - 1] == ReplaceFirstSpace(s);
    ReplaceRoundTrip(s);
  }

  /** Only the first space is replaced: later spaces survive. */
  lemma {:induction false} OnlyFirstSpaceReplaced(s: string, i: nat)
    requires i < |s| && s[i] == ' '
    requires exists j :: 0 <= j < i && s[j] == ' '
    ensures ReplaceFirstSpace(s)[i] == ' '
  {
    if s[0] == ' ' {
      assert ReplaceFirstSpace(s) == "T" + s[1..];
    } else {
      var j :| 0 <= j < i && s[j] == ' ';
      assert j > 0;
      assert s[1..][j - 1] == ' ';
      OnlyFirstSpaceReplaced(s[1..], i - 1);
      assert ReplaceFirstSpace(s) == [s[0]] + ReplaceFirstSpace(s[1..]);
    }
  }

  function Abs(x: int): nat {
    if x < 0 then -x else x
  }

  /** `isWithinHalfYear(now, date)`: less than 180 days apart, either way. */
  function IsWithinHalfYear(now: int, date: int): (b: bool)
    ensures b <==> -180 * DAY_MS < now - date < 180 * DAY_MS
  {
    Abs(now - date) < 180 * DAY_MS
  }

  lemma HalfYearSymmetric(now: int, date: int)
    ensures IsWithinHalfYear(now, date) == IsWithinHalfYear(date, now)
  {
  }
}
