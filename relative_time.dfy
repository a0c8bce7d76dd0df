/** `time_ago` (check_drone_builds.py:150-170): how long ago a timestamp was, in the largest
    whole unit among seconds, minutes, hours and days. The wall clock is the parameter `now`
    and the difference is the integer `now - timestamp` (epoch seconds). */
module RelativeTime {
  import opened Text

  datatype Unit = Second | Minute | Hour | Day

  /** The unit's length in seconds. */
  function Length(u: Unit): nat
  {
    match u
    case Second => 1
    case Minute => 60
    case Hour => 3600
    case Day => 86400
  }

  function UnitName(u: Unit): string
  {
    match u
    case Second => "second"
    case Minute => "minute"
    case Hour => "hour"
    case Day => "day"
  }

  /** The branch `time_ago` takes for a difference of `seconds`. A negative difference (a
      timestamp in the future) falls into the seconds branch. */
  function UnitFor(seconds: int): Unit
  {
    if seconds < 60 then Second
    else if seconds < 3600 then Minute
    else if seconds < 86400 then Hour
    else Day
  }

  /** The number shown: `int(seconds)` in the seconds branch, floor division by the unit's
      length in the others. */
  function Count(seconds: int): int
  {
    match UnitFor(seconds)
    case Second => seconds
    case Minute => seconds / 60
    case Hour => seconds / 3600
    case Day => seconds / 86400
  }

  /** `f"{n} {unit}{'s' if n != 1 else ''} ago"`. */
  function Phrase(n: int, u: Unit): (p: string)
    ensures |p| >= 4 && p[|p| - 4..] == " ago"
  {
    IntToString(n) + " " + UnitName(u) + (if n != 1 then "s" else "") + " ago"
  }

  /** The relative time shown for the last success. */
  function TimeAgo(now: int, timestamp: int): (r: string)
    ensures r == "Unknown" <==> timestamp == 0
  {
    if timestamp == 0 then "Unknown"
    else
      var seconds := now - timestamp;
      var p := Phrase(Count(seconds), UnitFor(seconds));
      assert p[|p| - 4..] != "Unknown"[3..];
      p
  }

  /** The unit chosen is the largest one not longer than the difference (seconds when the
      difference is under a minute, including a negative one). */
  lemma UnitIsLargestFitting(seconds: int)
    ensures seconds < 60 <==> UnitFor(seconds) == Second
    ensures seconds >= 1 ==> Length(UnitFor(seconds)) <= seconds
    ensures forall v: Unit :: Length(v) <= seconds ==> Length(v) <= Length(UnitFor(seconds))
  {
  }

  /** The count is the number of whole units in the difference, so it never rounds up, and
      outside the seconds branch it is at least 1 and, below days, smaller than the next unit. */
  lemma CountIsWholeUnits(seconds: int)
    ensures UnitFor(seconds) == Second ==> Count(seconds) == seconds
    ensures seconds >= 0 ==>
      Count(seconds) * Length(UnitFor(seconds)) <= seconds < (Count(seconds) + 1) * Length(UnitFor(seconds))
    ensures UnitFor(seconds) == Minute ==> 1 <= Count(seconds) < 60
    ensures UnitFor(seconds) == Hour ==> 1 <= Count(seconds) < 24
    ensures UnitFor(seconds) == Day ==> 1 <= Count(seconds)
  {
    var u := UnitFor(seconds);
    var n := Count(seconds);
    if seconds >= 0 {
      assert seconds == n * Length(u) + seconds % Length(u);
    }
  }

  /** The plural "s" is written exactly when the count is not 1: every unit name is singular. */
  lemma {:induction false} PluralUnlessOne(now: int, timestamp: int)
    requires timestamp != 0
    ensures var r := TimeAgo(now, timestamp);
      |r| >= 5 && (r[|r| - 5..] == "s ago" <==> Count(now - timestamp) != 1)
  {
    var seconds := now - timestamp;
    var n, u := Count(seconds), UnitFor(seconds);
    var name := UnitName(u);
    var r := TimeAgo(now, timestamp);
    if n != 1 {
      assert r == (IntToString(n) + " " + name) + "s ago";
    } else {
      assert r == (IntToString(n) + " " + name[..|name| - 1]) + ([name[|name| - 1]] + " ago");
      assert name[|name| - 1] != 's';
      assert r[|r| - 5] == name[|name| - 1];
      assert "s ago"[0] == 's';
    }
  }

  /** One second ago is written in the singular. */
  lemma TimeAgoOneSecondExample(now: int)
    requires now != 1
    ensures TimeAgo(now, now - 1) == "1 second ago"
  {
  }

  /** Just under a minute is still counted in seconds, in the plural. */
  lemma TimeAgoSecondsExample(now: int)
    requires now != 59
    ensures TimeAgo(now, now - 59) == "59 seconds ago"
  {
    assert NatToString(5) == "5";
    assert NatToString(59) == "59";
    assert Phrase(59, Second) == "59 seconds ago";
  }

  /** A timestamp in the future gives a negative number of seconds. */
  lemma TimeAgoFutureExample(now: int)
    requires now != -5
    ensures TimeAgo(now, now + 5) == "-5 seconds ago"
  {
  }

  /** At sixty seconds the unit becomes the minute; one second more is still one minute. */
  lemma TimeAgoMinuteExamples(now: int)
    requires now > 61
    ensures TimeAgo(now, now - 60) == "1 minute ago"
    ensures TimeAgo(now, now - 61) == "1 minute ago"
  {
  }

  /** At 3600 seconds the unit becomes the hour. */
  lemma TimeAgoHourExample(now: int)
    requires now > 3600
    ensures TimeAgo(now, now - 3600) == "1 hour ago"
  {
  }

  /** At 86400 seconds the unit becomes the day, and the days are counted whole. */
  lemma TimeAgoDayExamples(now: int)
    requires now > 172800
    ensures TimeAgo(now, now - 86400) == "1 day ago"
    ensures TimeAgo(now, now - 86401) == "1 day ago"
    ensures TimeAgo(now, now - 172799) == "1 day ago"
  {
  }

}
