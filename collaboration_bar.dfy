/** The "last sync" caption of the collaboration bar (components/collaboration/collaboration-bar.tsx).
    `Date.now()` is the `now` argument; timestamps are whole milliseconds. */
module CollaborationBar {
  import opened Common

  /** The bucket a sync age falls into. */
  datatype SyncAge = Never | JustNow | SecondsAgo(seconds: int) | MinutesAgo(minutes: int) | HoursAgo(hours: int)

  /** `Math.floor((now - timestamp) / 1000)`; Dafny's division by a positive divisor
      rounds toward negative infinity, as `Math.floor` does. */
  function ElapsedSeconds(timestamp: int, now: int): int {
    (now - timestamp) / 1000
  }

  function AgeOf(timestamp: Option<int>, now: int): SyncAge {
    if timestamp.None? || timestamp.value == 0 then Never
    else
      var seconds := ElapsedSeconds(timestamp.value, now);
      if seconds < 10 then JustNow
      else if seconds < 60 then SecondsAgo(seconds)
      else
        var minutes := seconds / 60;
        if minutes < 60 then MinutesAgo(minutes)
        else HoursAgo(minutes / 60)
  }

  /** The buckets, stated on the elapsed seconds alone. */
  lemma AgeBuckets(timestamp: Option<int>, now: int)
    ensures AgeOf(timestamp, now) == Never <==> timestamp.None? || timestamp.value == 0
    ensures timestamp.Some? && timestamp.value != 0 ==>
              var s := ElapsedSeconds(timestamp.value, now);
              (s < 10 ==> AgeOf(timestamp, now) == JustNow) &&
              (10 <= s < 60 ==> AgeOf(timestamp, now) == SecondsAgo(s)) &&
              (60 <= s < 3600 ==> AgeOf(timestamp, now) == MinutesAgo(s / 60) && 1 <= s / 60 < 60) &&
              (3600 <= s ==> AgeOf(timestamp, now) == HoursAgo(s / 3600) && 1 <= s / 3600)
  {
    if timestamp.Some? && timestamp.value != 0 {
      var s := ElapsedSeconds(timestamp.value, now);
      if s >= 60 {
        NestedFloor(s);
      }
    }
  }

  /** Flooring twice by 60 is flooring once by 3600. */
  lemma NestedFloor(s: int)
    requires s >= 0
    ensures (s / 60) / 60 == s / 3600
  {
    var h := s / 3600;
    var rest := s % 3600;
    assert s == 3600 * h + rest && 0 <= rest < 3600;
    assert s / 60 == 60 * h + rest / 60;
  }

  /** A timestamp in the future reads "Just now", however far ahead it is. */
  lemma FutureIsJustNow(timestamp: int, now: int)
    requires timestamp != 0 && timestamp > now
    ensures AgeOf(Some(timestamp), now) == JustNow
  {
  }

  function Render(age: SyncAge): string
    requires age.SecondsAgo? ==> age.seconds >= 0
    requires age.MinutesAgo? ==> age.minutes >= 0
    requires age.HoursAgo? ==> age.hours >= 0
  {
    match age
    case Never => "Never"
    case JustNow => "Just now"
    case SecondsAgo(s) => NatToDecimal(s) + "s ago"
    case MinutesAgo(m) => NatToDecimal(m) + "m ago"
    case HoursAgo(h) => NatToDecimal(h) + "h ago"
  }

  /** `formatLastSync(timestamp)`. */
  function FormatLastSync(timestamp: Option<int>, now: int): (r: string)
    ensures r == "Never" <==> timestamp.None? || timestamp.value == 0
    ensures r == Render(AgeOf(timestamp, now))
  {
    var age := AgeOf(timestamp, now);
    assert age.HoursAgo? ==> age.hours >= 1;
    var r := Render(age);
    assert r == "Never" ==> age.Never? by {
      if !age.Never? && !age.JustNow? {
        assert r[|r| - 1] == 'o';
        assert |r| >= 6;
      }
    }
    r
  }
}
