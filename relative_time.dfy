/** The elapsed-time buckets shared by `formatTime` in the notification
    bell (src/components/layout/notification-bell.tsx) and
    `formatRelativeTime` in the activity feed
    (src/components/dashboard/recent-activity.tsx): whole minutes, then
    whole hours, then whole days, each rounded down, of the milliseconds
    between the event and now. */
module RelativeTime {
  import opened Text

  const MinuteMs: int := 60000
  const HourMs: int := 3600000
  const DayMs: int := 86400000

  datatype Elapsed = JustNow | Minutes(n: nat) | Hours(n: nat) | Days(n: nat)

  /** `Math.floor(diffMs / 60000)` and the cascade of `if`s on it. */
  function Bucket(diffMs: int): (e: Elapsed)
    ensures e.JustNow? <==> diffMs < MinuteMs
    ensures e.Minutes? ==> 1 <= e.n < 60 && e.n * MinuteMs <= diffMs < (e.n + 1) * MinuteMs
    ensures e.Hours? ==> 1 <= e.n < 24 && e.n * HourMs <= diffMs < (e.n + 1) * HourMs
    ensures e.Days? ==> 1 <= e.n && e.n * DayMs <= diffMs < (e.n + 1) * DayMs
  {
    var m := diffMs / 60000;
    if m < 1 then JustNow
    else if m < 60 then Minutes(m)
    else
      var h := m / 60;
      FloorTwice(diffMs);
      if h < 24 then Hours(h) else Days(h / 24)
  }

  /** Whole hours of whole minutes are whole hours; whole days of whole
      hours are whole days. */
  lemma FloorTwice(x: int)
    ensures (x / 60000) / 60 == x / 3600000
    ensures (x / 3600000) / 24 == x / 86400000
  {
    var m, h, d := x / 60000, x / 3600000, x / 86400000;
    assert 60000 * m <= x < 60000 * m + 60000;
    assert 3600000 * h <= x < 3600000 * h + 3600000;
    assert 86400000 * d <= x < 86400000 * d + 86400000;
    assert 60 * h <= m < 60 * h + 60;
    assert 24 * d <= h < 24 * d + 24;
  }

  /** `"just now"`, `"5m ago"`, `"3h ago"`, `"2d ago"` */
  function Render(e: Elapsed): string {
    match e
    case JustNow => "just now"
    case Minutes(n) => NatToString(n) + "m ago"
    case Hours(n) => NatToString(n) + "h ago"
    case Days(n) => NatToString(n) + "d ago"
  }

  /** The boundaries: a minute, an hour and a day are the first values of
      their bucket. */
  lemma Boundaries()
    ensures Bucket(59999) == JustNow && Bucket(60000) == Minutes(1)
    ensures Bucket(3599999) == Minutes(59) && Bucket(3600000) == Hours(1)
    ensures Bucket(86399999) == Hours(23) && Bucket(86400000) == Days(1)
    ensures Bucket(-5000) == JustNow
  {
  }
}
