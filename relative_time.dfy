/** The "how long ago" label the search history and the favourites list show
    next to a time stamp (milliseconds since the epoch): just now, whole
    minutes, whole hours or whole days ago, and the calendar date after a week. */
module RelativeTime {
  import opened Base
  import opened Text

  const MinuteMs: int := 1000 * 60
  const HourMs: int := 1000 * 60 * 60
  const DayMs: int := 1000 * 60 * 60 * 24

  /** The bucket a time difference falls in; `OnDate` carries the 1-based
      month and the day of the stamped date. */
  datatype Ago =
    | JustNow
    | MinutesAgo(minutes: nat)
    | HoursAgo(hours: nat)
    | DaysAgo(days: nat)
    | OnDate(month: nat, day: nat)

  /** `Math.floor(diff / unit)`, then the first bucket whose count is small enough.
      `stamped` is the local calendar date of the time stamp. */
  function Classify(diff: int, stamped: LocalDate): (a: Ago)
    requires ValidDate(stamped)
    ensures a.JustNow? <==> diff < MinuteMs
    ensures a.MinutesAgo? <==> MinuteMs <= diff < HourMs
    ensures a.HoursAgo? <==> HourMs <= diff < DayMs
    ensures a.DaysAgo? <==> DayMs <= diff < 7 * DayMs
    ensures a.MinutesAgo? ==> 1 <= a.minutes < 60 && a.minutes * MinuteMs <= diff < (a.minutes + 1) * MinuteMs
    ensures a.HoursAgo? ==> 1 <= a.hours < 24 && a.hours * HourMs <= diff < (a.hours + 1) * HourMs
    ensures a.DaysAgo? ==> 1 <= a.days < 7 && a.days * DayMs <= diff < (a.days + 1) * DayMs
    ensures a.OnDate? ==> a.month == stamped.month + 1 && a.day == stamped.day
  {
    var minutes, hours, days := diff / MinuteMs, diff / HourMs, diff / DayMs;
    if minutes < 1 then JustNow
    else if minutes < 60 then MinutesAgo(minutes)
    else if hours < 24 then HoursAgo(hours)
    else if days < 7 then DaysAgo(days)
    else OnDate(stamped.month + 1, stamped.day)
  }

  function Render(a: Ago): string {
    match a
    case JustNow => "刚刚"
    case MinutesAgo(n) => NatToString(n) + "分钟前"
    case HoursAgo(n) => NatToString(n) + "小时前"
    case DaysAgo(n) => NatToString(n) + "天前"
    case OnDate(m, d) => NatToString(m) + "/" + NatToString(d)
  }

  /** `formatTime` / `getTimeAgo` at time `now`. */
  function TimeAgo(timestamp: int, now: int, stamped: LocalDate): (shown: string)
    requires ValidDate(stamped)
    ensures now - timestamp < MinuteMs ==> shown == "刚刚"
  {
    Render(Classify(now - timestamp, stamped))
  }

  /** Different buckets, or different counts, never print alike: the label
      determines the bucket. */
  lemma RenderInjective(a: Ago, b: Ago)
    requires Render(a) == Render(b)
    ensures a == b
  {
    var s := Render(a);
    if a.OnDate? || b.OnDate? {
      assert IsAsciiDigit(s[|s| - 1]);
      assert a.OnDate? && b.OnDate?;
      SlashSplit(NatToString(a.month), NatToString(a.day), NatToString(b.month), NatToString(b.day));
      NatToStringInjective(a.month, b.month);
      NatToStringInjective(a.day, b.day);
    } else if a.JustNow? || b.JustNow? {
      assert s[|s| - 1] == '刚';
    } else {
      assert s[|s| - 1] == '前';
      var na := match a case MinutesAgo(n) => n case HoursAgo(n) => n case DaysAgo(n) => n case _ => 0;
      var nb := match b case MinutesAgo(n) => n case HoursAgo(n) => n case DaysAgo(n) => n case _ => 0;
      assert a.MinutesAgo? <==> s[|s| - 2] == '钟';
      assert b.MinutesAgo? <==> s[|s| - 2] == '钟';
      assert a.HoursAgo? <==> s[|s| - 2] == '时';
      assert b.HoursAgo? <==> s[|s| - 2] == '时';
      var k := if a.DaysAgo? then 2 else 3;
      assert NatToString(na) == s[..|s| - k] == NatToString(nb);
      NatToStringInjective(na, nb);
    }
  }

  lemma NatToStringInjective(a: nat, b: nat)
    requires NatToString(a) == NatToString(b)
    ensures a == b
  {
    IntToStringInjective(a, b);
  }

  /** Two digit strings joined by '/' can be taken apart again. */
  lemma SlashSplit(a: string, b: string, c: string, d: string)
    requires AllDigits(a) && AllDigits(c)
    requires a + "/" + b == c + "/" + d
    ensures a == c && b == d
  {
    var s := a + "/" + b;
    assert s[|a|] == '/' && s[|c|] == '/';
    assert a == s[..|a|] == c;
    assert b == s[|a| + 1..] == d;
  }
}
