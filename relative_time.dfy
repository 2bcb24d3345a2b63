/** The Dashboard's time helpers: `getTimeAgo`, which buckets the age of a
    scrape into a relative label, and `isRecentScrape`, the 24-hour recency
    test that highlights a scrape as new. Timestamps are milliseconds since
    the epoch; the clock reading `now` is a parameter. */
module RelativeTime {
  import opened JsString

  const MsPerMinute: int := 1000 * 60
  const MsPerHour: int := 1000 * 60 * 60
  const MsPerDay: int := 1000 * 60 * 60 * 24

  /** `new Date(dateString)`: a point in time, or the invalid date an
      unparseable string gives (whose time value is NaN). */
  datatype Instant = At(ms: int) | InvalidDate

  /** The label `getTimeAgo` produces. `CalendarDate` is the branch that hands
      the date to the host's locale formatting, whose text is not modelled. */
  datatype Label =
    | JustNow
    | MinutesAgo(minutes: nat)
    | HoursAgo(hours: nat)
    | Yesterday
    | DaysAgo(days: nat)
    | CalendarDate

  /** `getTimeAgo`: `Math.floor` of a division by a positive constant is
      Dafny's `/` on `int`. An invalid date makes every difference NaN, every
      comparison false, and so reaches the calendar-date branch. */
  function TimeAgo(now: int, past: Instant): (l: Label)
    ensures past.InvalidDate? ==> l == CalendarDate
    ensures l.MinutesAgo? ==> 1 <= l.minutes <= 59
    ensures l.HoursAgo? ==> 1 <= l.hours <= 23
    ensures l.DaysAgo? ==> 2 <= l.days <= 6
  {
    match past
    case InvalidDate => CalendarDate
    case At(p) =>
      var diff := now - p;
      var minutes := diff / MsPerMinute;
      var hours := diff / MsPerHour;
      var days := diff / MsPerDay;
      if minutes < 1 then JustNow
      else if minutes < 60 then MinutesAgo(minutes)
      else if hours < 24 then
        assert diff >= MsPerHour;
        HoursAgo(hours)
      else if days == 1 then Yesterday
      else if days < 7 then
        assert diff >= MsPerDay;
        DaysAgo(days)
      else CalendarDate
  }

  /** The age of `past` at `now` falls in [lo, hi) in milliseconds. */
  predicate AgeIn(now: int, past: int, lo: int, hi: int) {
    lo <= now - past < hi
  }

  /** Each label is chosen exactly on a half-open range of ages, and the
      count it shows is the age floored to whole units. Future timestamps
      (negative ages) are "Just now"; ages of 7 days or more, and invalid
      dates, never get a relative label. */
  lemma TimeAgoBuckets(now: int, past: int)
    ensures TimeAgo(now, At(past)) == JustNow <==> now - past < MsPerMinute
    ensures TimeAgo(now, At(past)).MinutesAgo? <==> AgeIn(now, past, MsPerMinute, MsPerHour)
    ensures TimeAgo(now, At(past)).HoursAgo? <==> AgeIn(now, past, MsPerHour, MsPerDay)
    ensures TimeAgo(now, At(past)) == Yesterday <==> AgeIn(now, past, MsPerDay, 2 * MsPerDay)
    ensures TimeAgo(now, At(past)).DaysAgo? <==> AgeIn(now, past, 2 * MsPerDay, 7 * MsPerDay)
    ensures TimeAgo(now, At(past)) == CalendarDate <==> now - past >= 7 * MsPerDay
    ensures AgeIn(now, past, MsPerMinute, MsPerHour) ==> Count(TimeAgo(now, At(past))) == (now - past) / MsPerMinute
    ensures AgeIn(now, past, MsPerHour, MsPerDay) ==> Count(TimeAgo(now, At(past))) == (now - past) / MsPerHour
    ensures AgeIn(now, past, 2 * MsPerDay, 7 * MsPerDay) ==> Count(TimeAgo(now, At(past))) == (now - past) / MsPerDay
  {
    var diff := now - past;
    FloorBounds(diff, MsPerMinute);
    FloorBounds(diff, MsPerHour);
    FloorBounds(diff, MsPerDay);
  }

  /** `x / k` is the floor of x over k, for positive k, including for
      negative x. */
  lemma FloorBounds(x: int, k: int)
    requires k > 0
    ensures (x / k) * k <= x < (x / k) * k + k
    ensures x / k < 1 <==> x < k
    ensures x / k >= 0 <==> x >= 0
  {
  }

  /** Division by a positive constant is monotone. */
  lemma FloorMonotone(x: int, y: int, k: int)
    requires k > 0 && x <= y
    ensures x / k <= y / k
  {
    FloorBounds(x, k);
    FloorBounds(y, k);
    MulCancel(x / k, y / k + 1, k);
  }

  lemma MulCancel(a: int, b: int, k: int)
    requires k > 0 && a * k < b * k
    ensures a < b
  {
  }

  /** The order of the buckets, freshest first. */
  function Rank(l: Label): nat {
    match l
    case JustNow => 0
    case MinutesAgo(_) => 1
    case HoursAgo(_) => 2
    case Yesterday => 3
    case DaysAgo(_) => 4
    case CalendarDate => 5
  }

  /** The count a label shows (0 for the labels that show none). */
  function Count(l: Label): nat {
    match l
    case MinutesAgo(n) => n
    case HoursAgo(n) => n
    case DaysAgo(n) => n
    case _ => 0
  }

  /** An older timestamp never gets a fresher label, and within one bucket
      never a smaller count. */
  lemma TimeAgoMonotone(now: int, newer: int, older: int)
    requires older <= newer
    ensures Rank(TimeAgo(now, At(newer))) <= Rank(TimeAgo(now, At(older)))
    ensures Rank(TimeAgo(now, At(newer))) == Rank(TimeAgo(now, At(older))) ==>
              Count(TimeAgo(now, At(newer))) <= Count(TimeAgo(now, At(older)))
  {
    TimeAgoBuckets(now, newer);
    TimeAgoBuckets(now, older);
    FloorMonotone(now - newer, now - older, MsPerMinute);
    FloorMonotone(now - newer, now - older, MsPerHour);
    FloorMonotone(now - newer, now - older, MsPerDay);
  }

  /** The text of a relative label, as the template literals build it. */
  function LabelText(l: Label): (t: string)
    requires l != CalendarDate
    ensures EndsWith(t, " ago") <==> Counted(l)
  {
    match l
    case JustNow => "Just now"
    case MinutesAgo(n) => NatText(n) + " minute" + (if n > 1 then "s" else "") + " ago"
    case HoursAgo(n) => NatText(n) + " hour" + (if n > 1 then "s" else "") + " ago"
    case Yesterday => "Yesterday"
    case DaysAgo(n) => NatText(n) + " days ago"
  }

  predicate EndsWith(s: string, suffix: string) {
    |suffix| <= |s| && s[|s| - |suffix|..] == suffix
  }

  /** The minute label is singular exactly for a count of 1. */
  lemma MinutePluralisation(n: nat)
    requires n >= 1
    ensures EndsWith(LabelText(MinutesAgo(n)), " minute ago") <==> n == 1
    ensures EndsWith(LabelText(MinutesAgo(n)), " minutes ago") <==> n != 1
  {
    var m := LabelText(MinutesAgo(n));
    if n == 1 {
      assert m == "1 minute ago";
      assert m[|m| - |" minutes ago"|] == '1';
    } else {
      assert m == NatText(n) + " minutes ago";
      assert m[|m| - 11] == 'm';
    }
  }

  /** The hour label is singular exactly for a count of 1. */
  lemma HourPluralisation(n: nat)
    requires n >= 1
    ensures EndsWith(LabelText(HoursAgo(n)), " hour ago") <==> n == 1
    ensures EndsWith(LabelText(HoursAgo(n)), " hours ago") <==> n != 1
  {
    var h := LabelText(HoursAgo(n));
    if n == 1 {
      assert h == "1 hour ago";
      assert h[|h| - |" hours ago"|] == '1';
    } else {
      assert h == NatText(n) + " hours ago";
      assert h[|h| - 9] == 'h';
    }
  }

  /** If a string of digits followed by a tail that starts with a non-digit
      equals another such string, the digits and the tails agree. */
  lemma SplitDigits(d1: string, t1: string, d2: string, t2: string)
    requires AllDigits(d1) && AllDigits(d2)
    requires t1 != [] && !IsDigit(t1[0]) && t2 != [] && !IsDigit(t2[0])
    requires d1 + t1 == d2 + t2
    ensures d1 == d2 && t1 == t2
  {
    DigitRunOf(d1, t1);
    DigitRunOf(d2, t2);
    assert d1 == (d1 + t1)[..|d1|];
    assert d2 == (d2 + t2)[..|d2|];
    assert t1 == (d1 + t1)[|d1|..];
    assert t2 == (d2 + t2)[|d2|..];
  }

  /** The length of the run of digits a string starts with. */
  function DigitRun(s: string): (n: nat)
    ensures n <= |s|
  {
    if s == [] || !IsDigit(s[0]) then 0 else 1 + DigitRun(s[1..])
  }

  lemma {:induction false} DigitRunOf(d: string, t: string)
    requires AllDigits(d) && t != [] && !IsDigit(t[0])
    ensures DigitRun(d + t) == |d|
  {
    if d != [] {
      assert (d + t)[1..] == d[1..] + t;
      DigitRunOf(d[1..], t);
    }
  }

  /** Distinct relative labels read differently: the text alone tells which
      bucket the age fell in and what count it showed. */
  lemma {:induction false} LabelTextInjective(a: Label, b: Label)
    requires a != CalendarDate && b != CalendarDate
    requires a.MinutesAgo? ==> a.minutes >= 1
    requires b.MinutesAgo? ==> b.minutes >= 1
    requires a.HoursAgo? ==> a.hours >= 1
    requires b.HoursAgo? ==> b.hours >= 1
    requires LabelText(a) == LabelText(b)
    ensures a == b
  {
    if Counted(a) && Counted(b) {
      LabelTextSplit(a);
      LabelTextSplit(b);
      SplitDigits(NatText(Count(a)), Tail(a), NatText(Count(b)), Tail(b));
      NatTextInjective(Count(a), Count(b));
      TailDistinguishes(a, b);
    }
  }

  /** The labels that show a count. */
  predicate Counted(l: Label) {
    l.MinutesAgo? || l.HoursAgo? || l.DaysAgo?
  }

  /** A counted label is its count's digits followed by a tail that starts
      with a space. */
  lemma LabelTextSplit(l: Label)
    requires Counted(l)
    ensures LabelText(l) == NatText(Count(l)) + Tail(l)
    ensures Tail(l) != [] && Tail(l)[0] == ' '
  {
  }

  /** What follows the count in a label that shows one. */
  function Tail(l: Label): string
    requires Counted(l)
  {
    match l
    case MinutesAgo(n) => " minute" + (if n > 1 then "s" else "") + " ago"
    case HoursAgo(n) => " hour" + (if n > 1 then "s" else "") + " ago"
    case DaysAgo(_) => " days ago"
  }

  lemma TailDistinguishes(a: Label, b: Label)
    requires Counted(a) && Counted(b)
    requires Tail(a) == Tail(b) && Count(a) == Count(b)
    ensures a == b
  {
    assert Tail(a)[1] == UnitLetter(a);
    assert Tail(b)[1] == UnitLetter(b);
  }

  /** The first letter of the unit a counted label names. */
  function UnitLetter(l: Label): char
    requires Counted(l)
  {
    match l
    case MinutesAgo(_) => 'm'
    case HoursAgo(_) => 'h'
    case DaysAgo(_) => 'd'
  }

  /** `isRecentScrape`: the age in hours, as a real quotient, is at most 24.
      An invalid date gives NaN, and NaN <= 24 is false. */
  function IsRecentScrape(now: int, past: Instant): (recent: bool)
    ensures recent <==> past.At? && now - past.ms <= MsPerDay
  {
    match past
    case InvalidDate => false
    case At(p) => (now - p) as real / MsPerHour as real <= 24.0
  }

  /** Every scrape labelled "Just now", in minutes or in hours is recent; a
      scrape labelled "Yesterday" is recent only at exactly 24 hours; older
      labels never are. Both helpers are given the same clock reading `now`;
      each reads the clock for itself, so two readings a millisecond apart
      can disagree at the 24-hour edge. */
  lemma RecentAgreesWithLabel(now: int, past: int)
    ensures Rank(TimeAgo(now, At(past))) <= 2 ==> IsRecentScrape(now, At(past))
    ensures TimeAgo(now, At(past)) == Yesterday ==>
              (IsRecentScrape(now, At(past)) <==> now - past == MsPerDay)
    ensures Rank(TimeAgo(now, At(past))) >= 4 ==> !IsRecentScrape(now, At(past))
  {
    TimeAgoBuckets(now, past);
  }
}
