/**
 * The template filter `time_ago` and the role helpers of housing/jinja2.py.
 * The clock is a parameter: `now` stands for `timezone.now()`.
 */
module TemplateHelpers {
  import opened Types
  import opened Accounts
  import opened Text

  const MicrosPerSecond: int := 1_000_000
  const SecondsPerDay: int := 86_400

  /** `timedelta.days` of a difference in microseconds: floor division, so negative for the future. */
  function DeltaDays(diff: int): int
  {
    diff / (SecondsPerDay * MicrosPerSecond)
  }

  /** `timedelta.seconds`: the whole seconds left after the days, always in [0, 86400). */
  function DeltaSeconds(diff: int): (s: int)
    ensures 0 <= s < SecondsPerDay
  {
    (diff % (SecondsPerDay * MicrosPerSecond)) / MicrosPerSecond
  }

  /** The bucket `time_ago` chooses, with its count. */
  datatype Elapsed =
    | Blank
    | YearsAgo(n: nat)
    | MonthsAgo(n: nat)
    | DaysAgo(n: nat)
    | HoursAgo(n: nat)
    | MinutesAgo(n: nat)
    | JustNow

  /** The if/elif chain of `time_ago` over `diff.days` and `diff.seconds`. */
  function Bucket(days: int, seconds: int): (e: Elapsed)
    requires 0 <= seconds < SecondsPerDay
    ensures !e.Blank?
    ensures e.YearsAgo? <==> days > 365
    ensures e.YearsAgo? ==> 1 <= e.n && e.n * 365 <= days < (e.n + 1) * 365
    ensures e.MonthsAgo? <==> 30 < days <= 365
    ensures e.MonthsAgo? ==> 1 <= e.n <= 12 && e.n * 30 <= days < (e.n + 1) * 30
    ensures e.DaysAgo? <==> 0 < days <= 30
    ensures e.DaysAgo? ==> e.n == days
    ensures e.HoursAgo? <==> days <= 0 && seconds > 3600
    ensures e.HoursAgo? ==> 1 <= e.n <= 23 && e.n * 3600 <= seconds < (e.n + 1) * 3600
    ensures e.MinutesAgo? <==> days <= 0 && 60 < seconds <= 3600
    ensures e.MinutesAgo? ==> 1 <= e.n <= 60 && e.n * 60 <= seconds < (e.n + 1) * 60
    ensures e.JustNow? <==> days <= 0 && seconds <= 60
  {
    if days > 365 then YearsAgo(days / 365)
    else if days > 30 then MonthsAgo(days / 30)
    else if days > 0 then DaysAgo(days)
    else if seconds > 3600 then HoursAgo(seconds / 3600)
    else if seconds > 60 then MinutesAgo(seconds / 60)
    else JustNow
  }

  /** The bucket for `value`, or `Blank` when there is no value. */
  function ElapsedSince(value: Option<Time>, now: Time): (e: Elapsed)
    ensures e.Blank? <==> value.None?
  {
    match value
    case None => Blank
    case Some(v) => Bucket(DeltaDays(now - v), DeltaSeconds(now - v))
  }

  /** `f'{n} {unit}{"s" if n > 1 else ""} ago'`. */
  function Counted(n: nat, unit: string): string
  {
    DecimalString(n) + " " + unit + (if n > 1 then "s" else "") + " ago"
  }

  function Phrase(e: Elapsed): string
  {
    match e
    case Blank => ""
    case YearsAgo(n) => Counted(n, "year")
    case MonthsAgo(n) => Counted(n, "month")
    case DaysAgo(n) => Counted(n, "day")
    case HoursAgo(n) => Counted(n, "hour")
    case MinutesAgo(n) => Counted(n, "minute")
    case JustNow => "just now"
  }

  /** `time_ago(value)`. */
  function TimeAgo(value: Option<Time>, now: Time): (s: string)
    ensures s == "" <==> value.None?
  {
    var e := ElapsedSince(value, now);
    assert e.Blank? || |Phrase(e)| > 0;
    Phrase(e)
  }

  /**
   * A counted phrase starts with the count in decimal, and carries the
   * plural "s" exactly when the count exceeds one.
   */
  lemma CountedReadsBack(n: nat, unit: string)
    requires unit != [] && unit[|unit| - 1] != 's'
    ensures var s, d := Counted(n, unit), DecimalString(n);
      && s[..|d|] == d && DigitsValue(s[..|d|]) == n
      && (s[|s| - 5..] == "s ago" <==> n > 1)
  {
    var s, d := Counted(n, unit), DecimalString(n);
    assert s[..|d|] == d;
    DecimalStringValue(n);
    if n <= 1 {
      assert s[|s| - 5] == unit[|unit| - 1];
    }
  }

  /** A difference of exactly 365 days is still counted in months. */
  lemma YearBoundary(now: Time)
    ensures TimeAgo(Some(now - 365 * SecondsPerDay * MicrosPerSecond), now) == "12 months ago"
    ensures TimeAgo(Some(now - 366 * SecondsPerDay * MicrosPerSecond), now) == "1 year ago"
  {
    assert ElapsedSince(Some(now - 365 * SecondsPerDay * MicrosPerSecond), now) == MonthsAgo(12);
    assert ElapsedSince(Some(now - 366 * SecondsPerDay * MicrosPerSecond), now) == YearsAgo(1);
    assert DecimalString(12) == "12" by {
      assert DecimalString(1) == "1";
    }
  }

  /** A difference of exactly one hour is still counted in minutes; one minute is "just now". */
  lemma HourBoundary(now: Time)
    ensures TimeAgo(Some(now - 3600 * MicrosPerSecond), now) == "60 minutes ago"
    ensures TimeAgo(Some(now - 61 * MicrosPerSecond), now) == "1 minute ago"
    ensures TimeAgo(Some(now - 60 * MicrosPerSecond), now) == "just now"
  {
    assert ElapsedSince(Some(now - 3600 * MicrosPerSecond), now) == MinutesAgo(60);
    assert ElapsedSince(Some(now - 61 * MicrosPerSecond), now) == MinutesAgo(1);
    assert ElapsedSince(Some(now - 60 * MicrosPerSecond), now) == JustNow;
    assert DecimalString(60) == "60" by {
      assert DecimalString(6) == "6";
    }
  }

  /** An instant one hour in the future lies in `days == -1` and reads as hours ago. */
  lemma FutureInstantReadsAsHoursAgo(now: Time)
    ensures ElapsedSince(Some(now + 3600 * MicrosPerSecond), now) == HoursAgo(23)
  {
  }

  // ---------------------------------------------------------------------
  // Role helpers

  /** `get_user_type(user)`: the user type, or none for an anonymous visitor. */
  function GetUserType(u: User): (t: Option<UserType>)
    ensures t.Some? <==> u.isAuthenticated
    ensures t.Some? ==> t.value == u.userType
  {
    if u.isAuthenticated then Some(u.userType) else None
  }

  predicate IsLandlord(u: User)
  {
    u.isAuthenticated && u.userType == Landlord
  }

  predicate IsStudent(u: User)
  {
    u.isAuthenticated && u.userType == Student
  }

  /** Staff status decides, not `user_type == 'admin'`. */
  predicate IsAdmin(u: User)
  {
    u.isAuthenticated && u.isStaff
  }

  /** The type-based helpers are `get_user_type` compared with a type. */
  lemma RoleHelpersFollowUserType(u: User)
    ensures IsLandlord(u) <==> GetUserType(u) == Some(Landlord)
    ensures IsStudent(u) <==> GetUserType(u) == Some(Student)
    ensures GetUserType(u) == Some(Admin) && !u.isStaff ==> !IsAdmin(u)
  {
  }
}
