/**
 * The time model of the scheduler.
 *
 * Instants are integer minutes on the UTC timeline. Civil dates in the
 * Philippine time zone (PHT, "Asia/Manila") are day numbers: day 0 is
 * 1970-01-01, a Thursday. Asia/Manila is UTC+8 all year round with no
 * daylight saving, so converting between local civil time and UTC is a
 * constant shift of 480 minutes.
 */
module Clock {

  const MinutesPerDay: int := 1440
  /** Offset of PHT from UTC, in minutes. */
  const PhtOffset: int := 480

  /** Python's `date.weekday()` numbering: Monday is 0, Sunday is 6. */
  const Saturday: int := 5
  const Sunday: int := 6

  /** The UTC instant of PHT local time `minuteOfDay` on PHT date `d`. */
  function LocalToUtc(d: int, minuteOfDay: int): int {
    d * MinutesPerDay + minuteOfDay - PhtOffset
  }

  /** The UTC instant at which PHT date `d` begins (local midnight). */
  function DayStart(d: int): int {
    LocalToUtc(d, 0)
  }

  /** The PHT date of UTC instant `t` (`t.astimezone(PHT).date()`). */
  function LocalDate(t: int): int {
    (t + PhtOffset) / MinutesPerDay
  }

  /** The PHT local time of day of `t`, in minutes after midnight. */
  function LocalTime(t: int): int {
    (t + PhtOffset) % MinutesPerDay
  }

  /** Weekday of PHT date `d`, Monday = 0 .. Sunday = 6. */
  function Weekday(d: int): (w: int)
    ensures 0 <= w < 7
  {
    (d + 3) % 7
  }

  /** Local date and time of day determine the instant, and are recovered from it. */
  lemma LocalRoundTrip(d: int, minuteOfDay: int)
    requires 0 <= minuteOfDay < MinutesPerDay
    ensures LocalDate(LocalToUtc(d, minuteOfDay)) == d
    ensures LocalTime(LocalToUtc(d, minuteOfDay)) == minuteOfDay
  {
    var t := LocalToUtc(d, minuteOfDay);
    assert t + PhtOffset == d * MinutesPerDay + minuteOfDay;
  }

  lemma LocalSplit(t: int)
    ensures 0 <= LocalTime(t) < MinutesPerDay
    ensures LocalToUtc(LocalDate(t), LocalTime(t)) == t
  {
  }

  /** Consecutive dates are seven-periodic in their weekday. */
  lemma WeekdayNext(d: int)
    ensures Weekday(d + 1) == (Weekday(d) + 1) % 7
    ensures Weekday(d + 7) == Weekday(d)
  {
  }

  // ---------------------------------------------------------------------
  // Half-open intervals
  // ---------------------------------------------------------------------

  /** `check_overlap`: `[s1, e1)` and `[s2, e2)` share an instant. */
  predicate Overlap(s1: int, e1: int, s2: int, e2: int) {
    s1 < e2 && e1 > s2
  }

  lemma OverlapSymmetric(s1: int, e1: int, s2: int, e2: int)
    ensures Overlap(s1, e1, s2, e2) <==> Overlap(s2, e2, s1, e1)
  {
  }

  lemma OverlapSelf(s: int, e: int)
    ensures Overlap(s, e, s, e) <==> s < e
  {
  }

  lemma AdjacentDisjoint(a: int, b: int, c: int)
    ensures !Overlap(a, b, b, c)
  {
  }

  /** Instant `t` lies in `[s, e)`. */
  predicate Within(t: int, s: int, e: int) {
    s <= t < e
  }

  /**
   * For non-empty intervals, `check_overlap` holds exactly when some instant
   * lies in both. (On an empty interval it can hold without a common instant.)
   */
  lemma OverlapWitness(s1: int, e1: int, s2: int, e2: int)
    requires s1 < e1 && s2 < e2
    ensures Overlap(s1, e1, s2, e2) <==> exists t :: Within(t, s1, e1) && Within(t, s2, e2)
  {
    if Overlap(s1, e1, s2, e2) {
      var t := if s1 < s2 then s2 else s1;
      assert Within(t, s1, e1) && Within(t, s2, e2);
    }
  }

  // ---------------------------------------------------------------------
  // The proleptic Gregorian calendar (Python's `date`)
  // ---------------------------------------------------------------------

  predicate IsLeap(y: int) {
    y % 4 == 0 && (y % 100 != 0 || y % 400 == 0)
  }

  function DaysInMonth(y: int, m: int): (n: int)
    requires 1 <= m <= 12
    ensures 28 <= n <= 31
  {
    if m == 2 then (if IsLeap(y) then 29 else 28)
    else if m == 4 || m == 6 || m == 9 || m == 11 then 30
    else 31
  }

  /** Days in the months of year `y` before month `m`. */
  function DaysBeforeMonth(y: int, m: int): int
    requires 1 <= m <= 13
    decreases m
  {
    if m == 1 then 0 else DaysBeforeMonth(y, m - 1) + DaysInMonth(y, m - 1)
  }

  /** Leap years among 1 .. y - 1 (extended to all integers by floor division). */
  function LeapsBefore(y: int): int {
    (y - 1) / 4 - (y - 1) / 100 + (y - 1) / 400
  }

  /** Day number of January 1 of year `y`. */
  function YearStart(y: int): int {
    365 * (y - 1970) + LeapsBefore(y) - LeapsBefore(1970)
  }

  predicate ValidDate(y: int, m: int, d: int) {
    1 <= m <= 12 && 1 <= d <= DaysInMonth(y, m)
  }

  /** Day number of the civil date `y-m-d`. */
  function DayNumber(y: int, m: int, d: int): int
    requires 1 <= m <= 12
  {
    YearStart(y) + DaysBeforeMonth(y, m) + d - 1
  }

  /** The year has 365 or 366 days, so consecutive Januaries are that far apart. */
  lemma YearLength(y: int)
    ensures YearStart(y + 1) - YearStart(y) == if IsLeap(y) then 366 else 365
  {
    assert y / 4 - (y - 1) / 4 == if y % 4 == 0 then 1 else 0;
    assert y / 100 - (y - 1) / 100 == if y % 100 == 0 then 1 else 0;
    assert y / 400 - (y - 1) / 400 == if y % 400 == 0 then 1 else 0;
  }

  /** Months tile the year: December ends where the next January begins. */
  lemma {:induction false} MonthsFillYear(y: int)
    ensures DaysBeforeMonth(y, 13) == if IsLeap(y) then 366 else 365
  {
  }

  // ---------------------------------------------------------------------
  // Calendar display (for the human-readable reasons)
  // ---------------------------------------------------------------------

  /** Year, month and day of a day number (H. Hinnant's civil_from_days). */
  function CivilOf(n: int): (int, int, int) {
    var z := n + 719468;
    var era := z / 146097;
    var doe := z % 146097;
    var yoe := (doe - doe / 1460 + doe / 36524 - doe / 146096) / 365;
    var doy := doe - (365 * yoe + yoe / 4 - yoe / 100);
    var mp := (5 * doy + 2) / 153;
    var d := doy - (153 * mp + 2) / 5 + 1;
    var m := if mp < 10 then mp + 3 else mp - 9;
    (yoe + era * 400 + (if m <= 2 then 1 else 0), m, d)
  }

  function MonthAbbrev(m: int): string {
    if m == 1 then "Jan" else if m == 2 then "Feb" else if m == 3 then "Mar"
    else if m == 4 then "Apr" else if m == 5 then "May" else if m == 6 then "Jun"
    else if m == 7 then "Jul" else if m == 8 then "Aug" else if m == 9 then "Sep"
    else if m == 10 then "Oct" else if m == 11 then "Nov" else "Dec"
  }

  /** Python's `strftime("%A")`. */
  function DayName(w: int): string {
    if w == 0 then "Monday" else if w == 1 then "Tuesday" else if w == 2 then "Wednesday"
    else if w == 3 then "Thursday" else if w == 4 then "Friday" else if w == 5 then "Saturday"
    else "Sunday"
  }

  function Digit(n: int): char
    requires 0 <= n < 10
  {
    "0123456789"[n]
  }

  function NatToString(n: nat): string
    decreases n
  {
    if n < 10 then [Digit(n)] else NatToString(n / 10) + [Digit(n % 10)]
  }

  function IntToString(n: int): string {
    if n < 0 then "-" + NatToString(-n) else NatToString(n)
  }

  /** Zero-padded to `width` digits. */
  function Padded(n: nat, width: nat): string {
    var s := NatToString(n);
    if |s| < width then seq(width - |s|, _ => '0') + s else s
  }

  /** `str(date)`: YYYY-MM-DD. */
  function IsoDate(n: int): string {
    var (y, m, d) := CivilOf(n);
    (if y < 0 then "-" + Padded(-y, 4) else Padded(y, 4)) + "-"
      + (if m < 0 then "" else Padded(m, 2)) + "-" + (if d < 0 then "" else Padded(d, 2))
  }

  /** `strftime("%b %d")`. */
  function MonthDayLabel(n: int): string {
    var (_, m, d) := CivilOf(n);
    MonthAbbrev(m) + " " + (if d < 0 then "" else Padded(d, 2))
  }

  /** `strftime("%H:%M")` of a minute of the day. */
  function ClockLabel(minuteOfDay: int): string {
    if minuteOfDay < 0 then "" else Padded(minuteOfDay / 60, 2) + ":" + Padded(minuteOfDay % 60, 2)
  }
}
