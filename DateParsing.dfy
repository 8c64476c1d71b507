/**
 * `parse_date_string`: the academic calendar's date texts, already split into
 * tokens, turned into the sorted list of PHT dates (day numbers) they denote.
 *
 * A month is an integer; 1 .. 12 are the month names, any other value stands
 * for a word the date parser does not recognise (which makes that token fail).
 */
module DateParsing {
  import opened Wrappers
  import opened Clock

  /** Months before July belong to the academic year's second calendar year. */
  const CutoffMonth: int := 7

  /** One fragment of a comma- or ampersand-separated date list. */
  datatype ListPart =
    | MonthDay(month: int, day: int)     // "Mon D", or "Mon D - D" read as its first day; sets the month context
    | DayRange(first: int, last: int)    // "D - D" in the current month
    | DayOnly(day: int)                  // "D" in the current month
    | Unhandled                          // anything else (skipped)

  /** The shapes of date text the calendar uses. */
  datatype DateText =
    | SingleDay(month: int, day: int)                                  // "Mon D"
    | SameMonthRange(month: int, day: int, lastDay: int)               // "Mon D - D"
    | CrossMonthRange(month: int, day: int, endMonth: int, endDay: int) // "Mon D - Mon D"
    | DateList(parts: seq<ListPart>)                                   // "Mon D, D & D - D"
    | Onwards(month: int, day: int)                                    // "Mon D onwards"
    | Unrecognized                                                     // any other text

  /** `get_year`: the calendar year of `month` within the academic year. */
  function YearOf(month: int, yearStart: int, yearEnd: int): int {
    if month < CutoffMonth then yearEnd else yearStart
  }

  /** The date "month day" of the academic year, if it exists. */
  function Resolve(month: int, day: int, yearStart: int, yearEnd: int): Option<int> {
    var y := YearOf(month, yearStart, yearEnd);
    if ValidDate(y, month, day) then Some(DayNumber(y, month, day)) else None
  }

  function Min(a: int, b: int): int {
    if a <= b then a else b
  }

  /** The last day of a run in `month` that is to stop at `last`. */
  function RunTop(month: int, last: int, yearStart: int, yearEnd: int): int
    requires 1 <= month <= 12
  {
    Min(last, DaysInMonth(YearOf(month, yearStart, yearEnd), month))
  }

  /**
   * First and last date of the run "month first .. last", cut at the end of
   * the month; None when the first date does not exist.
   */
  function MonthRun(month: int, first: int, last: int, yearStart: int, yearEnd: int): Option<(int, int)> {
    var y := YearOf(month, yearStart, yearEnd);
    if ValidDate(y, month, first) then
      Some((DayNumber(y, month, first), DayNumber(y, month, RunTop(month, last, yearStart, yearEnd))))
    else None
  }

  /**
   * First and last date of "m1 d1 - m2 d2". A range that would run backwards
   * from the second half of the year into the first moves its end into the
   * calendar year after the start's.
   */
  function CrossBounds(m1: int, d1: int, m2: int, d2: int, yearStart: int, yearEnd: int): Option<(int, int)> {
    var start := Resolve(m1, d1, yearStart, yearEnd);
    var end := Resolve(m2, d2, yearStart, yearEnd);
    if start.None? || end.None? then None
    else if start.value > end.value && m1 > 6 && m2 < 7 then
      var y := YearOf(m1, yearStart, yearEnd) + 1;
      if ValidDate(y, m2, d2) then Some((start.value, DayNumber(y, m2, d2))) else None
    else Some((start.value, end.value))
  }

  /** The month context after a list fragment. */
  function NextContext(p: ListPart, context: Option<int>): Option<int> {
    if p.MonthDay? then Some(p.month) else context
  }

  // ---------------------------------------------------------------------
  // What a date text denotes
  // ---------------------------------------------------------------------

  function Elems(s: seq<int>): set<int> {
    set x | x in s
  }

  predicate InSpan(x: int, lo: int, hi: int) {
    lo <= x <= hi
  }

  /** The dates `lo .. hi`. */
  ghost function Span(lo: int, hi: int): set<int> {
    set x | lo <= x <= hi && InSpan(x, lo, hi)
  }

  lemma ElemsAppend(s: seq<int>, x: int)
    ensures Elems(s + [x]) == Elems(s) + {x}
  {
    assert forall y :: y in s + [x] <==> y in s || y == x;
  }

  lemma ElemsEmpty(s: seq<int>)
    ensures Elems(s) == {} <==> s == []
  {
    if s != [] {
      assert s[0] in Elems(s);
    }
  }

  lemma SpanExtend(lo: int, hi: int)
    requires lo <= hi + 1
    ensures Span(lo, hi + 1) == Span(lo, hi) + {hi + 1}
  {
    assert InSpan(hi + 1, lo, hi + 1);
  }

  lemma SpanEmpty(lo: int, hi: int)
    requires hi < lo
    ensures Span(lo, hi) == {}
  {
  }

  lemma SpanSingle(v: int)
    ensures Span(v, v) == {v}
  {
    assert InSpan(v, v, v);
  }

  ghost function SpanOf(bounds: Option<(int, int)>): set<int> {
    if bounds.None? then {} else Span(bounds.value.0, bounds.value.1)
  }

  ghost function DayOf(date: Option<int>): set<int> {
    if date.None? then {} else {date.value}
  }

  ghost function PartDenoted(p: ListPart, context: Option<int>, ys: int, ye: int): set<int> {
    match p
    case MonthDay(m, d) => DayOf(Resolve(m, d, ys, ye))
    case DayRange(a, b) => if context.None? then {} else SpanOf(MonthRun(context.value, a, b, ys, ye))
    case DayOnly(d) => if context.None? then {} else DayOf(Resolve(context.value, d, ys, ye))
    case Unhandled => {}
  }

  ghost function ListDenoted(parts: seq<ListPart>, context: Option<int>, ys: int, ye: int): set<int>
    decreases |parts|
  {
    if parts == [] then {}
    else PartDenoted(parts[0], context, ys, ye) + ListDenoted(parts[1..], NextContext(parts[0], context), ys, ye)
  }

  /** The set of dates a date text stands for in academic year `ys`-`ye`. */
  ghost function Denoted(t: DateText, ys: int, ye: int): set<int> {
    match t
    case SingleDay(m, d) => DayOf(Resolve(m, d, ys, ye))
    case SameMonthRange(m, d, last) => SpanOf(MonthRun(m, d, last, ys, ye))
    case CrossMonthRange(m1, d1, m2, d2) => SpanOf(CrossBounds(m1, d1, m2, d2, ys, ye))
    case DateList(parts) => ListDenoted(parts, None, ys, ye)
    case Onwards(m, d) => DayOf(Resolve(m, d, ys, ye))
    case Unrecognized => {}
  }

  // ---------------------------------------------------------------------
  // Sorting with duplicates removed (`sorted(list(set(dates)))`)
  // ---------------------------------------------------------------------

  predicate StrictlyIncreasing(s: seq<int>) {
    forall i, j :: 0 <= i < j < |s| ==> s[i] < s[j]
  }

  function Insert(x: int, s: seq<int>): (r: seq<int>)
    requires StrictlyIncreasing(s)
    ensures StrictlyIncreasing(r)
    ensures Elems(r) == Elems(s) + {x}
    decreases |s|, 0
  {
    if s == [] then [x]
    else if x < s[0] then [x] + s
    else if x == s[0] then s
    else
      var tail := Insert(x, s[1..]);
      assert Elems(s) == {s[0]} + Elems(s[1..]);
      InsertAbove(x, s[1..], s[0]);
      assert Elems([s[0]] + tail) == {s[0]} + Elems(tail) by {
        assert forall y :: y in [s[0]] + tail <==> y == s[0] || y in tail;
      }
      [s[0]] + tail
  }

  /** Inserting into dates all above `lo` keeps them above it. */
  lemma InsertAbove(x: int, s: seq<int>, lo: int)
    requires StrictlyIncreasing(s) && lo < x
    requires forall k :: 0 <= k < |s| ==> lo < s[k]
    ensures forall k :: 0 <= k < |Insert(x, s)| ==> lo < Insert(x, s)[k]
    decreases |s|, 1
  {
    var r := Insert(x, s);
    forall k | 0 <= k < |r|
      ensures lo < r[k]
    {
      assert r[k] in Elems(r);
      if r[k] != x {
        assert r[k] in Elems(s);
      }
    }
  }

  function SortedUnique(s: seq<int>): (r: seq<int>)
    ensures StrictlyIncreasing(r)
    ensures Elems(r) == Elems(s)
  {
    if s == [] then []
    else
      var init := s[..|s| - 1];
      assert s == init + [s[|s| - 1]];
      assert Elems(s) == Elems(init) + {s[|s| - 1]};
      Insert(s[|s| - 1], SortedUnique(init))
  }

  // ---------------------------------------------------------------------
  // The parser
  // ---------------------------------------------------------------------

  method AppendDate(acc: seq<int>, date: Option<int>) returns (r: seq<int>)
    ensures Elems(r) == Elems(acc) + DayOf(date)
  {
    r := acc;
    if date.Some? {
      r := r + [date.value];
    }
  }

  /** Appends `lo, lo + 1, .., hi` (the `while current_date <= end_dt` loop). */
  method AppendSpan(acc: seq<int>, lo: int, hi: int) returns (r: seq<int>)
    ensures Elems(r) == Elems(acc) + Span(lo, hi)
  {
    r := acc;
    var current := lo;
    while current <= hi
      invariant current == lo || lo <= current <= hi + 1
      invariant Elems(r) == Elems(acc) + Span(lo, current - 1)
      decreases hi - current
    {
      SpanExtend(lo, current - 1);
      ElemsAppend(r, current);
      r := r + [current];
      current := current + 1;
    }
  }

  /**
   * Appends the days of `month` from `first` while the day is at most `last`
   * and the date is still in that month.
   */
  method AppendMonthRun(acc: seq<int>, month: int, first: int, last: int, ys: int, ye: int)
    returns (r: seq<int>)
    ensures Elems(r) == Elems(acc) + SpanOf(MonthRun(month, first, last, ys, ye))
  {
    r := acc;
    var y := YearOf(month, ys, ye);
    if ValidDate(y, month, first) {
      var start := DayNumber(y, month, first);
      var top := RunTop(month, last, ys, ye);
      var day := first;
      while day <= last && day <= DaysInMonth(y, month)
        invariant day == first || first <= day <= top + 1
        invariant Elems(r) == Elems(acc) + Span(start, DayNumber(y, month, day) - 1)
        decreases DaysInMonth(y, month) - day
      {
        SpanExtend(start, DayNumber(y, month, day) - 1);
        ElemsAppend(r, DayNumber(y, month, day));
        r := r + [DayNumber(y, month, day)];
        day := day + 1;
      }
      assert Span(start, DayNumber(y, month, day) - 1) == Span(start, DayNumber(y, month, top));
    }
  }

  /**
   * `parse_date_string`: the dates the text denotes, in increasing order and
   * without repetition. Fragments that do not parse contribute nothing.
   */
  method ParseDateString(t: DateText, ys: int, ye: int) returns (dates: seq<int>)
    ensures StrictlyIncreasing(dates)
    ensures Elems(dates) == Denoted(t, ys, ye)
  {
    var acc: seq<int> := [];
    match t {
      case SingleDay(m, d) =>
        acc := AppendDate(acc, Resolve(m, d, ys, ye));
      case SameMonthRange(m, d, last) =>
        acc := AppendMonthRun(acc, m, d, last, ys, ye);
      case CrossMonthRange(m1, d1, m2, d2) =>
        var bounds := CrossBounds(m1, d1, m2, d2, ys, ye);
        if bounds.Some? {
          acc := AppendSpan(acc, bounds.value.0, bounds.value.1);
        }
      case DateList(parts) =>
        var context: Option<int> := None;
        var i := 0;
        while i < |parts|
          invariant 0 <= i <= |parts|
          invariant Elems(acc) + ListDenoted(parts[i..], context, ys, ye) == ListDenoted(parts, None, ys, ye)
        {
          assert parts[i..][1..] == parts[i + 1..];
          match parts[i] {
            case MonthDay(m, d) =>
              acc := AppendDate(acc, Resolve(m, d, ys, ye));
            case DayRange(a, b) =>
              if context.Some? {
                acc := AppendMonthRun(acc, context.value, a, b, ys, ye);
              }
            case DayOnly(d) =>
              if context.Some? {
                acc := AppendDate(acc, Resolve(context.value, d, ys, ye));
              }
            case Unhandled =>
          }
          context := NextContext(parts[i], context);
          i := i + 1;
        }
      case Onwards(m, d) =>
        acc := AppendDate(acc, Resolve(m, d, ys, ye));
      case Unrecognized =>
    }
    dates := SortedUnique(acc);
  }

  // ---------------------------------------------------------------------
  // Properties of parsed date lists
  // ---------------------------------------------------------------------

  /** The first and last entries of a sorted date list are its minimum and maximum. */
  lemma IncreasingBounds(s: seq<int>)
    requires StrictlyIncreasing(s) && |s| > 0
    ensures forall x :: x in Elems(s) ==> s[0] <= x <= s[|s| - 1]
  {
    forall x | x in Elems(s)
      ensures s[0] <= x <= s[|s| - 1]
    {
      var k :| 0 <= k < |s| && s[k] == x;
    }
  }

  /** A sorted list without repetition whose dates are exactly `lo .. hi` lists them one by one. */
  lemma {:induction false} ConsecutiveAt(r: seq<int>, lo: int, hi: int, i: int)
    requires StrictlyIncreasing(r) && Elems(r) == Span(lo, hi)
    requires 0 <= i < |r|
    ensures r[i] == lo + i
    decreases i
  {
    assert r[i] in Elems(r);
    if i == 0 {
      assert lo in Span(lo, hi);
      var k :| 0 <= k < |r| && r[k] == lo;
    } else {
      ConsecutiveAt(r, lo, hi, i - 1);
      assert lo + i in Span(lo, hi);
      var k :| 0 <= k < |r| && r[k] == lo + i;
    }
  }

  lemma Consecutive(r: seq<int>, lo: int, hi: int)
    requires StrictlyIncreasing(r) && Elems(r) == Span(lo, hi)
    ensures |r| == if hi < lo then 0 else hi - lo + 1
    ensures forall i :: 0 <= i < |r| ==> r[i] == lo + i
  {
    forall i | 0 <= i < |r|
      ensures r[i] == lo + i
    {
      ConsecutiveAt(r, lo, hi, i);
    }
    if hi < lo {
      SpanEmpty(lo, hi);
      ElemsEmpty(r);
    } else {
      assert InSpan(hi, lo, hi);
      assert hi in Elems(r);
      var k :| 0 <= k < |r| && r[k] == hi;
      assert r[|r| - 1] in Elems(r);
    }
  }

  /**
   * "Mon D - E" yields the consecutive days D, D+1, .. of that one month,
   * ending at E or at the month's last day, whichever comes first.
   */
  lemma SameMonthRangeDays(m: int, d: int, last: int, ys: int, ye: int, dates: seq<int>)
    requires StrictlyIncreasing(dates) && Elems(dates) == Denoted(SameMonthRange(m, d, last), ys, ye)
    requires ValidDate(YearOf(m, ys, ye), m, d)
    ensures |dates| == if RunTop(m, last, ys, ye) < d then 0 else RunTop(m, last, ys, ye) - d + 1
    ensures forall i :: 0 <= i < |dates| ==> dates[i] == DayNumber(YearOf(m, ys, ye), m, d + i)
    ensures |dates| > 0 ==> dates[|dates| - 1] == DayNumber(YearOf(m, ys, ye), m, RunTop(m, last, ys, ye))
  {
    var y := YearOf(m, ys, ye);
    var top := RunTop(m, last, ys, ye);
    assert MonthRun(m, d, last, ys, ye) == Some((DayNumber(y, m, d), DayNumber(y, m, top)));
    Consecutive(dates, DayNumber(y, m, d), DayNumber(y, m, top));
    assert DayNumber(y, m, top) - DayNumber(y, m, d) == top - d;
    forall i | 0 <= i < |dates|
      ensures dates[i] == DayNumber(YearOf(m, ys, ye), m, d + i)
    {
      assert DayNumber(y, m, d + i) == DayNumber(y, m, d) + i;
    }
  }

  /**
   * A single "Mon D" is the date in the academic year's second calendar year
   * when the month is before July, and in its first calendar year otherwise.
   */
  lemma SingleDayYear(m: int, d: int, ys: int, ye: int, dates: seq<int>)
    requires StrictlyIncreasing(dates) && Elems(dates) == Denoted(SingleDay(m, d), ys, ye)
    ensures var y := if m < 7 then ye else ys;
            dates == if ValidDate(y, m, d) then [DayNumber(y, m, d)] else []
  {
    var date := Resolve(m, d, ys, ye);
    if date.Some? {
      SpanSingle(date.value);
      Consecutive(dates, date.value, date.value);
    } else {
      ElemsEmpty(dates);
    }
  }
}
