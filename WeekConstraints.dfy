/**
 * `process_weekly_constraints`: compiles the academic calendar into the
 * constraints of one PHT week [ts, te) (day numbers): the general unavailable
 * slots (holiday, break and exam days, the pre-exam week, Sundays and the
 * nightly curfew) as UTC minute ranges sorted by start, the hectic-week flag,
 * and the venue-type blockage table, kept only on non-hectic weeks.
 */
module WeekConstraints {
  import opened Wrappers
  import opened Clock
  import opened DateParsing

  /** A general unavailable slot: UTC minutes [start, end) and why. */
  datatype Blocked = Blocked(start: int, end: int, reason: string)

  /** An entry of one of the blocking categories. */
  datatype Entry = Entry(event: Option<string>, date: DateText)

  /**
   * A configured venue-type blockage: PHT minutes of the day, None where the
   * key is missing, the time does not parse or the entry is not a record.
   */
  datatype RawRange = RawRange(start: Option<int>, end: Option<int>, day: Option<string>)

  /** A usable venue-type blockage: PHT minutes of the day and an optional day name. */
  datatype TimeRange = TimeRange(start: int, end: int, day: Option<string>)

  /** The parts of the calendar file the compiler reads. */
  datatype Calendar = Calendar(
    hecticPeriods: seq<DateText>,
    nationalHolidays: seq<Entry>,
    schoolBreaks: seq<Entry>,
    examPeriods: seq<Entry>,
    standardBlockages: map<string, Option<seq<RawRange>>>)  // None: the value is not a list

  /** The compiled week. */
  datatype Constraints = Constraints(
    general: seq<Blocked>,
    isHectic: bool,
    blockages: map<string, seq<TimeRange>>)

  /** A blocking entry with its reason settled. */
  datatype Item = Item(reason: string, date: DateText)

  const CurfewStart: int := 1320  // 22:00 PHT
  const CurfewEnd: int := 360     // 06:00 PHT, next day
  const PreExamDays: int := 7
  const SundayReason: string := "PHT Sunday Blockage"
  const CurfewReason: string := "PHT Night Curfew (10PM-6AM PHT)"

  function PreExamReason(examStart: int): string {
    "PHT Pre-Exam Week Blockage (Exams starting " + MonthDayLabel(examStart) + ")"
  }

  /** PHT midnight of day `d` to PHT midnight of the next day. */
  function FullDay(d: int, reason: string): Blocked {
    Blocked(LocalToUtc(d, 0), LocalToUtc(d + 1, 0), reason)
  }

  function SundayBlock(d: int): Blocked {
    FullDay(d, SundayReason)
  }

  /** 22:00 PHT of day `d` to 06:00 PHT of the next day. */
  function Curfew(d: int): Blocked {
    Blocked(LocalToUtc(d, CurfewStart), LocalToUtc(d + 1, CurfewEnd), CurfewReason)
  }

  predicate InWeek(d: int, ts: int, te: int) {
    ts <= d < te
  }

  lemma BlockShapes()
    ensures forall d, d', r, r' :: FullDay(d, r) == FullDay(d', r') ==> d == d' && r == r'
    ensures forall d, d' :: Curfew(d) == Curfew(d') ==> d == d'
    ensures forall d, d', r :: Curfew(d) != FullDay(d', r)
  {
  }

  lemma ReasonsDiffer(s: int)
    ensures PreExamReason(s) != SundayReason
  {
    assert PreExamReason(s)[4] == 'P' && SundayReason[4] == 'S';
  }

  /** The entries of one category, with the category's title as the default reason. */
  function Labelled(title: string, entries: seq<Entry>): seq<Item> {
    seq(|entries|, k requires 0 <= k < |entries| => Item(entries[k].event.GetOr(title), entries[k].date))
  }

  /** Holidays, then breaks, then exams, each in file order. */
  function BlockingItems(cal: Calendar): seq<Item> {
    Labelled("National Holidays", cal.nationalHolidays)
      + Labelled("School Holidays Breaks", cal.schoolBreaks)
      + Labelled("Examination Periods", cal.examPeriods)
  }

  // ---------------------------------------------------------------------
  // What the week's constraints should be
  // ---------------------------------------------------------------------

  ghost function WeekPart(dates: set<int>, ts: int, te: int): set<int> {
    set d | d in dates && InWeek(d, ts, te)
  }

  /** The week's dates that some holiday, break or exam entry names. */
  ghost function HolidayDates(items: seq<Item>, ys: int, ye: int, ts: int, te: int): set<int>
    decreases |items|
  {
    if items == [] then {}
    else
      HolidayDates(items[..|items| - 1], ys, ye, ts, te)
        + WeekPart(Denoted(items[|items| - 1].date, ys, ye), ts, te)
  }

  /** The full-day blocks those entries call for, each with its entry's reason. */
  ghost function HolidayBlocksOf(items: seq<Item>, ys: int, ye: int, ts: int, te: int): set<Blocked>
    decreases |items|
  {
    if items == [] then {}
    else
      var last := items[|items| - 1];
      HolidayBlocksOf(items[..|items| - 1], ys, ye, ts, te)
        + set d | d in WeekPart(Denoted(last.date, ys, ye), ts, te) :: FullDay(d, last.reason)
  }

  /**
   * The full-day blocks of day `d`, one per entry naming it, in entry
   * order: the order in which lines 143-155 append them.
   */
  ghost function NamingBlocks(items: seq<Item>, ys: int, ye: int, d: int): seq<Blocked>
    decreases |items|
  {
    if items == [] then []
    else
      var last := items[|items| - 1];
      NamingBlocks(items[..|items| - 1], ys, ye, d) + if d in Denoted(last.date, ys, ye) then [FullDay(d, last.reason)] else []
  }

  ghost predicate IsLeast(x: int, dates: set<int>) {
    x in dates && forall y :: y in dates ==> x <= y
  }

  ghost function LeastOf(dates: set<int>): set<int> {
    set x | x in dates && IsLeast(x, dates)
  }

  /** The first date of each exam period. */
  ghost function ExamStartSet(exams: seq<Entry>, ys: int, ye: int): set<int>
    decreases |exams|
  {
    if exams == [] then {}
    else ExamStartSet(exams[..|exams| - 1], ys, ye) + LeastOf(Denoted(exams[|exams| - 1].date, ys, ye))
  }

  /** Day `d` is in the week before the exam period starting on `examStart`. */
  predicate Covers(examStart: int, d: int) {
    examStart - PreExamDays <= d < examStart
  }

  /** `s` is the earliest exam start whose pre-exam week holds `d`. */
  ghost predicate FirstCover(starts: set<int>, s: int, d: int) {
    s in starts && Covers(s, d) && forall s' :: s' in starts && Covers(s', d) ==> s <= s'
  }

  /** The week's dates in some pre-exam week that no entry already blocks. */
  ghost function PreExamDates(starts: set<int>, holidays: set<int>, ts: int, te: int): set<int> {
    set d | ts <= d < te && d !in holidays && exists s :: s in starts && Covers(s, d)
  }

  /** One block per pre-exam date, labelled with the earliest exam period it precedes. */
  ghost function PreExamBlocksOf(starts: set<int>, holidays: set<int>, ts: int, te: int): set<Blocked> {
    set d, s | d in PreExamDates(starts, holidays, ts, te) && s in starts && FirstCover(starts, s, d)
      :: FullDay(d, PreExamReason(s))
  }

  /** Some date of the period lies in the week: its first date is before the week's end and its last on or after the start. */
  ghost predicate Hits(dates: set<int>, ts: int, te: int) {
    exists a, b :: a in dates && b in dates && ts <= b && a < te
  }

  // ---------------------------------------------------------------------
  // Characterisations of the recursive definitions
  // ---------------------------------------------------------------------

  lemma {:induction false} HolidayDatesMembers(items: seq<Item>, ys: int, ye: int, ts: int, te: int, d: int)
    ensures d in HolidayDates(items, ys, ye, ts, te)
            <==> InWeek(d, ts, te) && exists i :: 0 <= i < |items| && d in Denoted(items[i].date, ys, ye)
    decreases |items|
  {
    if items != [] {
      var init := items[..|items| - 1];
      HolidayDatesMembers(init, ys, ye, ts, te, d);
      assert forall i :: 0 <= i < |init| ==> init[i] == items[i];
    }
  }

  lemma {:induction false} HolidayBlocksMembers(items: seq<Item>, ys: int, ye: int, ts: int, te: int, g: Blocked)
    ensures g in HolidayBlocksOf(items, ys, ye, ts, te)
            <==> exists i, d :: 0 <= i < |items| && InWeek(d, ts, te) && d in Denoted(items[i].date, ys, ye)
                                && g == FullDay(d, items[i].reason)
    decreases |items|
  {
    if items != [] {
      var init := items[..|items| - 1];
      var last := items[|items| - 1];
      HolidayBlocksMembers(init, ys, ye, ts, te, g);
      assert forall i :: 0 <= i < |init| ==> init[i] == items[i];
      if g in HolidayBlocksOf(items, ys, ye, ts, te) && g !in HolidayBlocksOf(init, ys, ye, ts, te) {
        var d :| d in WeekPart(Denoted(last.date, ys, ye), ts, te) && g == FullDay(d, last.reason);
        assert InWeek(d, ts, te) && d in Denoted(items[|items| - 1].date, ys, ye);
      }
    }
  }

  lemma LeastOfParsed(dates: seq<int>, denoted: set<int>)
    requires StrictlyIncreasing(dates) && Elems(dates) == denoted
    ensures LeastOf(denoted) == if dates == [] then {} else {dates[0]}
  {
    if dates != [] {
      IncreasingBounds(dates);
      assert dates[0] in Elems(dates);
      assert IsLeast(dates[0], denoted);
    }
  }

  // ---------------------------------------------------------------------
  // The compiler
  // ---------------------------------------------------------------------

  /** Lines 134-140: is some hectic period's span of dates overlapping the week? */
  method HecticWeek(periods: seq<DateText>, ys: int, ye: int, ts: int, te: int) returns (hectic: bool)
    ensures hectic <==> exists k :: 0 <= k < |periods| && Hits(Denoted(periods[k], ys, ye), ts, te)
  {
    var i := 0;
    while i < |periods|
      invariant 0 <= i <= |periods|
      invariant forall k :: 0 <= k < i ==> !Hits(Denoted(periods[k], ys, ye), ts, te)
    {
      var dates := ParseDateString(periods[i], ys, ye);
      if dates != [] {
        IncreasingBounds(dates);
        var first, last := dates[0], dates[|dates| - 1];
        assert first in Elems(dates) && last in Elems(dates);
        if ts <= last && te > first {
          assert Hits(Denoted(periods[i], ys, ye), ts, te);
          return true;
        }
      } else {
        assert Denoted(periods[i], ys, ye) == {};
      }
      i := i + 1;
    }
    return false;
  }

  /** Lines 142-156: full-day blocks for the week's holiday, break and exam dates. */
  method HolidayBlocks(items: seq<Item>, ys: int, ye: int, ts: int, te: int)
    returns (blocks: seq<Blocked>, blocked: set<int>)
    ensures blocked == HolidayDates(items, ys, ye, ts, te)
    ensures forall g :: g in blocks <==> g in HolidayBlocksOf(items, ys, ye, ts, te)
    ensures forall d :: InWeek(d, ts, te) ==> WithStart(blocks, DayStart(d)) == NamingBlocks(items, ys, ye, d)
  {
    blocks, blocked := [], {};
    var i := 0;
    while i < |items|
      invariant 0 <= i <= |items|
      invariant blocked == HolidayDates(items[..i], ys, ye, ts, te)
      invariant forall g :: g in blocks <==> g in HolidayBlocksOf(items[..i], ys, ye, ts, te)
      invariant forall d :: InWeek(d, ts, te) ==> WithStart(blocks, DayStart(d)) == NamingBlocks(items[..i], ys, ye, d)
    {
      var added, dates := EntryBlocks(items[i], ys, ye, ts, te);
      WithStartConcat(blocks, added);
      assert items[..i + 1][..i] == items[..i];
      blocks := blocks + added;
      blocked := blocked + dates;
      i := i + 1;
    }
    assert items[..i] == items;
  }

  /** Lines 145-155 for one entry: a full-day block for each of its dates in the week, in date order. */
  method EntryBlocks(item: Item, ys: int, ye: int, ts: int, te: int) returns (added: seq<Blocked>, blocked: set<int>)
    ensures blocked == WeekPart(Denoted(item.date, ys, ye), ts, te)
    ensures forall g :: g in added <==> exists d :: d in blocked && g == FullDay(d, item.reason)
    ensures forall d :: InWeek(d, ts, te) ==>
              WithStart(added, DayStart(d)) == if d in Denoted(item.date, ys, ye) then [FullDay(d, item.reason)] else []
  {
    var dates := ParseDateString(item.date, ys, ye);
    added, blocked := [], {};
    var j := 0;
    while j < |dates|
      invariant 0 <= j <= |dates|
      invariant blocked == WeekPart(Elems(dates[..j]), ts, te)
      invariant forall g :: g in added <==> exists d :: d in blocked && g == FullDay(d, item.reason)
      invariant forall d :: InWeek(d, ts, te) ==>
                  WithStart(added, DayStart(d)) == if d in Elems(dates[..j]) then [FullDay(d, item.reason)] else []
    {
      assert dates[..j + 1] == dates[..j] + [dates[j]];
      ElemsAppend(dates[..j], dates[j]);
      assert dates[j] !in Elems(dates[..j]);
      if ts <= dates[j] < te {
        WithStartAppend(added, FullDay(dates[j], item.reason));
        added := added + [FullDay(dates[j], item.reason)];
        blocked := blocked + {dates[j]};
      }
      j := j + 1;
    }
    assert dates[..j] == dates;
  }

  /** Lines 158-161: the first date of every exam period that has one. */
  method ExamStarts(exams: seq<Entry>, ys: int, ye: int) returns (starts: seq<int>)
    ensures Elems(starts) == ExamStartSet(exams, ys, ye)
  {
    starts := [];
    var i := 0;
    while i < |exams|
      invariant 0 <= i <= |exams|
      invariant Elems(starts) == ExamStartSet(exams[..i], ys, ye)
    {
      var dates := ParseDateString(exams[i].date, ys, ye);
      LeastOfParsed(dates, Denoted(exams[i].date, ys, ye));
      if dates != [] {
        ElemsAppend(starts, dates[0]);
        starts := starts + [dates[0]];
      }
      assert exams[..i + 1][..i] == exams[..i];
      i := i + 1;
    }
    assert exams[..i] == exams;
  }

  /** The week dates before `examStart` that neither an entry nor an earlier exam start has blocked. */
  ghost function Added(examStart: int, holidays: set<int>, before: set<int>, ts: int, te: int): set<int> {
    set d | examStart - PreExamDays <= d < examStart && InWeek(d, ts, te) && d !in holidays && d !in before
  }

  /**
   * Adding the next (larger) exam start keeps the earlier pre-exam blocks and
   * adds one block for each week date it covers that is not yet blocked.
   */
  lemma PreExamStep(starts: seq<int>, i: int, holidays: set<int>, ts: int, te: int)
    requires StrictlyIncreasing(starts) && 0 <= i < |starts|
    ensures var before := PreExamDates(Elems(starts[..i]), holidays, ts, te);
            var added := Added(starts[i], holidays, before, ts, te);
            && PreExamDates(Elems(starts[..i + 1]), holidays, ts, te) == before + added
            && PreExamBlocksOf(Elems(starts[..i + 1]), holidays, ts, te)
               == PreExamBlocksOf(Elems(starts[..i]), holidays, ts, te)
                  + PreExamBlocksFor(added, starts[i])
  {
    NextStart(starts, i);
    PreExamDatesStep(Elems(starts[..i]), starts[i], holidays, ts, te);
    PreExamBlocksStep(Elems(starts[..i]), starts[i], holidays, ts, te);
  }

  /** The next start of an increasing list is above all earlier ones. */
  lemma NextStart(starts: seq<int>, i: int)
    requires StrictlyIncreasing(starts) && 0 <= i < |starts|
    ensures Elems(starts[..i + 1]) == Elems(starts[..i]) + {starts[i]}
    ensures forall x :: x in Elems(starts[..i]) ==> x < starts[i]
  {
    assert starts[..i + 1] == starts[..i] + [starts[i]];
    ElemsAppend(starts[..i], starts[i]);
    forall x | x in Elems(starts[..i])
      ensures x < starts[i]
    {
      var k :| 0 <= k < i && starts[k] == x;
    }
  }

  lemma PreExamDatesStep(older: set<int>, s: int, holidays: set<int>, ts: int, te: int)
    requires forall x :: x in older ==> x < s
    ensures PreExamDates(older + {s}, holidays, ts, te)
            == PreExamDates(older, holidays, ts, te) + Added(s, holidays, PreExamDates(older, holidays, ts, te), ts, te)
  {
  }

  lemma PreExamBlocksStep(older: set<int>, s: int, holidays: set<int>, ts: int, te: int)
    requires forall x :: x in older ==> x < s
    requires PreExamDates(older + {s}, holidays, ts, te)
             == PreExamDates(older, holidays, ts, te) + Added(s, holidays, PreExamDates(older, holidays, ts, te), ts, te)
    ensures PreExamBlocksOf(older + {s}, holidays, ts, te)
            == PreExamBlocksOf(older, holidays, ts, te)
               + PreExamBlocksFor(Added(s, holidays, PreExamDates(older, holidays, ts, te), ts, te), s)
  {
    var all := older + {s};
    var before := PreExamDates(older, holidays, ts, te);
    var added := Added(s, holidays, before, ts, te);
    var lhs := PreExamBlocksOf(all, holidays, ts, te);
    var rhs := PreExamBlocksOf(older, holidays, ts, te) + PreExamBlocksFor(added, s);
    forall g | g in lhs
      ensures g in rhs
    {
      var d, t :| d in PreExamDates(all, holidays, ts, te) && t in all && FirstCover(all, t, d) && g == FullDay(d, PreExamReason(t));
      if t == s {
        assert d in added;
      } else {
        assert FirstCover(older, t, d);
        assert d in before;
      }
    }
    forall g | g in rhs
      ensures g in lhs
    {
      if g in PreExamBlocksOf(older, holidays, ts, te) {
        var d, t :| d in before && t in older && FirstCover(older, t, d) && g == FullDay(d, PreExamReason(t));
        assert FirstCover(all, t, d);
      } else {
        var d :| d in added && g == FullDay(d, PreExamReason(s));
        assert d !in before && InWeek(d, ts, te) && d !in holidays;
        assert !exists s' :: s' in older && Covers(s', d);
        assert FirstCover(all, s, d);
      }
    }
    assert lhs == rhs;
  }

  /** The PHT date a block starts on. */
  function StartDate(g: Blocked): int {
    LocalDate(g.start)
  }

  lemma FullDayDate(d: int, reason: string)
    ensures StartDate(FullDay(d, reason)) == d
  {
    LocalRoundTrip(d, 0);
  }

  function BlockSet(s: seq<Blocked>): set<Blocked> {
    set g | g in s
  }

  lemma BlockSetAppend(s: seq<Blocked>, g: Blocked)
    ensures BlockSet(s + [g]) == BlockSet(s) + {g}
  {
    assert forall x :: x in s + [g] <==> x in s || x == g;
  }

  /** The pre-exam blocks of the given dates for the exam period starting on `examStart`. */
  ghost function PreExamBlocksFor(dates: set<int>, examStart: int): set<Blocked> {
    set d | d in dates :: FullDay(d, PreExamReason(examStart))
  }

  /** Those of `Added` that are before `d`. */
  ghost function AddedBelow(examStart: int, holidays: set<int>, before: set<int>, ts: int, te: int, d: int): set<int> {
    set x | examStart - PreExamDays <= x < d && InWeek(x, ts, te) && x !in holidays && x !in before
  }

  lemma AddedBelowStep(examStart: int, holidays: set<int>, before: set<int>, ts: int, te: int, d: int)
    requires examStart - PreExamDays <= d
    ensures AddedBelow(examStart, holidays, before, ts, te, d + 1)
            == AddedBelow(examStart, holidays, before, ts, te, d)
               + if InWeek(d, ts, te) && d !in holidays && d !in before then {d} else {}
    ensures PreExamBlocksFor(AddedBelow(examStart, holidays, before, ts, te, d) + {d}, examStart)
            == PreExamBlocksFor(AddedBelow(examStart, holidays, before, ts, te, d), examStart)
               + {FullDay(d, PreExamReason(examStart))}
  {
  }

  /**
   * Lines 165-176, one exam start: walks the seven days before it and blocks
   * each week date not yet blocked.
   */
  method BlockWeekBefore(examStart: int, holidays: set<int>, ghost before: set<int>, ts: int, te: int,
                         blocks0: seq<Blocked>, blocked0: set<int>)
    returns (blocks: seq<Blocked>, blocked: set<int>)
    requires blocked0 == holidays + before
    requires forall a :: 0 <= a < |blocks0| ==> StartDate(blocks0[a]) in blocked0 - holidays
    requires forall a, b :: 0 <= a < b < |blocks0| ==> blocks0[a] != blocks0[b]
    ensures blocked == blocked0 + Added(examStart, holidays, before, ts, te)
    ensures BlockSet(blocks) == BlockSet(blocks0) + PreExamBlocksFor(Added(examStart, holidays, before, ts, te), examStart)
    ensures forall a :: 0 <= a < |blocks| ==> StartDate(blocks[a]) in blocked - holidays
    ensures forall a, b :: 0 <= a < b < |blocks| ==> blocks[a] != blocks[b]
  {
    blocks, blocked := blocks0, blocked0;
    var d := examStart - PreExamDays;
    while d < examStart
      invariant examStart - PreExamDays <= d <= examStart
      invariant blocked == blocked0 + AddedBelow(examStart, holidays, before, ts, te, d)
      invariant BlockSet(blocks) == BlockSet(blocks0)
                                    + PreExamBlocksFor(AddedBelow(examStart, holidays, before, ts, te, d), examStart)
      invariant forall a :: 0 <= a < |blocks| ==> StartDate(blocks[a]) in blocked - holidays
      invariant forall a, b :: 0 <= a < b < |blocks| ==> blocks[a] != blocks[b]
    {
      AddedBelowStep(examStart, holidays, before, ts, te, d);
      if ts <= d < te && d !in blocked {
        var g := FullDay(d, PreExamReason(examStart));
        FullDayDate(d, PreExamReason(examStart));
        BlockSetAppend(blocks, g);
        blocks := blocks + [g];
        blocked := blocked + {d};
      }
      d := d + 1;
    }
    assert AddedBelow(examStart, holidays, before, ts, te, d) == Added(examStart, holidays, before, ts, te);
  }

  /**
   * Lines 163-176: blocks every week date in the seven days before each exam
   * start (in increasing order) that is not already blocked.
   */
  method PreExamBlocks(starts: seq<int>, holidays: set<int>, ts: int, te: int)
    returns (blocks: seq<Blocked>, blocked: set<int>)
    requires StrictlyIncreasing(starts)
    ensures blocked == holidays + PreExamDates(Elems(starts), holidays, ts, te)
    ensures BlockSet(blocks) == PreExamBlocksOf(Elems(starts), holidays, ts, te)
    ensures forall a, b :: 0 <= a < b < |blocks| ==> blocks[a] != blocks[b]
  {
    blocks, blocked := [], holidays;
    var i := 0;
    while i < |starts|
      invariant 0 <= i <= |starts|
      invariant blocked == holidays + PreExamDates(Elems(starts[..i]), holidays, ts, te)
      invariant BlockSet(blocks) == PreExamBlocksOf(Elems(starts[..i]), holidays, ts, te)
      invariant forall a :: 0 <= a < |blocks| ==> StartDate(blocks[a]) in blocked - holidays
      invariant forall a, b :: 0 <= a < b < |blocks| ==> blocks[a] != blocks[b]
    {
      PreExamStep(starts, i, holidays, ts, te);
      blocks, blocked := BlockWeekBefore(starts[i], holidays, PreExamDates(Elems(starts[..i]), holidays, ts, te), ts, te,
                                         blocks, blocked);
      i := i + 1;
    }
    assert starts[..i] == starts;
  }

  /** Lines 178-199: a Sunday block on each unblocked Sunday and a curfew every night. */
  method DayBlocks(blocked: set<int>, ts: int, te: int) returns (blocks: seq<Blocked>)
    ensures forall d :: InWeek(d, ts, te) ==> multiset(blocks)[Curfew(d)] == 1
    ensures forall d :: InWeek(d, ts, te) && Weekday(d) == Sunday && d !in blocked
                        ==> multiset(blocks)[SundayBlock(d)] == 1
    ensures forall g :: g in blocks ==>
              (exists d :: InWeek(d, ts, te) && g == Curfew(d))
              || (exists d :: InWeek(d, ts, te) && Weekday(d) == Sunday && d !in blocked && g == SundayBlock(d))
  {
    BlockShapes();
    blocks := [];
    var d := ts;
    while d < te
      invariant ts <= d || d == ts
      invariant forall x :: multiset(blocks)[Curfew(x)] == if ts <= x < d then 1 else 0
      invariant forall x :: multiset(blocks)[SundayBlock(x)]
                            == if ts <= x < d && Weekday(x) == Sunday && x !in blocked then 1 else 0
      invariant forall g :: g in blocks ==>
                  (exists x :: InWeek(x, ts, te) && x < d && g == Curfew(x))
                  || (exists x :: InWeek(x, ts, te) && x < d && Weekday(x) == Sunday && x !in blocked && g == SundayBlock(x))
    {
      if Weekday(d) == Sunday && d !in blocked {
        blocks := blocks + [SundayBlock(d)];
      }
      blocks := blocks + [Curfew(d)];
      d := d + 1;
    }
  }

  /** The usable ranges of one venue type, in file order. */
  function Usable(raw: seq<RawRange>): (r: seq<TimeRange>)
    ensures |r| <= |raw|
    ensures forall t :: t in r <==> exists x :: x in raw && x.start == Some(t.start) && x.end == Some(t.end) && x.day == t.day
    decreases |raw|
  {
    if raw == [] then []
    else
      var x := raw[|raw| - 1];
      assert raw == raw[..|raw| - 1] + [x];
      Usable(raw[..|raw| - 1]) + if x.start.Some? && x.end.Some? then [TimeRange(x.start.value, x.end.value, x.day)] else []
  }

  /** The venue-type blockage table: every key whose value is a list with a usable range. */
  function BlockageTable(config: map<string, Option<seq<RawRange>>>): (table: map<string, seq<TimeRange>>)
    ensures table.Keys <= config.Keys
    ensures forall k :: k in table ==> table[k] != [] && config[k].Some? && table[k] == Usable(config[k].value)
    ensures forall k :: k in config && config[k].Some? && Usable(config[k].value) != [] ==> k in table
  {
    map k | k in config && config[k].Some? && Usable(config[k].value) != [] :: Usable(config[k].value)
  }

  /** Lines 205-211: the usable ranges of one venue type. */
  method ParseRanges(raw: seq<RawRange>) returns (ranges: seq<TimeRange>)
    ensures ranges == Usable(raw)
  {
    ranges := [];
    var i := 0;
    while i < |raw|
      invariant 0 <= i <= |raw|
      invariant ranges == Usable(raw[..i])
    {
      var x := raw[i];
      assert raw[..i + 1][..i] == raw[..i];
      if x.start.Some? && x.end.Some? {
        ranges := ranges + [TimeRange(x.start.value, x.end.value, x.day)];
      }
      i := i + 1;
    }
    assert raw[..i] == raw;
  }

  /** Lines 202-212: builds the table one venue type at a time. */
  method BuildBlockageTable(config: map<string, Option<seq<RawRange>>>) returns (table: map<string, seq<TimeRange>>)
    ensures table == BlockageTable(config)
  {
    table := map[];
    var keys := config.Keys;
    ghost var done: set<string> := {};
    while keys != {}
      invariant keys + done == config.Keys && keys !! done
      invariant table == map k | k in done && config[k].Some? && Usable(config[k].value) != [] :: Usable(config[k].value)
      decreases keys
    {
      var k :| k in keys;
      var value := config[k];
      if value.Some? {
        var ranges := ParseRanges(value.value);
        if ranges != [] {
          table := table[k := ranges];
        }
      }
      keys := keys - {k};
      done := done + {k};
    }
  }

  predicate SortedByStart(s: seq<Blocked>) {
    forall i, j :: 0 <= i < j < |s| ==> s[i].start <= s[j].start
  }

  /** The blocks of `s` that start at instant `t`, in their order in `s`. */
  function WithStart(s: seq<Blocked>, t: int): (r: seq<Blocked>)
    ensures forall g :: g in r <==> g in s && g.start == t
  {
    if s == [] then []
    else (if s[0].start == t then [s[0]] else []) + WithStart(s[1..], t)
  }

  lemma {:induction false} WithStartConcat(a: seq<Blocked>, b: seq<Blocked>)
    ensures forall t :: WithStart(a + b, t) == WithStart(a, t) + WithStart(b, t)
  {
    if a == [] {
      assert a + b == b;
    } else {
      assert (a + b)[1..] == a[1..] + b;
      WithStartConcat(a[1..], b);
    }
  }

  /**
   * `g` goes after every block starting no later, so among the blocks with
   * one start it comes last and the others keep their order.
   */
  function InsertByStart(g: Blocked, s: seq<Blocked>): (r: seq<Blocked>)
    requires SortedByStart(s)
    ensures SortedByStart(r)
    ensures multiset(r) == multiset(s) + multiset{g}
    decreases |s|, 0
  {
    if s == [] then [g]
    else if g.start < s[0].start then [g] + s
    else
      var tail := InsertByStart(g, s[1..]);
      assert s == [s[0]] + s[1..];
      InsertLowerBound(g, s[1..], s[0].start);
      [s[0]] + tail
  }

  /** Among the blocks with one start, an inserted block comes last and the others keep their order. */
  lemma InsertStable(g: Blocked, s: seq<Blocked>)
    requires SortedByStart(s)
    ensures forall t :: WithStart(InsertByStart(g, s), t) == WithStart(s, t) + (if g.start == t then [g] else [])
  {
    forall t
      ensures WithStart(InsertByStart(g, s), t) == WithStart(s, t) + (if g.start == t then [g] else [])
    {
      InsertStableAt(g, s, t);
    }
  }

  lemma {:induction false} InsertStableAt(g: Blocked, s: seq<Blocked>, t: int)
    requires SortedByStart(s)
    ensures WithStart(InsertByStart(g, s), t) == WithStart(s, t) + (if g.start == t then [g] else [])
    decreases |s|
  {
    if s == [] || g.start < s[0].start {
      InsertFront(g, s, t);
    } else {
      InsertStableAt(g, s[1..], t);
      InsertBehind(g, s, t);
    }
  }

  /** A block inserted behind the first keeps that block in front of the blocks with its start. */
  lemma InsertBehind(g: Blocked, s: seq<Blocked>, t: int)
    requires SortedByStart(s) && s != [] && s[0].start <= g.start
    requires WithStart(InsertByStart(g, s[1..]), t) == WithStart(s[1..], t) + (if g.start == t then [g] else [])
    ensures WithStart(InsertByStart(g, s), t) == WithStart(s, t) + (if g.start == t then [g] else [])
  {
    var tail := InsertByStart(g, s[1..]);
    var head := if s[0].start == t then [s[0]] else [];
    var mark := if g.start == t then [g] else [];
    var r := InsertByStart(g, s);
    assert r == [s[0]] + tail;
    assert r[0] == s[0] && r[1..] == tail;
    assert WithStart(r, t) == head + WithStart(tail, t);
    assert WithStart(s, t) == head + WithStart(s[1..], t);
    Regroup(head, WithStart(s[1..], t), mark);
  }

  /** Concatenation regroups; stated apart so that the solver meets it without other facts in scope. */
  lemma Regroup(a: seq<Blocked>, b: seq<Blocked>, c: seq<Blocked>)
    ensures a + (b + c) == (a + b) + c
  {
  }

  /** A block starting before every other goes in front, and is the last of its start. */
  lemma InsertFront(g: Blocked, s: seq<Blocked>, t: int)
    requires SortedByStart(s) && (s == [] || g.start < s[0].start)
    ensures WithStart(InsertByStart(g, s), t) == WithStart(s, t) + (if g.start == t then [g] else [])
  {
    assert InsertByStart(g, s) == [g] + s;
    PrependStart(g, s, t);
    if g.start == t && s != [] {
      StartsLater(s, t);
    }
  }

  /** Putting `x` in front puts it in front of the blocks with its start. */
  lemma PrependStart(x: Blocked, s: seq<Blocked>, t: int)
    ensures WithStart([x] + s, t) == (if x.start == t then [x] else []) + WithStart(s, t)
  {
    assert ([x] + s)[0] == x && ([x] + s)[1..] == s;
  }

  /** No block of a list sorted by start starts before its first block. */
  lemma {:induction false} StartsLater(s: seq<Blocked>, t: int)
    requires SortedByStart(s) && s != [] && t < s[0].start
    ensures WithStart(s, t) == []
    decreases |s|
  {
    if |s| > 1 {
      StartsLater(s[1..], t);
    }
  }

  lemma WithStartAppend(a: seq<Blocked>, x: Blocked)
    ensures forall t :: WithStart(a + [x], t) == WithStart(a, t) + (if x.start == t then [x] else [])
  {
    WithStartConcat(a, [x]);
    forall t
      ensures WithStart([x], t) == if x.start == t then [x] else []
    {
      assert [x][1..] == [];
    }
  }

  /** Inserting into blocks that all start no earlier than `lo` keeps that bound. */
  lemma InsertLowerBound(g: Blocked, s: seq<Blocked>, lo: int)
    requires SortedByStart(s) && lo <= g.start
    requires forall k :: 0 <= k < |s| ==> lo <= s[k].start
    ensures forall k :: 0 <= k < |InsertByStart(g, s)| ==> lo <= InsertByStart(g, s)[k].start
    decreases |s|, 1
  {
    var r := InsertByStart(g, s);
    forall k | 0 <= k < |r|
      ensures lo <= r[k].start
    {
      assert r[k] in multiset(r);
      if r[k] != g {
        assert r[k] in multiset(s);
        var i :| 0 <= i < |s| && s[i] == r[k];
      }
    }
  }

  /** Python's stable `sorted(..., key=start)`: blocks with one start keep their order. */
  function SortByStart(s: seq<Blocked>): (r: seq<Blocked>)
    ensures SortedByStart(r)
    ensures multiset(r) == multiset(s)
    ensures forall t :: WithStart(r, t) == WithStart(s, t)
  {
    if s == [] then []
    else
      assert s == s[..|s| - 1] + [s[|s| - 1]];
      WithStartAppend(s[..|s| - 1], s[|s| - 1]);
      InsertStable(s[|s| - 1], SortByStart(s[..|s| - 1]));
      InsertByStart(s[|s| - 1], SortByStart(s[..|s| - 1]))
  }

  /** The week's dates some holiday, break or exam entry names. */
  ghost function Holidays(cal: Calendar, ys: int, ye: int, ts: int, te: int): set<int> {
    HolidayDates(BlockingItems(cal), ys, ye, ts, te)
  }

  /** The week's dates that get a pre-exam block. */
  ghost function PreExam(cal: Calendar, ys: int, ye: int, ts: int, te: int): set<int> {
    PreExamDates(ExamStartSet(cal.examPeriods, ys, ye), Holidays(cal, ys, ye, ts, te), ts, te)
  }

  /** Day `d` gets a Sunday block: a Sunday of the week that no earlier pass has blocked. */
  ghost predicate SundayDue(holidays: set<int>, preExam: set<int>, ts: int, te: int, d: int) {
    InWeek(d, ts, te) && Weekday(d) == Sunday && d !in holidays && d !in preExam
  }

  /** `g` is one of the blocks the entries and exam starts call for in the week. */
  ghost predicate Expected(items: seq<Item>, starts: set<int>, ys: int, ye: int, ts: int, te: int, g: Blocked) {
    var holidays := HolidayDates(items, ys, ye, ts, te);
    || g in HolidayBlocksOf(items, ys, ye, ts, te)
    || g in PreExamBlocksOf(starts, holidays, ts, te)
    || (exists d :: SundayDue(holidays, PreExamDates(starts, holidays, ts, te), ts, te, d) && g == SundayBlock(d))
    || (exists d :: InWeek(d, ts, te) && g == Curfew(d))
  }

  /** Lines 142-199 and 215: the week's general unavailable slots, sorted by start. */
  method GeneralSlots(items: seq<Item>, exams: seq<Entry>, ys: int, ye: int, ts: int, te: int)
    returns (general: seq<Blocked>)
    ensures SortedByStart(general)
    ensures forall g :: g in general ==> Expected(items, ExamStartSet(exams, ys, ye), ys, ye, ts, te, g)
    ensures forall g :: g in HolidayBlocksOf(items, ys, ye, ts, te) ==> g in general
    ensures var holidays := HolidayDates(items, ys, ye, ts, te);
            forall g :: g in PreExamBlocksOf(ExamStartSet(exams, ys, ye), holidays, ts, te) ==> multiset(general)[g] == 1
    ensures var holidays := HolidayDates(items, ys, ye, ts, te);
            forall d :: SundayDue(holidays, PreExamDates(ExamStartSet(exams, ys, ye), holidays, ts, te), ts, te, d)
                        ==> multiset(general)[SundayBlock(d)] == 1
    ensures forall d :: InWeek(d, ts, te) ==> multiset(general)[Curfew(d)] == 1
    ensures forall d :: d in HolidayDates(items, ys, ye, ts, te) ==>
              WithStart(general, DayStart(d)) == NamingBlocks(items, ys, ye, d)
  {
    var holidayBlocks, holidays := HolidayBlocks(items, ys, ye, ts, te);
    var starts := ExamStarts(exams, ys, ye);
    var uniqueStarts := SortedUnique(starts);
    ghost var startSet := ExamStartSet(exams, ys, ye);
    assert Elems(uniqueStarts) == startSet;
    var preExamBlocks, blocked := PreExamBlocks(uniqueStarts, holidays, ts, te);
    var dayBlocks := DayBlocks(blocked, ts, te);
    var all := holidayBlocks + preExamBlocks + dayBlocks;
    WeekFacts(items, startSet, holidays, blocked, ys, ye, ts, te, holidayBlocks, preExamBlocks, dayBlocks);
    general := SortByStart(all);
    SameMembers(general, all);
    EntryOrderKept(items, ys, ye, ts, te, startSet, holidays, blocked, holidayBlocks, preExamBlocks, dayBlocks);
  }

  /** Sorting the three lists put together keeps the blocks of each entry-named date in entry order. */
  lemma EntryOrderKept(items: seq<Item>, ys: int, ye: int, ts: int, te: int, starts: set<int>, holidays: set<int>,
                       blocked: set<int>, hol: seq<Blocked>, pre: seq<Blocked>, days: seq<Blocked>)
    requires holidays == HolidayDates(items, ys, ye, ts, te) && holidays <= blocked
    requires forall d :: InWeek(d, ts, te) ==> WithStart(hol, DayStart(d)) == NamingBlocks(items, ys, ye, d)
    requires BlockSet(pre) == PreExamBlocksOf(starts, holidays, ts, te)
    requires forall g :: g in days ==>
               (exists x :: InWeek(x, ts, te) && g == Curfew(x))
               || (exists x :: InWeek(x, ts, te) && Weekday(x) == Sunday && x !in blocked && g == SundayBlock(x))
    ensures forall d :: d in holidays ==> WithStart(SortByStart(hol + pre + days), DayStart(d)) == NamingBlocks(items, ys, ye, d)
  {
    WithStartConcat(hol + pre, days);
    WithStartConcat(hol, pre);
    forall d | d in holidays
      ensures WithStart(SortByStart(hol + pre + days), DayStart(d)) == NamingBlocks(items, ys, ye, d)
    {
      HolidayDatesMembers(items, ys, ye, ts, te, d);
      OnlyEntriesAtMidnight(starts, holidays, blocked, ts, te, pre, days, d);
    }
  }

  /**
   * At the midnight of a date some entry names, neither a pre-exam block
   * nor a Sunday block nor a curfew starts: those go on other dates or at
   * 22:00.
   */
  lemma OnlyEntriesAtMidnight(starts: set<int>, holidays: set<int>, blocked: set<int>, ts: int, te: int,
                              pre: seq<Blocked>, days: seq<Blocked>, d: int)
    requires d in holidays && holidays <= blocked
    requires BlockSet(pre) == PreExamBlocksOf(starts, holidays, ts, te)
    requires forall g :: g in days ==>
               (exists x :: InWeek(x, ts, te) && g == Curfew(x))
               || (exists x :: InWeek(x, ts, te) && Weekday(x) == Sunday && x !in blocked && g == SundayBlock(x))
    ensures WithStart(pre, DayStart(d)) == [] && WithStart(days, DayStart(d)) == []
  {
    forall g | g in pre
      ensures g.start != DayStart(d)
    {
      assert g in BlockSet(pre);
      var x, s :| x in PreExamDates(starts, holidays, ts, te) && s in starts && FirstCover(starts, s, x)
                  && g == FullDay(x, PreExamReason(s));
      MidnightsDiffer(x, d);
    }
    forall g | g in days
      ensures g.start != DayStart(d)
    {
      if x :| InWeek(x, ts, te) && g == Curfew(x) {
        CurfewNotMidnight(x, d);
      } else {
        var x :| InWeek(x, ts, te) && Weekday(x) == Sunday && x !in blocked && g == SundayBlock(x);
        MidnightsDiffer(x, d);
      }
    }
    NoneStartsAt(pre, DayStart(d));
    NoneStartsAt(days, DayStart(d));
  }

  lemma MidnightsDiffer(x: int, d: int)
    requires x != d
    ensures DayStart(x) != DayStart(d)
  {
  }

  lemma CurfewNotMidnight(x: int, d: int)
    ensures Curfew(x).start != DayStart(d)
  {
    if x < d {
      assert Curfew(x).start < DayStart(d);
    } else {
      assert Curfew(x).start > DayStart(d);
    }
  }

  lemma NoneStartsAt(s: seq<Blocked>, t: int)
    requires forall g :: g in s ==> g.start != t
    ensures WithStart(s, t) == []
  {
  }

  /** `process_weekly_constraints` for the PHT week [ts, te) of academic year ys-ye. */
  method CompileWeek(cal: Calendar, ys: int, ye: int, ts: int, te: int) returns (c: Constraints)
    ensures SortedByStart(c.general)
    ensures forall g :: g in c.general
                        ==> Expected(BlockingItems(cal), ExamStartSet(cal.examPeriods, ys, ye), ys, ye, ts, te, g)
    ensures forall g :: g in HolidayBlocksOf(BlockingItems(cal), ys, ye, ts, te) ==> g in c.general
    ensures forall g :: g in PreExamBlocksOf(ExamStartSet(cal.examPeriods, ys, ye), Holidays(cal, ys, ye, ts, te), ts, te)
                        ==> multiset(c.general)[g] == 1
    ensures forall d :: SundayDue(Holidays(cal, ys, ye, ts, te), PreExam(cal, ys, ye, ts, te), ts, te, d)
                        ==> multiset(c.general)[SundayBlock(d)] == 1
    ensures forall d :: InWeek(d, ts, te) ==> multiset(c.general)[Curfew(d)] == 1
    ensures forall d :: d in Holidays(cal, ys, ye, ts, te) ==>
              WithStart(c.general, DayStart(d)) == NamingBlocks(BlockingItems(cal), ys, ye, d)
    ensures c.isHectic <==> exists k :: 0 <= k < |cal.hecticPeriods| && Hits(Denoted(cal.hecticPeriods[k], ys, ye), ts, te)
    ensures c.blockages == if c.isHectic then map[] else BlockageTable(cal.standardBlockages)
  {
    var hectic := HecticWeek(cal.hecticPeriods, ys, ye, ts, te);
    var general := GeneralSlots(BlockingItems(cal), cal.examPeriods, ys, ye, ts, te);
    var table := map[];
    if !hectic {
      table := BuildBlockageTable(cal.standardBlockages);
    }
    c := Constraints(general, hectic, table);
  }

  /** The facts `CompileWeek` promises, for the three lists put together before sorting. */
  lemma WeekFacts(items: seq<Item>, starts: set<int>, holidays: set<int>, blocked: set<int>,
                  ys: int, ye: int, ts: int, te: int, hol: seq<Blocked>, pre: seq<Blocked>, days: seq<Blocked>)
    requires holidays == HolidayDates(items, ys, ye, ts, te)
    requires forall g :: g in hol <==> g in HolidayBlocksOf(items, ys, ye, ts, te)
    requires blocked == holidays + PreExamDates(starts, holidays, ts, te)
    requires BlockSet(pre) == PreExamBlocksOf(starts, holidays, ts, te)
    requires forall a, b :: 0 <= a < b < |pre| ==> pre[a] != pre[b]
    requires forall d :: InWeek(d, ts, te) ==> multiset(days)[Curfew(d)] == 1
    requires forall d :: InWeek(d, ts, te) && Weekday(d) == Sunday && d !in blocked
                         ==> multiset(days)[SundayBlock(d)] == 1
    requires forall g :: g in days ==>
               (exists d :: InWeek(d, ts, te) && g == Curfew(d))
               || (exists d :: InWeek(d, ts, te) && Weekday(d) == Sunday && d !in blocked && g == SundayBlock(d))
    ensures forall g :: g in hol + pre + days ==> Expected(items, starts, ys, ye, ts, te, g)
    ensures forall g :: g in HolidayBlocksOf(items, ys, ye, ts, te) ==> g in hol + pre + days
    ensures forall g :: g in PreExamBlocksOf(starts, holidays, ts, te) ==> multiset(hol + pre + days)[g] == 1
    ensures forall d :: SundayDue(holidays, PreExamDates(starts, holidays, ts, te), ts, te, d)
                        ==> multiset(hol + pre + days)[SundayBlock(d)] == 1
    ensures forall d :: InWeek(d, ts, te) ==> multiset(hol + pre + days)[Curfew(d)] == 1
  {
    GeneralProvenance(items, starts, ys, ye, ts, te, hol, pre, days, blocked);
    forall g | g in PreExamBlocksOf(starts, holidays, ts, te)
      ensures multiset(hol + pre + days)[g] == 1
    {
      PreExamCount(items, starts, holidays, ys, ye, ts, te, hol, pre, days, g);
    }
    forall d | SundayDue(holidays, PreExamDates(starts, holidays, ts, te), ts, te, d)
      ensures multiset(hol + pre + days)[SundayBlock(d)] == 1
    {
      SundayCount(items, starts, holidays, ys, ye, ts, te, hol, pre, days, d);
    }
    forall d | InWeek(d, ts, te)
      ensures multiset(hol + pre + days)[Curfew(d)] == 1
    {
      CurfewCount(items, starts, holidays, ys, ye, ts, te, hol, pre, days, d);
    }
  }

  /** Every block of the three lists put together is called for, and every holiday block is there. */
  lemma GeneralProvenance(items: seq<Item>, starts: set<int>, ys: int, ye: int, ts: int, te: int,
                          hol: seq<Blocked>, pre: seq<Blocked>, days: seq<Blocked>, blocked: set<int>)
    requires forall g :: g in hol <==> g in HolidayBlocksOf(items, ys, ye, ts, te)
    requires blocked == HolidayDates(items, ys, ye, ts, te) + PreExamDates(starts, HolidayDates(items, ys, ye, ts, te), ts, te)
    requires BlockSet(pre) == PreExamBlocksOf(starts, HolidayDates(items, ys, ye, ts, te), ts, te)
    requires forall g :: g in days ==>
               (exists d :: InWeek(d, ts, te) && g == Curfew(d))
               || (exists d :: InWeek(d, ts, te) && Weekday(d) == Sunday && d !in blocked && g == SundayBlock(d))
    ensures forall g :: g in hol + pre + days ==> Expected(items, starts, ys, ye, ts, te, g)
    ensures forall g :: g in HolidayBlocksOf(items, ys, ye, ts, te) ==> g in hol + pre + days
  {
    forall g | g in hol + pre + days
      ensures Expected(items, starts, ys, ye, ts, te, g)
    {
      if g in pre {
        assert g in BlockSet(pre);
      }
    }
  }

  /** A pre-exam block occurs once in the three lists put together. */
  lemma PreExamCount(items: seq<Item>, starts: set<int>, holidays: set<int>, ys: int, ye: int, ts: int, te: int,
                     hol: seq<Blocked>, pre: seq<Blocked>, days: seq<Blocked>, g: Blocked)
    requires holidays == HolidayDates(items, ys, ye, ts, te)
    requires forall g :: g in hol <==> g in HolidayBlocksOf(items, ys, ye, ts, te)
    requires BlockSet(pre) == PreExamBlocksOf(starts, holidays, ts, te)
    requires forall a, b :: 0 <= a < b < |pre| ==> pre[a] != pre[b]
    requires forall g :: g in days ==>
               (exists d :: InWeek(d, ts, te) && g == Curfew(d)) || (exists d :: g == SundayBlock(d))
    requires g in PreExamBlocksOf(starts, holidays, ts, te)
    ensures multiset(hol + pre + days)[g] == 1
  {
    var d, s :| d in PreExamDates(starts, holidays, ts, te) && s in starts && FirstCover(starts, s, d)
                && g == FullDay(d, PreExamReason(s));
    assert d !in holidays;
    assert g !in hol by {
      HolidayBlocksMembers(items, ys, ye, ts, te, g);
      HolidayDatesMembers(items, ys, ye, ts, te, d);
      BlockShapes();
    }
    assert g !in days by {
      BlockShapes();
      ReasonsDiffer(s);
    }
    assert g in BlockSet(pre);
    var k :| 0 <= k < |pre| && pre[k] == g;
    DistinctCount(pre, k);
    assert multiset(hol + pre + days)[g] == multiset(hol)[g] + multiset(pre)[g] + multiset(days)[g];
  }

  /** A due Sunday block occurs once in the three lists put together. */
  lemma SundayCount(items: seq<Item>, starts: set<int>, holidays: set<int>, ys: int, ye: int, ts: int, te: int,
                    hol: seq<Blocked>, pre: seq<Blocked>, days: seq<Blocked>, d: int)
    requires holidays == HolidayDates(items, ys, ye, ts, te)
    requires forall g :: g in hol <==> g in HolidayBlocksOf(items, ys, ye, ts, te)
    requires BlockSet(pre) == PreExamBlocksOf(starts, holidays, ts, te)
    requires multiset(days)[SundayBlock(d)] == 1
    requires InWeek(d, ts, te) && d !in holidays
    ensures multiset(hol + pre + days)[SundayBlock(d)] == 1
  {
    BlockShapes();
    if SundayBlock(d) in hol {
      HolidayBlocksMembers(items, ys, ye, ts, te, SundayBlock(d));
      HolidayDatesMembers(items, ys, ye, ts, te, d);
    }
    assert SundayBlock(d) !in BlockSet(pre);
  }

  /** A curfew block occurs once in the three lists put together. */
  lemma CurfewCount(items: seq<Item>, starts: set<int>, holidays: set<int>, ys: int, ye: int, ts: int, te: int,
                    hol: seq<Blocked>, pre: seq<Blocked>, days: seq<Blocked>, d: int)
    requires forall g :: g in hol <==> g in HolidayBlocksOf(items, ys, ye, ts, te)
    requires BlockSet(pre) == PreExamBlocksOf(starts, holidays, ts, te)
    requires multiset(days)[Curfew(d)] == 1
    ensures multiset(hol + pre + days)[Curfew(d)] == 1
  {
    BlockShapes();
    if Curfew(d) in hol {
      HolidayBlocksMembers(items, ys, ye, ts, te, Curfew(d));
    }
    assert Curfew(d) !in BlockSet(pre);
  }

  lemma SameMembers(a: seq<Blocked>, b: seq<Blocked>)
    requires multiset(a) == multiset(b)
    ensures forall g :: g in a <==> g in b
  {
    forall g
      ensures g in a <==> g in b
    {
      assert g in a <==> g in multiset(a);
      assert g in b <==> g in multiset(b);
    }
  }

  /** An entry of a list without repetition occurs once. */
  lemma {:induction false} DistinctCount(s: seq<Blocked>, k: int)
    requires forall a, b :: 0 <= a < b < |s| ==> s[a] != s[b]
    requires 0 <= k < |s|
    ensures multiset(s)[s[k]] == 1
  {
    if k < |s| - 1 {
      assert s == s[..|s| - 1] + [s[|s| - 1]];
      DistinctCount(s[..|s| - 1], k);
    } else {
      assert s == s[..k] + [s[k]];
      assert s[k] !in s[..k];
    }
  }
}
