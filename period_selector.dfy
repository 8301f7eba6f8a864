/**
 * The period selector: a small state machine over a display mode, a
 * selected (year, month) and a week anchor, and the date range each state
 * stands for.
 *
 * Months are 0-based here, as `Date.prototype.getMonth` returns them; the
 * dates of the calendar module carry 1-based months.
 */
module PeriodSelection {
  import opened Calendar
  import Text

  datatype PeriodMode = Month | Week | All

  /** The four pieces of state the selector keeps. */
  datatype PeriodState = PeriodState(mode: PeriodMode, year: int, month0: int, anchor: Date)

  /** A month between 0 and 11 and a real calendar date as anchor. */
  predicate WellFormed(s: PeriodState) {
    0 <= s.month0 <= 11 && ValidDate(s.anchor)
  }

  /** The anchor is always the Monday that starts a week. */
  predicate ValidState(s: PeriodState) {
    WellFormed(s) && Weekday(s.anchor) == Monday
  }

  // ----- Ranges -----

  datatype Range = Range(start: Date, end: Date)

  /** How far back the Monday of `d`'s week lies: a Sunday belongs to the week that began six days earlier. */
  function MondayOffset(d: Date): (diff: int)
    requires ValidDate(d)
    ensures -6 <= diff <= 0
    ensures (Weekday(d) + diff) % 7 == Monday
  {
    var day := Weekday(d);
    if day == 0 then -6 else 1 - day
  }

  /** The Monday-to-Sunday week that holds `d`. */
  function WeekRange(d: Date): (r: Range)
    requires ValidDate(d)
    ensures ValidDate(r.start) && ValidDate(r.end)
  {
    var start := AddDays(d, MondayOffset(d));
    Range(start, AddDays(start, 6))
  }

  /** The week starts on a Monday, ends on a Sunday six days later, and holds `d`. */
  lemma WeekRangeSpec(d: Date)
    requires ValidDate(d)
    ensures var r := WeekRange(d);
      Weekday(r.start) == Monday && Weekday(r.end) == Sunday
      && DayNumber(r.start) == DayNumber(d) + MondayOffset(d)
      && DayNumber(r.end) == DayNumber(r.start) + 6
      && NotAfter(r.start, d) && NotAfter(d, r.end)
  {
    var r := WeekRange(d);
    var diff := MondayOffset(d);
    WeekdayAddDays(d, diff);
    WeekdayAddDays(r.start, 6);
    AddDaysNumber(d, diff);
    AddDaysNumber(r.start, 6);
    NotAfterIffDayNumber(r.start, d);
    NotAfterIffDayNumber(d, r.end);
  }

  /** A Monday starts its own week. */
  lemma WeekRangeOfMonday(d: Date)
    requires ValidDate(d) && Weekday(d) == Monday
    ensures WeekRange(d).start == d
  {
  }

  /** Taking the week of a week's start gives the same week back. */
  lemma WeekRangeIdempotent(d: Date)
    requires ValidDate(d)
    ensures WeekRange(WeekRange(d).start) == WeekRange(d)
  {
    WeekRangeSpec(d);
    WeekRangeOfMonday(WeekRange(d).start);
  }

  /** Moving a date by a week moves its week by a week. */
  lemma WeekRangeShift(d: Date, n: int)
    requires ValidDate(d) && (n == 1 || n == -1)
    ensures WeekRange(AddDays(d, 7 * n)).start == AddDays(WeekRange(d).start, 7 * n)
  {
    var e := AddDays(d, 7 * n);
    var s0, s1 := WeekRange(d).start, WeekRange(e).start;
    var b := AddDays(s0, 7 * n);
    assert DayNumber(e) == DayNumber(d) + 7 * n by {
      AddDaysNumber(d, 7 * n);
    }
    assert MondayOffset(e) == MondayOffset(d) by {
      WeekdayWeekShift(d, n);
    }
    assert DayNumber(s1) == DayNumber(e) + MondayOffset(e) by {
      WeekRangeSpec(e);
    }
    assert DayNumber(s0) == DayNumber(d) + MondayOffset(d) by {
      WeekRangeSpec(d);
    }
    assert DayNumber(b) == DayNumber(s0) + 7 * n by {
      AddDaysNumber(s0, 7 * n);
    }
    DayNumberInjective(s1, b);
  }

  /** The week before ends the day before this week starts. */
  lemma WeeksTile(d: Date)
    requires ValidDate(d)
    ensures NextDay(WeekRange(AddDays(d, -7)).end) == WeekRange(d).start
  {
    var prev := WeekRange(AddDays(d, -7));
    WeekRangeShift(d, -1);
    WeekRangeSpec(AddDays(d, -7));
    NextDayNumber(prev.end);
    AddDaysNumber(WeekRange(d).start, -7);
    DayNumberInjective(NextDay(prev.end), WeekRange(d).start);
  }

  /** `new Date(year, month0 + 1, 0)`: day 0 of the following month, that is, the day before its first. */
  function MonthEnd(year: int, month0: int): (d: Date)
    requires 0 <= month0 <= 11
    ensures d == Date(year, month0 + 1, DaysInMonth(year, month0 + 1))
  {
    var next := if month0 == 11 then Date(year + 1, 1, 1) else Date(year, month0 + 2, 1);
    PrevDay(next)
  }

  /** The first to the last day of a month. */
  function MonthRange(year: int, month0: int): (r: Range)
    requires 0 <= month0 <= 11
    ensures ValidDate(r.start) && ValidDate(r.end)
    ensures r.start.day == 1 && NextDay(r.end).day == 1
    ensures r.start.year == r.end.year == year && r.start.month == r.end.month == month0 + 1
  {
    Range(Date(year, month0 + 1, 1), MonthEnd(year, month0))
  }

  /** February ends on the 29th in leap years and on the 28th otherwise. */
  lemma FebruaryEnd(year: int)
    ensures MonthRange(year, 1).end.day == if IsLeapYear(year) then 29 else 28
  {
  }

  lemma FebruaryExamples()
    ensures MonthRange(2024, 1).end == Date(2024, 2, 29)
    ensures MonthRange(2023, 1).end == Date(2023, 2, 28)
    ensures MonthRange(2023, 11).end == Date(2023, 12, 31)
  {
    assert IsLeapYear(2024) && !IsLeapYear(2023);
  }

  const AllRange := Range(Date(1900, 1, 1), Date(2100, 12, 31))
  const AllLabel := "Todos os períodos"

  /**
   * The caption of a range: the week caption is text built here, the month
   * caption is the locale's month name and year, which is not modelled.
   */
  datatype Label = Caption(text: string) | MonthName(year: int, month0: int)

  datatype PeriodRange = PeriodRange(range: Range, caption: Label)

  /** `DD/MM — DD/MM/YYYY` for a week. */
  function WeekLabel(start: Date, end: Date): (l: string)
    requires ValidDate(start) && ValidDate(end)
  {
    Text.Pad2(Text.NatToString(start.day)) + "/" + Text.Pad2(Text.NatToString(start.month))
    + " — " + Text.Pad2(Text.NatToString(end.day)) + "/" + Text.Pad2(Text.NatToString(end.month))
    + "/" + Text.IntToString(end.year)
  }

  /** The two-digit number at positions `i` and `i + 1` of `l`, or -1 when there is none. */
  function TwoDigitField(l: string, i: nat): int {
    if i + 2 <= |l| && Text.IsDigit(l[i]) && Text.IsDigit(l[i + 1]) then
      10 * Text.DigitValue(l[i]) + Text.DigitValue(l[i + 1])
    else -1
  }

  /** `padStart(2, '0')` of a day or month gives two digits that read back as it. */
  lemma PaddedField(n: nat)
    requires n < 100
    ensures var p := Text.Pad2(Text.NatToString(n));
      |p| == 2 && Text.IsDigit(p[0]) && Text.IsDigit(p[1])
      && 10 * Text.DigitValue(p[0]) + Text.DigitValue(p[1]) == n
  {
    var p := Text.Pad2(Text.NatToString(n));
    Text.Pad2TwoDigits(n);
    var h := p[..1];
    assert Text.ParseDigits(h) == Text.DigitValue(p[0]) by {
      assert h[..0] == [];
    }
    assert p[..|p| - 1] == h;
  }

  /** Where each piece of a week caption sits. */
  lemma CaptionLayout(sd: string, sm: string, ed: string, em: string, y: string)
    requires |sd| == |sm| == |ed| == |em| == 2
    ensures var l := sd + "/" + sm + " — " + ed + "/" + em + "/" + y;
      |l| == 14 + |y|
      && l[0] == sd[0] && l[1] == sd[1] && l[2] == '/' && l[3] == sm[0] && l[4] == sm[1]
      && l[5..8] == " — " && l[8] == ed[0] && l[9] == ed[1] && l[10] == '/'
      && l[11] == em[0] && l[12] == em[1] && l[13] == '/' && l[14..] == y
  {
    var p := sd + "/" + sm + " — ";
    var q := p + ed + "/" + em + "/";
    assert |p| == 8 && p[5..8] == " — ";
    assert |q| == 14 && q[..8] == p;
    var l := q + y;
    assert l == sd + "/" + sm + " — " + ed + "/" + em + "/" + y;
    assert l[..14] == q && l[14..] == y;
    assert l[5..8] == q[5..8] == p[5..8];
  }

  /** The week caption can be read back field by field. */
  lemma WeekLabelFields(start: Date, end: Date)
    requires ValidDate(start) && ValidDate(end)
    ensures var l := WeekLabel(start, end);
      |l| > 14
      && TwoDigitField(l, 0) == start.day && l[2] == '/'
      && TwoDigitField(l, 3) == start.month && l[5..8] == " — "
      && TwoDigitField(l, 8) == end.day && l[10] == '/'
      && TwoDigitField(l, 11) == end.month && l[13] == '/'
      && l[14..] == Text.IntToString(end.year)
  {
    PaddedField(start.day);
    PaddedField(start.month);
    PaddedField(end.day);
    PaddedField(end.month);
    CaptionLayout(Text.Pad2(Text.NatToString(start.day)), Text.Pad2(Text.NatToString(start.month)),
      Text.Pad2(Text.NatToString(end.day)), Text.Pad2(Text.NatToString(end.month)), Text.IntToString(end.year));
  }

  /** The range and caption the selector shows for a state. */
  function RangeOf(s: PeriodState): (r: PeriodRange)
    requires WellFormed(s)
    ensures s.mode == All ==> r.range == AllRange
    ensures s.mode == Month ==> r.range == MonthRange(s.year, s.month0)
  {
    match s.mode
    case All => PeriodRange(AllRange, Caption(AllLabel))
    case Month => PeriodRange(MonthRange(s.year, s.month0), MonthName(s.year, s.month0))
    case Week =>
      var w := WeekRange(s.anchor);
      PeriodRange(w, Caption(WeekLabel(w.start, w.end)))
  }

  /** In week mode, a Monday anchor is the first day shown. */
  lemma WeekModeStartsAtAnchor(s: PeriodState)
    requires ValidState(s) && s.mode == Week
    ensures RangeOf(s).range == Range(s.anchor, AddDays(s.anchor, 6))
  {
    WeekRangeOfMonday(s.anchor);
  }

  /** The 'all' window ignores the rest of the state. */
  lemma AllRangeIgnoresState(s: PeriodState, t: PeriodState)
    requires WellFormed(s) && WellFormed(t) && s.mode == All && t.mode == All
    ensures RangeOf(s) == RangeOf(t)
  {
  }

  // ----- Navigation -----

  /** The selected month as a single count of months. */
  function Ordinal(s: PeriodState): int {
    MonthOrdinal(s.year, s.month0 + 1)
  }

  /** One period back: a month earlier, a week earlier, or nothing in 'all' mode. */
  function Back(s: PeriodState): (r: PeriodState)
    requires WellFormed(s)
    ensures WellFormed(r) && r.mode == s.mode
    ensures s.mode == All ==> r == s
    ensures s.mode == Month ==> r.anchor == s.anchor && Ordinal(r) == Ordinal(s) - 1
    ensures s.mode == Week ==>
      r.year == s.year && r.month0 == s.month0 && DayNumber(r.anchor) == DayNumber(s.anchor) - 7
  {
    match s.mode
    case Month =>
      if s.month0 == 0 then s.(month0 := 11, year := s.year - 1)
      else s.(month0 := s.month0 - 1)
    case Week =>
      AddDaysNumber(s.anchor, -7);
      s.(anchor := AddDays(s.anchor, -7))
    case All => s
  }

  /** One period forward: a month later, a week later, or nothing in 'all' mode. */
  function Forward(s: PeriodState): (r: PeriodState)
    requires WellFormed(s)
    ensures WellFormed(r) && r.mode == s.mode
    ensures s.mode == All ==> r == s
    ensures s.mode == Month ==> r.anchor == s.anchor && Ordinal(r) == Ordinal(s) + 1
    ensures s.mode == Week ==>
      r.year == s.year && r.month0 == s.month0 && DayNumber(r.anchor) == DayNumber(s.anchor) + 7
  {
    match s.mode
    case Month =>
      if s.month0 == 11 then s.(month0 := 0, year := s.year + 1)
      else s.(month0 := s.month0 + 1)
    case Week =>
      AddDaysNumber(s.anchor, 7);
      s.(anchor := AddDays(s.anchor, 7))
    case All => s
  }

  /** Jumping to today: its year and month, and the Monday of its week. The mode is kept. */
  function Today(s: PeriodState, today: Date): (r: PeriodState)
    requires ValidDate(today)
    ensures ValidState(r) && r.mode == s.mode
    ensures r.year == today.year && r.month0 == today.month - 1
    ensures NotAfter(r.anchor, today) && DayNumber(today) - DayNumber(r.anchor) < 7
  {
    var w := WeekRange(today);
    WeekRangeSpec(today);
    NotAfterIffDayNumber(w.start, today);
    s.(year := today.year, month0 := today.month - 1, anchor := w.start)
  }

  /** The state the selector starts in: this month, in month mode. */
  function Initial(now: Date): (r: PeriodState)
    requires ValidDate(now)
    ensures ValidState(r) && r.mode == Month
    ensures RangeOf(r).range.start.year == now.year && RangeOf(r).range.start.month == now.month
  {
    Today(PeriodState(Month, 0, 0, now), now)
  }

  /** Two states with the same (year, month) ordinal name the same month. */
  lemma OrdinalInjective(s: PeriodState, t: PeriodState)
    requires WellFormed(s) && WellFormed(t) && Ordinal(s) == Ordinal(t)
    ensures s.year == t.year && s.month0 == t.month0
  {
  }

  /** Going back and then forward returns to the same state, and so does the reverse. */
  lemma BackForwardRoundTrip(s: PeriodState)
    requires WellFormed(s)
    ensures Forward(Back(s)) == s
    ensures Back(Forward(s)) == s
  {
    if s.mode == Month {
      OrdinalInjective(Forward(Back(s)), s);
      OrdinalInjective(Back(Forward(s)), s);
    } else if s.mode == Week {
      AddDaysAdd(s.anchor, -7, 7);
      AddDaysAdd(s.anchor, 7, -7);
      assert AddDays(s.anchor, 0) == s.anchor;
    }
  }

  /** Navigation keeps the anchor on a Monday. */
  lemma NavigationKeepsMonday(s: PeriodState)
    requires ValidState(s)
    ensures ValidState(Back(s)) && ValidState(Forward(s))
  {
    WeekdayWeekShift(s.anchor, -1);
    WeekdayWeekShift(s.anchor, 1);
  }

  /** The period before a state ends the day before the state's period begins. */
  lemma BackTiles(s: PeriodState)
    requires WellFormed(s) && s.mode != All
    ensures NextDay(RangeOf(Back(s)).range.end) == RangeOf(s).range.start
  {
    if s.mode == Week {
      WeeksTile(s.anchor);
    }
  }

  /** The period after a state begins the day after the state's period ends. */
  lemma ForwardTiles(s: PeriodState)
    requires WellFormed(s) && s.mode != All
    ensures NextDay(RangeOf(s).range.end) == RangeOf(Forward(s)).range.start
  {
    if s.mode == Week {
      WeeksTile(AddDays(s.anchor, 7));
      AddDaysAdd(s.anchor, 7, -7);
      assert AddDays(s.anchor, 0) == s.anchor;
    }
  }

  /** After jumping to today, the month or week shown holds today. */
  lemma TodayIsShown(s: PeriodState, today: Date)
    requires ValidDate(today) && s.mode != All
    ensures var r := RangeOf(Today(s, today)).range;
      NotAfter(r.start, today) && NotAfter(today, r.end)
  {
    WeekRangeSpec(today);
    WeekRangeIdempotent(today);
  }

  /**
   * The hook's state. `periodRange` is `RangeOf(State())`; the navigation
   * methods change the fields exactly as the state machine above says.
   */
  class PeriodSelector {
    var periodMode: PeriodMode
    var selectedYear: int
    var selectedMonth: int
    var weekAnchor: Date

    function State(): PeriodState
      reads this
    {
      PeriodState(periodMode, selectedYear, selectedMonth, weekAnchor)
    }

    predicate Valid()
      reads this
    {
      ValidState(State())
    }

    /** The selector opens on the current month, with the anchor on the Monday of the current week. */
    constructor (now: Date)
      requires ValidDate(now)
      ensures Valid() && State() == Initial(now)
    {
      periodMode := Month;
      selectedYear := now.year;
      selectedMonth := now.month - 1;
      weekAnchor := WeekRange(now).start;
      WeekRangeSpec(now);
    }

    method SetPeriodMode(mode: PeriodMode)
      requires Valid()
      modifies this
      ensures Valid() && State() == old(State()).(mode := mode)
    {
      periodMode := mode;
    }

    method GoBack()
      requires Valid()
      modifies this
      ensures Valid() && State() == Back(old(State()))
    {
      NavigationKeepsMonday(State());
      if periodMode == Month {
        if selectedMonth == 0 {
          selectedMonth := 11;
          selectedYear := selectedYear - 1;
        } else {
          selectedMonth := selectedMonth - 1;
        }
      } else if periodMode == Week {
        weekAnchor := AddDays(weekAnchor, -7);
      }
    }

    method GoForward()
      requires Valid()
      modifies this
      ensures Valid() && State() == Forward(old(State()))
    {
      NavigationKeepsMonday(State());
      if periodMode == Month {
        if selectedMonth == 11 {
          selectedMonth := 0;
          selectedYear := selectedYear + 1;
        } else {
          selectedMonth := selectedMonth + 1;
        }
      } else if periodMode == Week {
        weekAnchor := AddDays(weekAnchor, 7);
      }
    }

    method GoToday(today: Date)
      requires Valid() && ValidDate(today)
      modifies this
      ensures Valid() && State() == Today(old(State()), today)
    {
      WeekRangeSpec(today);
      selectedYear := today.year;
      selectedMonth := today.month - 1;
      weekAnchor := WeekRange(today).start;
    }
  }
}
