/** Counting working days in a window (internal/workdays/workdays.go). A time is a number of seconds, a
    day a whole number of them, day 0 the Thursday 1970-01-01. */
module Workdays {

  const DAY := 86400

  type Weekday = d: nat | d < 7

  /** Weekdays count from Sunday. */
  function WeekdayOf(day: int): Weekday {
    (day + 4) % 7
  }

  function DayOf(t: int): int {
    t / DAY
  }

  /** The day after the last one that starts before `end`. */
  function DaysEnd(end: int): int {
    if end % DAY == 0 then end / DAY else end / DAY + 1
  }

  predicate Worked(weekend: set<Weekday>, holidays: set<int>, day: int) {
    WeekdayOf(day) !in weekend && day !in holidays
  }

  /** The working days among the days from `a` up to, not including, `b`. */
  function WorkingDays(weekend: set<Weekday>, holidays: set<int>, a: int, b: int): set<int> {
    set d | a <= d < b && Worked(weekend, holidays, d)
  }

  /** The moment `t` of a window falls on day `d`. */
  predicate FallsOn(t: int, start: int, end: int, d: int) {
    start <= t < end && d * 86400 <= t < (d + 1) * 86400
  }

  /** The days looked at are those some moment of the window falls on. */
  lemma DaysMeetTheWindow(start: int, end: int, d: int)
    requires start < end
    ensures DayOf(start) <= d < DaysEnd(end) <==> exists t :: FallsOn(t, start, end, d)
  {
    if DayOf(start) <= d < DaysEnd(end) {
      var t := if start < d * DAY then d * DAY else start;
      assert FallsOn(t, start, end, d);
    }
  }

  /** By default two days a week are not worked: the first Saturday is 1970-01-03, day 2, the first Sunday
      day 3. */
  lemma DefaultWeekend(d: int)
    ensures Worked({6, 0}, {}, d) <==> d % 7 != 2 && d % 7 != 3
  {}

  class Set {
    var weekend: set<Weekday>
    var holidays: set<int>

    constructor ()
      ensures weekend == {6, 0} && holidays == {}
      ensures forall t :: IsWorkday(t) <==> DayOf(t) % 7 != 2 && DayOf(t) % 7 != 3
    {
      weekend, holidays := {6, 0}, {};
      new;
      forall t
        ensures IsWorkday(t) <==> DayOf(t) % 7 != 2 && DayOf(t) % 7 != 3
      {
        DefaultWeekend(DayOf(t));
      }
    }

    /** WithWeekend replaces the weekend. */
    method WithWeekend(days: seq<Weekday>)
      modifies this
      ensures weekend == (set d | d in days) && holidays == old(holidays)
    {
      weekend := {};
      for i := 0 to |days|
        invariant weekend == (set d | d in days[..i]) && holidays == old(holidays)
      {
        assert days[..i + 1] == days[..i] + [days[i]];
        weekend := weekend + {days[i]};
      }
      assert days[..|days|] == days;
    }

    /** WithHolidays adds the calendar dates of the given times. */
    method WithHolidays(dates: seq<int>)
      modifies this
      ensures holidays == old(holidays) + (set t | t in dates :: DayOf(t)) && weekend == old(weekend)
    {
      for i := 0 to |dates|
        invariant holidays == old(holidays) + (set t | t in dates[..i] :: DayOf(t)) && weekend == old(weekend)
      {
        assert dates[..i + 1] == dates[..i] + [dates[i]];
        holidays := holidays + {DayOf(dates[i])};
      }
      assert dates[..|dates|] == dates;
    }

    predicate IsWorkday(t: int)
      reads this
    {
      Worked(weekend, holidays, DayOf(t))
    }

    /** Count: the loop from midnight of the start's day to the exclusive end. */
    method Count(start: int, end: int) returns (n: nat)
      ensures n == |WorkingDays(weekend, holidays, DayOf(start), DaysEnd(end))|
    {
      var day := DayOf(start) * DAY;
      n := 0;
      ghost var d := DayOf(start);
      assert WorkingDays(weekend, holidays, d, d) == {};
      while day < end
        invariant day == d * DAY && d >= DayOf(start)
        invariant d == DayOf(start) || d <= DaysEnd(end)
        invariant n == |WorkingDays(weekend, holidays, DayOf(start), d)|
        decreases end - day
      {
        OneMoreDay(weekend, holidays, DayOf(start), d);
        if IsWorkday(day) { n := n + 1; }
        day := day + DAY;
        d := d + 1;
      }
      if d > DaysEnd(end) {
        assert WorkingDays(weekend, holidays, DayOf(start), DaysEnd(end)) == {};
      }
    }
  }

  lemma OneMoreDay(weekend: set<Weekday>, holidays: set<int>, a: int, b: int)
    requires a <= b
    ensures |WorkingDays(weekend, holidays, a, b + 1)|
            == |WorkingDays(weekend, holidays, a, b)| + if Worked(weekend, holidays, b) then 1 else 0
  {
    var before, after := WorkingDays(weekend, holidays, a, b), WorkingDays(weekend, holidays, a, b + 1);
    assert after == if Worked(weekend, holidays, b) then before + {b} else before;
  }

  /** The count of a window given by its ends, as Count computes it. */
  function Counted(weekend: set<Weekday>, holidays: set<int>, start: int, end: int): nat {
    |WorkingDays(weekend, holidays, DayOf(start), DaysEnd(end))|
  }

  lemma DaysAdd(weekend: set<Weekday>, holidays: set<int>, a: int, m: int, b: int)
    requires a <= m <= b
    ensures |WorkingDays(weekend, holidays, a, b)|
            == |WorkingDays(weekend, holidays, a, m)| + |WorkingDays(weekend, holidays, m, b)|
  {
    var low, high := WorkingDays(weekend, holidays, a, m), WorkingDays(weekend, holidays, m, b);
    assert WorkingDays(weekend, holidays, a, b) == low + high && low !! high;
  }

  /** Main result on splitting: windows that meet at midnight add up exactly; windows that meet during a
      day count that day twice exactly when it is a working day. */
  lemma AdjacentWindowsAdd(weekend: set<Weekday>, holidays: set<int>, a: int, m: int, b: int)
    requires a <= m <= b
    ensures Counted(weekend, holidays, a, m) + Counted(weekend, holidays, m, b)
            == Counted(weekend, holidays, a, b)
               + if m % DAY != 0 && Worked(weekend, holidays, DayOf(m)) then 1 else 0
  {
    var x, y, z := DayOf(a), DaysEnd(m), DaysEnd(b);
    assert x <= DayOf(m) <= y <= z;
    DaysAdd(weekend, holidays, x, y, z);
    if m % DAY != 0 {
      DaysAdd(weekend, holidays, x, DayOf(m), z);
      OneMoreDay(weekend, holidays, x, DayOf(m));
    }
  }

  /** The days of the window whose weekday is worked, holidays or not. */
  function WeekdayDays(weekend: set<Weekday>, a: int, b: int): set<int> {
    WorkingDays(weekend, {}, a, b)
  }

  lemma AnyWeek(weekend: set<Weekday>, a: int)
    ensures |WeekdayDays(weekend, a, a + 7)| == 7 - |weekend|
  {
    var all: set<Weekday> := {0, 1, 2, 3, 4, 5, 6};
    assert weekend <= all;
    assert |all - weekend| == 7 - |weekend|;
    WeekdaysOfAWeek(a, all - weekend, WeekdayDays(weekend, a, a + 7));
  }

  /** Within seven days in a row each weekday comes once. */
  lemma {:induction false} WeekdaysOfAWeek(a: int, kinds: set<Weekday>, days: set<int>)
    requires forall d :: d in days <==> a <= d < a + 7 && WeekdayOf(d) in kinds
    ensures |days| == |kinds|
    decreases kinds
  {
    if kinds == {} {
      assert forall d :: d !in days;
    } else {
      var k :| k in kinds;
      var d := a + (k - WeekdayOf(a)) % 7;
      assert WeekdayOf(d) == k;
      assert forall e :: a <= e < a + 7 && WeekdayOf(e) == k ==> e == d;
      WeekdaysOfAWeek(a, kinds - {k}, days - {d});
    }
  }

  lemma {:induction false} AnyWeeks(weekend: set<Weekday>, a: int, k: nat)
    ensures |WeekdayDays(weekend, a, a + 7 * k)| == k * (7 - |weekend|)
  {
    if k == 0 {
      assert WeekdayDays(weekend, a, a) == {};
    } else {
      AnyWeeks(weekend, a, k - 1);
      AnyWeek(weekend, a + 7 * (k - 1));
      DaysAdd(weekend, {}, a, a + 7 * (k - 1), a + 7 * k);
      assert k * (7 - |weekend|) == (k - 1) * (7 - |weekend|) + (7 - |weekend|);
    }
  }

  /** Main result on whole weeks: k whole weeks hold k(7 - |weekend|) working days, whatever day they
      start on, less the holidays that fall on days otherwise worked. */
  lemma WholeWeeksCount(weekend: set<Weekday>, holidays: set<int>, a: int, k: nat)
    ensures var spent := set h | h in holidays && h in WeekdayDays(weekend, a, a + 7 * k);
            Counted(weekend, holidays, a * DAY, (a + 7 * k) * DAY) == k * (7 - |weekend|) - |spent|
  {
    var days := WeekdayDays(weekend, a, a + 7 * k);
    var spent := set h | h in holidays && h in days;
    AnyWeeks(weekend, a, k);
    assert DayOf(a * DAY) == a && DaysEnd((a + 7 * k) * DAY) == a + 7 * k;
    assert WorkingDays(weekend, holidays, a, a + 7 * k) == days - spent && spent <= days;
  }
}
