/** The clock and the weekdays it shows: what a walk can read of them while it lasts, and in which order polls
    read them. A walk asks for the time at every step, so midnight may fall between two of its guards; how many
    midnights it can last over is a span, and only a process that sleeps in the middle of a walk makes it long.
    The lemmas pick times for weekdays that a walk is to meet (cmd/run.go, cmd/daemon.go). */
module Clocks {
  import opened Workflows
  import opened Protocol
  import opened Refinement
  import Guards

  /** A day in nanoseconds; times and durations count nanoseconds. */
  const DAY: int := 86_400_000_000_000

  function DateAt(t: int): int {
    t / DAY
  }

  /** How many midnights one walk may last over. */
  datatype Span = AtMost(midnights: nat) | Unbounded

  /** Walking from day `first` to day `last`, step `i` is met on day `dates(i)`. */
  ghost predicate Dated(w: Workflow, day: nat -> Guards.Weekday, dates: nat -> int, first: int, last: int) {
    && (forall i: nat :: first <= dates(i) <= last && day(i) == dates(i) % 7)
    && (forall i: nat :: i < |w.steps| && !Waits(w.steps[i].verb) && Next(w, i, "") >= 0 ==>
          dates(i) <= dates(Next(w, i, "")))
  }

  /** A walk that lasts over no more midnights can meet its steps on these weekdays. */
  ghost predicate Spans(w: Workflow, span: Span, day: nat -> Guards.Weekday) {
    span.AtMost? ==> exists dates, first, last :: Dated(w, day, dates, first, last) && last - first <= span.midnights
  }

  /** The weekdays are those a clock shows that runs from `now` to `later`. */
  ghost predicate OnTime(w: Workflow, span: Span, day: nat -> Guards.Weekday, now: int, later: int) {
    && now <= later && (span.AtMost? ==> DateAt(later) - DateAt(now) <= span.midnights)
    && exists dates :: Dated(w, day, dates, DateAt(now), DateAt(later))
  }

  /** The polls read a clock that starts at `t` or later and never runs back, and its weekdays. */
  ghost predicate Clocked(w: Workflow, span: Span, t: int, xs: seq<Input>)
    decreases |xs|
  {
    xs == []
    || (if xs[0].Begin? then
          var env := xs[0].env;
          t <= env.now && OnTime(w, span, env.day, env.now, env.later) && Clocked(w, span, env.later, xs[1..])
        else Clocked(w, span, t, xs[1..]))
  }

  /** The command that creates the hold and all polls after it read one clock. */
  ghost predicate Real(w: Workflow, span: Span, env: Env, xs: seq<Input>) {
    OnTime(w, span, env.day, env.now, env.later) && Clocked(w, span, env.later, xs)
  }

  /** No walk lasts longer than the span, whatever the clock did in between. */
  ghost predicate Spanned(w: Workflow, span: Span, xs: seq<Input>) {
    forall k :: 0 <= k < |xs| && xs[k].Begin? ==> Spans(w, span, xs[k].env.day)
  }

  /** The last time the clock was read. */
  function LastRead(t: int, xs: seq<Input>): int
    decreases |xs|
  {
    if xs == [] then t
    else LastRead(if xs[0].Begin? then xs[0].env.later else t, xs[1..])
  }

  lemma OnTimeSpans(w: Workflow, span: Span, day: nat -> Guards.Weekday, now: int, later: int)
    requires OnTime(w, span, day, now, later)
    ensures Spans(w, span, day)
  {
    var dates :| Dated(w, day, dates, DateAt(now), DateAt(later));
  }

  lemma {:induction false} ClockedSpans(w: Workflow, span: Span, t: int, xs: seq<Input>)
    requires Clocked(w, span, t, xs)
    ensures Spanned(w, span, xs)
    decreases |xs|
  {
    if xs != [] {
      var rest := xs[1..];
      if xs[0].Begin? { OnTimeSpans(w, span, xs[0].env.day, xs[0].env.now, xs[0].env.later); }
      ClockedSpans(w, span, if xs[0].Begin? then xs[0].env.later else t, rest);
      forall k | 0 <= k < |xs| && xs[k].Begin?
        ensures Spans(w, span, xs[k].env.day)
      {
        if k > 0 { assert rest[k - 1] == xs[k]; }
      }
    }
  }

  lemma {:induction false} ClockedJoin(w: Workflow, span: Span, t: int, xs: seq<Input>, ys: seq<Input>)
    requires Clocked(w, span, t, xs) && Clocked(w, span, LastRead(t, xs), ys)
    ensures Clocked(w, span, t, xs + ys) && LastRead(t, xs + ys) == LastRead(LastRead(t, xs), ys)
    decreases |xs|
  {
    if xs == [] {
      assert xs + ys == ys;
    } else {
      assert (xs + ys)[1..] == xs[1..] + ys;
      ClockedJoin(w, span, if xs[0].Begin? then xs[0].env.later else t, xs[1..], ys);
    }
  }

  /** A real run goes on with whatever reads its clock from there. */
  lemma RealGoesOn(w: Workflow, span: Span, s: Run, env: Env, xs: seq<Input>, ys: seq<Input>)
    requires Real(w, span, env, xs) && Clocked(w, span, LastRead(env.later, xs), ys)
    ensures Real(w, span, env, xs + ys) && Execute(w, s, xs + ys) == Execute(w, Execute(w, s, xs), ys)
  {
    hide OnTime, Execute;
    ClockedJoin(w, span, env.later, xs, ys);
    ExecuteJoin(w, s, xs, ys);
  }

  lemma {:induction false} ActsTakeNoTime(w: Workflow, span: Span, t: int, xs: seq<Input>)
    requires forall k :: 0 <= k < |xs| ==> !xs[k].Begin?
    ensures Clocked(w, span, t, xs) && LastRead(t, xs) == t
    decreases |xs|
  {
    if xs != [] { ActsTakeNoTime(w, span, t, xs[1..]); }
  }

  // ---------------------------------------------------------------------------------------
  // Choosing a time
  // ---------------------------------------------------------------------------------------

  /** The last day up to `d` with the given weekday. */
  function DayUpTo(d: int, day: Guards.Weekday): (r: int)
    ensures r % 7 == day && d - 7 < r <= d
  {
    d - (d - day) % 7
  }

  /** Days on which a walk meets these weekdays: each step as late as the next one allows. */
  ghost function DateOf(w: Workflow, day: nat -> Guards.Weekday, i: nat): (d: int)
    requires Sound(w)
    ensures d % 7 == day(i)
    decreases Past(w, i)
  {
    if i >= |w.steps| || Waits(w.steps[i].verb) || Next(w, i, "") < 0 then day(i)
    else
      var j := Next(w, i, "");
      PastShrinks(w, i);
      DayUpTo(DateOf(w, day, j), day(i))
  }

  lemma {:induction false} DatesLieBetween(w: Workflow, day: nat -> Guards.Weekday, n: nat)
    returns (first: int, last: int)
    requires Sound(w)
    ensures first <= 0 && 6 <= last && forall i: nat :: i < n ==> first <= DateOf(w, day, i) <= last
  {
    if n == 0 {
      first, last := 0, 6;
    } else {
      first, last := DatesLieBetween(w, day, n - 1);
      var d := DateOf(w, day, n - 1);
      first, last := if d < first then d else first, if d > last then d else last;
    }
  }

  /** Any weekdays can be met, by a walk that lasts long enough. */
  lemma AnyDaysAreDated(w: Workflow, day: nat -> Guards.Weekday) returns (dates: nat -> int, first: int, last: int)
    requires Sound(w)
    ensures Dated(w, day, dates, first, last)
  {
    first, last := DatesLieBetween(w, day, |w.steps|);
    dates := (i: nat) => DateOf(w, day, i);
  }

  /** Whole weeks earlier the weekdays are the same. */
  lemma WeeksEarlier(w: Workflow, day: nat -> Guards.Weekday, dates: nat -> int, first: int, last: int, k: int)
    returns (earlier: nat -> int)
    requires Dated(w, day, dates, first, last)
    ensures Dated(w, day, earlier, first - 7 * k, last - 7 * k)
  {
    earlier := (i: nat) => dates(i) - 7 * k;
    forall i: nat
      ensures earlier(i) % 7 == dates(i) % 7
    {
      SameWeekday(dates(i), k);
    }
  }

  lemma SameWeekday(d: int, k: int)
    ensures (d - 7 * k) % 7 == d % 7
  {}

  /** A walk can meet its weekdays by any given time. */
  lemma PickTime(w: Workflow, span: Span, day: nat -> Guards.Weekday, due: int) returns (now: int, later: int)
    requires Sound(w) && Spans(w, span, day)
    ensures OnTime(w, span, day, now, later) && later <= due
  {
    var dates: nat -> int, first: int, last: int;
    if span.AtMost? {
      dates, first, last :| Dated(w, day, dates, first, last) && last - first <= span.midnights;
    } else {
      dates, first, last := AnyDaysAreDated(w, day);
    }
    assert first <= dates(0) <= last;
    var k := if last > DateAt(due) then last - DateAt(due) else 0;
    dates := WeeksEarlier(w, day, dates, first, last, k);
    now, later := DAY * (first - 7 * k), DAY * (last - 7 * k);
    assert DateAt(now) == first - 7 * k && DateAt(later) == last - 7 * k;
  }

  /** A walk within one day meets one weekday. */
  lemma OneDayIsOnTime(w: Workflow, span: Span, t: int)
    ensures OnTime(w, span, _ => DateAt(t) % 7, t, t)
  {
    assert Dated(w, _ => DateAt(t) % 7, _ => DateAt(t), DateAt(t), DateAt(t));
  }
}
