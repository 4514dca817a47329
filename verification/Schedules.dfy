/** The recurring schedules. A poll runs every schedule whose next run has come, in the order of the file,
    moves each of them one interval past the time of the poll whether its run failed or not, and saves the
    list only then, so a process that dies in between leaves the file as it was. Over many polls this bounds
    how often one schedule fires, from above and from below (cmd/schedule.go). */
module Schedules {
  import opened Base

  /** `every` is the parsed interval, 0 when it is unset or unreadable; `nextRun` is None for the zero
      time of a hand-edited file. */
  datatype Schedule = Schedule(workflow: string, provider: string, every: int, nextRun: Option<int>, phrase: string)

  predicate Due(s: Schedule, now: int) {
    s.nextRun.None? || s.nextRun.value <= now
  }

  /** The schedule after a poll at `now`. */
  function Polled(s: Schedule, now: int): Schedule {
    if Due(s, now) && s.every > 0 then s.(nextRun := Some(now + s.every)) else s
  }

  /** What a poll is to one schedule: handled and saved, handled but lost because the process died before
      the save, or missed because it died earlier. */
  datatype Visit = Saved(now: int) | Lost(now: int) | Missed(now: int)

  /** A poll of the file; `dies` tells how many schedules were handled before the process died, if it did. */
  datatype FilePoll = FilePoll(now: int, dies: Option<nat>)

  function VisitOf(p: FilePoll, i: nat): Visit {
    match p.dies
    case None => Saved(p.now)
    case Some(k) => if i < k then Lost(p.now) else Missed(p.now)
  }

  function VisitsOf(polls: seq<FilePoll>, i: nat): seq<Visit> {
    seq(|polls|, j requires 0 <= j < |polls| => VisitOf(polls[j], i))
  }

  /** The schedule file, with the polls it has seen and, for each place of the list, the times its
      schedule fired. */
  class ScheduleFile {
    var items: seq<Schedule>
    ghost const start: seq<Schedule>
    ghost var polls: seq<FilePoll>
    ghost var fired: seq<seq<int>>

    ghost predicate Valid()
      reads this
    {
      && |items| == |start| == |fired|
      && forall i :: 0 <= i < |items| ==>
           items[i] == AfterPolls(start[i], VisitsOf(polls, i)) && fired[i] == Fires(start[i], VisitsOf(polls, i))
    }

    constructor (items: seq<Schedule>)
      ensures Valid() && this.items == start == items && polls == []
    {
      this.items, start, polls := items, items, [];
      fired := seq(|items|, i => []);
    }

    /** fireSchedules: runs every due schedule and moves it on, whether or not its run fails; `handled` tells
        how many the loop gets to before the process dies. */
    method FireSchedules(now: int, fails: nat -> bool, handled: nat)
      returns (out: seq<Schedule>, ghost ran: seq<bool>, failed: seq<nat>)
      requires handled <= |items|
      ensures |out| == |ran| == handled
      ensures forall i :: 0 <= i < handled ==> out[i] == Polled(items[i], now) && ran[i] == Due(items[i], now)
      ensures forall i: nat :: i in failed <==> i < handled && Due(items[i], now) && fails(i)
    {
      out, ran, failed := [], [], [];
      for k := 0 to handled
        invariant |out| == |ran| == k
        invariant forall i :: 0 <= i < k ==> out[i] == Polled(items[i], now) && ran[i] == Due(items[i], now)
        invariant forall i: nat :: i in failed <==> i < k && Due(items[i], now) && fails(i)
      {
        var s := items[k];
        ran := ran + [false];
        if s.nextRun.None? || !(s.nextRun.value > now) {
          ran := ran[k := true];
          if fails(k) { failed := failed + [k]; }
          if s.every > 0 { s := s.(nextRun := Some(now + s.every)); }
        }
        out := out + [s];
      }
    }

    /** pollSchedules: one poll. The list keeps its length and order; it is saved only after all due
        schedules ran, so a process that dies before leaves it as it was, though some have run. */
    method PollSchedules(now: int, fails: nat -> bool, dies: Option<nat>)
      requires Valid()
      modifies this
      ensures Valid() && polls == old(polls) + [FilePoll(now, dies)]
      ensures |items| == |old(items)|
      ensures forall i :: 0 <= i < |items| ==>
                items[i] == if dies.None? then Polled(old(items)[i], now) else old(items)[i]
      ensures forall i :: 0 <= i < |items| ==>
                fired[i] == if Due(old(items)[i], now) && (dies.None? || i < dies.value)
                            then old(fired)[i] + [now] else old(fired)[i]
    {
      VisitsGrow(polls, FilePoll(now, dies));
      hide VisitsOf;
      if |items| == 0 {
        polls := polls + [FilePoll(now, dies)];
        return;
      }
      var handled := if dies.Some? && dies.value < |items| then dies.value else |items|;
      var updated: seq<Schedule>, failed: seq<nat>;
      ghost var ran: seq<bool>;
      updated, ran, failed := FireSchedules(now, fails, handled);
      ghost var before := fired;
      fired := seq(|before|, i requires 0 <= i < |before| =>
        if i < |ran| && ran[i] then before[i] + [now] else before[i]);
      if dies.None? { items := updated; }
      polls := polls + [FilePoll(now, dies)];
    }
  }

  lemma VisitsGrow(polls: seq<FilePoll>, p: FilePoll)
    ensures forall i: nat :: VisitsOf(polls + [p], i) == VisitsOf(polls, i) + [VisitOf(p, i)]
    ensures forall i: nat :: var v := VisitsOf(polls, i) + [VisitOf(p, i)]; v[..|v| - 1] == VisitsOf(polls, i)
  {
    forall i: nat
      ensures VisitsOf(polls + [p], i) == VisitsOf(polls, i) + [VisitOf(p, i)]
    {
      assert |VisitsOf(polls + [p], i)| == |polls| + 1;
    }
  }

  // ---------------------------------------------------------------------------------------
  // One schedule over a history of polls
  // ---------------------------------------------------------------------------------------

  function AfterPolls(s: Schedule, visits: seq<Visit>): Schedule {
    if visits == [] then s
    else
      var before, v := AfterPolls(s, visits[..|visits| - 1]), visits[|visits| - 1];
      if v.Saved? then Polled(before, v.now) else before
  }

  /** The times it fired. */
  function Fires(s: Schedule, visits: seq<Visit>): seq<int> {
    if visits == [] then []
    else
      var front, v := visits[..|visits| - 1], visits[|visits| - 1];
      if !v.Missed? && Due(AfterPolls(s, front), v.now) then Fires(s, front) + [v.now] else Fires(s, front)
  }

  /** The visits of polls that were all saved. */
  function AllSaved(polls: seq<int>): seq<Visit> {
    seq(|polls|, i requires 0 <= i < |polls| => Saved(polls[i]))
  }

  lemma AllSavedFront(polls: seq<int>)
    requires polls != []
    ensures var n := |polls| - 1;
            AllSaved(polls)[..n] == AllSaved(polls[..n]) && AllSaved(polls)[n] == Saved(polls[n])
  {}

  /** Poll times never run back and are at most `g` apart. */
  ghost predicate Steady(polls: seq<int>, g: int) {
    forall i :: 0 < i < |polls| ==> polls[i - 1] <= polls[i] <= polls[i - 1] + g
  }

  /** Consecutive fires are at least `e` and less than `e + g` apart. */
  ghost predicate Spaced(fires: seq<int>, e: int, g: int) {
    forall i :: 0 < i < |fires| ==> fires[i - 1] + e <= fires[i] < fires[i - 1] + e + g
  }

  lemma SpacedGrows(fires: seq<int>, t: int, e: int, g: int)
    requires Spaced(fires, e, g)
    requires fires != [] ==> fires[|fires| - 1] + e <= t < fires[|fires| - 1] + e + g
    ensures Spaced(fires + [t], e, g)
  {}

  /** After its last fire a schedule waits one interval, and the last poll came before that. */
  predicate WaitsOut(s: Schedule, fires: seq<int>, now: Schedule, last: int) {
    if fires == [] then now == s
    else
      && now == s.(nextRun := Some(fires[|fires| - 1] + s.every))
      && last < fires[|fires| - 1] + s.every
  }

  lemma WaitsOn(s: Schedule, fires: seq<int>, b: Schedule, last: int, now: int, g: int)
    requires s.every > 0 && Spaced(fires, s.every, g) && WaitsOut(s, fires, b, last) && last <= now
    requires fires != [] ==> now <= last + g
    ensures var fires' := if Due(b, now) then fires + [now] else fires;
            Spaced(fires', s.every, g) && WaitsOut(s, fires', Polled(b, now), now)
  {
    if Due(b, now) { SpacedGrows(fires, now, s.every, g); }
    hide Spaced;
  }

  lemma FiresStep(s: Schedule, polls: seq<int>)
    requires polls != []
    ensures var n := |polls| - 1;
            var fires, before := Fires(s, AllSaved(polls[..n])), AfterPolls(s, AllSaved(polls[..n]));
            && Fires(s, AllSaved(polls)) == (if Due(before, polls[n]) then fires + [polls[n]] else fires)
            && AfterPolls(s, AllSaved(polls)) == Polled(before, polls[n])
  {
    AllSavedFront(polls);
  }

  lemma {:induction false} FiresAreSpaced(s: Schedule, polls: seq<int>, g: int)
    requires s.every > 0 && Steady(polls, g)
    ensures Spaced(Fires(s, AllSaved(polls)), s.every, g)
    ensures polls != [] ==>
              WaitsOut(s, Fires(s, AllSaved(polls)), AfterPolls(s, AllSaved(polls)), polls[|polls| - 1])
    decreases |polls|
  {
    if polls != [] {
      var n := |polls| - 1;
      var front := polls[..n];
      FiresStep(s, polls);
      FiresAreSpaced(s, front, g);
      if n > 0 { assert polls[n - 1] <= polls[n] <= polls[n - 1] + g; }
      hide Fires, AfterPolls, AllSaved, Spaced, Steady, WaitsOut;
      var fires, before := Fires(s, AllSaved(front)), AfterPolls(s, AllSaved(front));
      if n > 0 {
        WaitsOn(s, fires, before, polls[n - 1], polls[n], g);
      } else {
        assert front == [];
        WaitsOn(s, fires, before, polls[n], polls[n], g);
      }
    }
  }

  lemma {:induction false} FirstPollFires(s: Schedule, polls: seq<int>)
    requires polls != [] && Due(s, polls[0])
    ensures Fires(s, AllSaved(polls)) != [] && Fires(s, AllSaved(polls))[0] == polls[0]
    decreases |polls|
  {
    var front := polls[..|polls| - 1];
    AllSavedFront(polls);
    if front != [] { FirstPollFires(s, front); }
  }

  predicate ComesBefore(t: int, s: Schedule) {
    s.nextRun.Some? && t < s.nextRun.value
  }

  /** The first fire is at the first poll that has reached the next run; without a next run it is at once. */
  lemma {:induction false} FirstFire(s: Schedule, polls: seq<int>, k: nat)
    requires k < |polls| && !ComesBefore(polls[k], s)
    requires forall i :: 0 <= i < k ==> ComesBefore(polls[i], s)
    ensures Fires(s, AllSaved(polls)) != [] && Fires(s, AllSaved(polls))[0] == polls[k]
    ensures Fires(s, AllSaved(polls[..k])) == []
    decreases |polls|
  {
    assert forall i :: 0 <= i < k ==> polls[..k][i] == polls[i];
    NotDueYet(s, polls[..k]);
    var n := |polls| - 1;
    AllSavedFront(polls);
    if k < n {
      assert polls[..n][..k] == polls[..k];
      FirstFire(s, polls[..n], k);
    } else {
      assert polls[..n] == polls[..k];
    }
  }

  lemma {:induction false} NotDueYet(s: Schedule, polls: seq<int>)
    requires forall i :: 0 <= i < |polls| ==> ComesBefore(polls[i], s)
    ensures Fires(s, AllSaved(polls)) == [] && AfterPolls(s, AllSaved(polls)) == s
  {
    if polls != [] {
      AllSavedFront(polls);
      var front := polls[..|polls| - 1];
      assert forall i :: 0 <= i < |front| ==> front[i] == polls[i];
      NotDueYet(s, front);
      assert ComesBefore(polls[|polls| - 1], s);
    }
  }

  lemma {:induction false} SpacedSpan(fires: seq<int>, e: int, g: int, k: nat)
    requires Spaced(fires, e, g) && k < |fires|
    ensures k * e <= fires[k] - fires[0] <= k * (e + g)
  {
    if k > 0 {
      SpacedSpan(fires, e, g, k - 1);
      assert fires[k - 1] + e <= fires[k] < fires[k - 1] + e + g;
      assert k * e == (k - 1) * e + e && k * (e + g) == (k - 1) * (e + g) + (e + g);
    }
  }

  /** Main result, both sides of the rate. With interval E and polls at most g apart, consecutive fires
      are at least E and less than E + g apart. Over polls spanning a time T a schedule fires at most
      1 + T/E times; and if the first poll finds it due, its n fires cover the span:
      T < (n - 1)(E + g) + E. Failing runs change nothing, since no poll looks at how a run went. */
  lemma TwoSidedRate(s: Schedule, polls: seq<int>, g: int)
    requires s.every > 0 && polls != [] && Steady(polls, g)
    ensures var fires, span := Fires(s, AllSaved(polls)), polls[|polls| - 1] - polls[0];
            && Spaced(fires, s.every, g)
            && |fires| <= 1 + span / s.every
            && (Due(s, polls[0]) ==> |fires| > 0 && span < (|fires| - 1) * (s.every + g) + s.every)
  {
    hide Fires, AfterPolls, Steady, Spaced;
    var fires, span, e := Fires(s, AllSaved(polls)), polls[|polls| - 1] - polls[0], s.every;
    FiresAreSpaced(s, polls, g);
    SteadyRises(polls, g, |polls| - 1);
    if Due(s, polls[0]) { FirstPollFires(s, polls); }
    if fires != [] {
      FiresArePolls(s, polls, g);
      SpacedSpan(fires, e, g, |fires| - 1);
      assert |fires| - 1 <= span / e by { CountFits(|fires| - 1, e, span); }
    }
  }

  lemma CountFits(k: int, e: int, span: int)
    requires e > 0 && k * e <= span
    ensures k <= span / e
  {
    var q := span / e;
    assert span == q * e + span % e;
    if q + 1 <= k { TimesGrows(q + 1, k, e); }
  }

  lemma TimesGrows(a: int, b: int, e: int)
    requires a <= b && e > 0
    ensures a * e <= b * e
  {}

  lemma {:induction false} FiresArePolls(s: Schedule, polls: seq<int>, g: int)
    requires Fires(s, AllSaved(polls)) != [] && Steady(polls, g)
    ensures polls != []
    ensures var fires := Fires(s, AllSaved(polls));
            polls[0] <= fires[0] && fires[|fires| - 1] <= polls[|polls| - 1]
    decreases |polls|
  {
    var n := |polls| - 1;
    var front := polls[..n];
    AllSavedFront(polls);
    SteadyRises(polls, g, n);
    if n > 0 { assert polls[n - 1] <= polls[n]; }
    if Fires(s, AllSaved(front)) != [] { FiresArePolls(s, front, g); }
  }

  lemma {:induction false} SteadyRises(polls: seq<int>, g: int, k: nat)
    requires Steady(polls, g) && k < |polls|
    ensures polls[0] <= polls[k]
  {
    if k > 0 {
      SteadyRises(polls, g, k - 1);
      assert polls[k - 1] <= polls[k];
    }
  }

  /** The interval matters: one that does not parse to a positive duration leaves a due schedule due, so
      it fires at every poll from then on. */
  lemma {:induction false} NoIntervalFiresEveryPoll(s: Schedule, polls: seq<int>, g: int)
    requires s.every <= 0 && Steady(polls, g) && polls != [] && Due(s, polls[0])
    ensures Fires(s, AllSaved(polls)) == polls && AfterPolls(s, AllSaved(polls)) == s
    decreases |polls|
  {
    var n := |polls| - 1;
    SteadyRises(polls, g, n);
    AllSavedFront(polls);
    if n > 0 {
      NoIntervalFiresEveryPoll(s, polls[..n], g);
    }
    assert polls == polls[..n] + [polls[n]];
  }

  // ---------------------------------------------------------------------------------------
  // Polls that die before they save
  // ---------------------------------------------------------------------------------------

  /** The times of the polls that were saved. */
  function SavedTimes(visits: seq<Visit>): seq<int> {
    if visits == [] then []
    else
      var front, v := visits[..|visits| - 1], visits[|visits| - 1];
      if v.Saved? then SavedTimes(front) + [v.now] else SavedTimes(front)
  }

  /** How many lost polls had run it. */
  function LostFires(s: Schedule, visits: seq<Visit>): nat {
    if visits == [] then 0
    else
      var front, v := visits[..|visits| - 1], visits[|visits| - 1];
      LostFires(s, front) + if v.Lost? && Due(AfterPolls(s, front), v.now) then 1 else 0
  }

  ghost predicate Rising(visits: seq<Visit>) {
    forall i :: 0 < i < |visits| ==> visits[i - 1].now <= visits[i].now
  }

  /** What the deaths cost, exactly: a schedule ends up where the saved polls alone put it, and it fires once
      more for every lost poll that had run it. */
  lemma {:induction false} LostRunsAreExtra(s: Schedule, visits: seq<Visit>)
    ensures AfterPolls(s, visits) == AfterPolls(s, AllSaved(SavedTimes(visits)))
    ensures |Fires(s, visits)| == |Fires(s, AllSaved(SavedTimes(visits)))| + LostFires(s, visits)
  {
    if visits != [] {
      var front, v := visits[..|visits| - 1], visits[|visits| - 1];
      LostRunsAreExtra(s, front);
      if v.Saved? {
        var times := SavedTimes(visits);
        AllSavedFront(times);
        assert times[..|times| - 1] == SavedTimes(front);
      }
    }
  }

  /** A due schedule whose poll is lost runs again at the next one, however soon that comes. */
  lemma LostRunRepeats(s: Schedule, t: int, u: int)
    requires Due(s, t) && t <= u
    ensures Fires(s, [Lost(t), Saved(u)]) == [t, u]
  {
    assert [Lost(t), Saved(u)][..1] == [Lost(t)] && [Lost(t)][..0] == [];
    assert Fires(s, [Lost(t)]) == [t] && AfterPolls(s, [Lost(t)]) == s;
  }

  /** When it ran last, if the poll that ran it was lost and none has handled it since. */
  function Unsaved(s: Schedule, visits: seq<Visit>): Option<int> {
    if visits == [] then None
    else
      var front, v := visits[..|visits| - 1], visits[|visits| - 1];
      if v.Missed? then Unsaved(s, front)
      else if v.Lost? && Due(AfterPolls(s, front), v.now) then Some(v.now)
      else None
  }

  /** Consecutive fires are at least `e` apart. */
  ghost predicate Apart(fires: seq<int>, e: int) {
    forall i :: 0 < i < |fires| ==> fires[i - 1] + e <= fires[i]
  }

  /** The poll at place `k` handles the schedule too soon after a run that was lost. */
  predicate TooSoon(s: Schedule, visits: seq<Visit>, k: nat)
    requires k < |visits|
  {
    var lost := Unsaved(s, visits[..k]);
    !visits[k].Missed? && lost.Some? && visits[k].now < lost.value + s.every
  }

  lemma RisingFront(visits: seq<Visit>)
    requires Rising(visits) && visits != []
    ensures Rising(visits[..|visits| - 1])
  {
    var n := |visits| - 1;
    forall i | 0 < i < n
      ensures visits[..n][i - 1].now <= visits[..n][i].now
    {
      assert visits[i - 1].now <= visits[i].now;
    }
  }

  /** After its last fire a schedule waits one interval, unless that run was lost: then it is still due. */
  lemma {:induction false} LastFire(s: Schedule, visits: seq<Visit>)
    requires s.every > 0 && Rising(visits)
    ensures var fires, now, lost := Fires(s, visits), AfterPolls(s, visits), Unsaved(s, visits);
            && now.every == s.every
            && (fires == [] ==> lost.None? && now == s)
            && (fires != [] ==>
                  var last := fires[|fires| - 1];
                  if lost.Some? then lost.value == last <= visits[|visits| - 1].now && Due(now, last)
                  else now.nextRun == Some(last + s.every))
    decreases |visits|
  {
    if visits != [] {
      RisingFront(visits);
      LastFire(s, visits[..|visits| - 1]);
      if |visits| > 1 { assert visits[|visits| - 2].now <= visits[|visits| - 1].now; }
    }
  }

  /** The last poll fires the schedule if it handles it and finds it due, and only so can it come too soon. */
  lemma LastVisit(s: Schedule, visits: seq<Visit>)
    requires s.every > 0 && Rising(visits) && visits != []
    ensures var n := |visits| - 1;
            var v, fires := visits[n], Fires(s, visits[..n]);
            var due := !v.Missed? && Due(AfterPolls(s, visits[..n]), v.now);
            && Fires(s, visits) == (if due then fires + [v.now] else fires)
            && (TooSoon(s, visits, n) <==> due && fires != [] && v.now < fires[|fires| - 1] + s.every)
  {
    var n := |visits| - 1;
    var front := visits[..n];
    RisingFront(visits);
    LastFire(s, front);
    if n > 0 { assert front[n - 1].now <= visits[n].now; }
    hide Rising, Unsaved, AfterPolls;
  }

  /** Main result with crashes. Whatever polls die, consecutive fires of a schedule stay an interval apart
      exactly when, after each lost run, the next poll to handle it comes an interval later or more. */
  lemma {:induction false} ApartDespiteDeaths(s: Schedule, visits: seq<Visit>)
    requires s.every > 0 && Rising(visits)
    ensures Apart(Fires(s, visits), s.every) <==> forall k :: 0 <= k < |visits| ==> !TooSoon(s, visits, k)
    decreases |visits|
  {
    if visits != [] {
      var n := |visits| - 1;
      var front, t := visits[..n], visits[n].now;
      RisingFront(visits);
      ApartDespiteDeaths(s, front);
      LastVisit(s, visits);
      forall k | 0 <= k < n
        ensures TooSoon(s, visits, k) <==> TooSoon(s, front, k)
      {
        assert visits[..k] == front[..k];
      }
      ApartGrows(Fires(s, front), t, s.every);
      hide Apart, AfterPolls, Unsaved, Fires, Rising, TooSoon;
    }
  }

  lemma ApartGrows(fires: seq<int>, t: int, e: int)
    ensures Apart(fires + [t], e) <==> Apart(fires, e) && (fires != [] ==> fires[|fires| - 1] + e <= t)
  {
    var next := fires + [t];
    if Apart(next, e) {
      forall i | 0 < i < |fires|
        ensures fires[i - 1] + e <= fires[i]
      {
        assert next[i - 1] + e <= next[i];
      }
      assert fires != [] ==> next[|fires| - 1] + e <= next[|fires|];
    }
  }

  lemma {:induction false} RisingSpans(visits: seq<Visit>, k: nat)
    requires Rising(visits) && k < |visits|
    ensures visits[0].now <= visits[k].now
  {
    if k > 0 {
      RisingSpans(visits, k - 1);
      assert visits[k - 1].now <= visits[k].now;
    }
  }

  lemma {:induction false} SavedTimesAreSteady(visits: seq<Visit>, g: int)
    requires visits != [] && Rising(visits) && g >= visits[|visits| - 1].now - visits[0].now
    ensures var times := SavedTimes(visits);
            && Steady(times, g)
            && (times != [] ==> visits[0].now <= times[0] <= times[|times| - 1] <= visits[|visits| - 1].now)
    decreases |visits|
  {
    var n := |visits| - 1;
    var front, times := visits[..n], SavedTimes(visits);
    if n > 0 {
      RisingFront(visits);
      assert visits[n - 1].now <= visits[n].now;
      RisingSpans(visits, n);
      SavedTimesAreSteady(front, g);
      hide SavedTimes, Steady, Rising;
    }
  }

  /** The rate with crashes: over polls spanning a time T, whichever of them die, a schedule with interval E
      fires at most 1 + T/E times and once more for each lost poll that had run it. */
  lemma {:induction false} RateWithDeaths(s: Schedule, visits: seq<Visit>)
    requires s.every > 0 && visits != [] && Rising(visits)
    ensures |Fires(s, visits)| <= 1 + (visits[|visits| - 1].now - visits[0].now) / s.every + LostFires(s, visits)
  {
    var span, times := visits[|visits| - 1].now - visits[0].now, SavedTimes(visits);
    LostRunsAreExtra(s, visits);
    RisingSpans(visits, |visits| - 1);
    SavedTimesAreSteady(visits, span);
    hide Fires, AfterPolls, Steady, LostFires, SavedTimes, Rising, AllSaved;
    if times == [] {
      QuotientGrows(0, span, s.every);
    } else {
      RateOf(s, times, span);
      QuotientGrows(times[|times| - 1] - times[0], span, s.every);
    }
  }

  lemma RateOf(s: Schedule, times: seq<int>, g: int)
    requires s.every > 0 && times != [] && Steady(times, g)
    ensures |Fires(s, AllSaved(times))| <= 1 + (times[|times| - 1] - times[0]) / s.every
  {
    TwoSidedRate(s, times, g);
  }

  lemma QuotientGrows(a: int, b: int, e: int)
    requires a <= b && e > 0
    ensures a / e <= b / e
  {
    var q := a / e;
    assert a == q * e + a % e;
    CountFits(q, e, b);
  }
}
