/** The routes of the flow: where a run can come to stand, on which weekdays, with how many attendees and whose
    approval its stored item carries. A place keeps the weekdays of its walk, so that the guards along one walk
    are asked about the same days; a new walk, behind a gate or after a failure, may take place on other days.
    Every run follows routes, whatever the guards, replies, failures, invites and crashes are
    (cmd/run.go, cmd/daemon.go). */
module Routes {
  import opened Workflows
  import opened Protocol
  import opened Forward
  import opened Clocks
  import Calendar
  import Guards

  /** A step the flow stands at in a walk that meets its steps on the weekdays `day` while the hold has `count`
      attendees: a walk of the command that created the hold or, once `polled`, of the daemon for an item that
      carries `approver`. */
  datatype Place = Place(step: int, count: nat, day: nat -> Guards.Weekday, polled: bool, approver: string)

  /** What the routes are to allow for: who is invited at creation, how long a walk may last, and which gate is
      not to be read (-1 for none). */
  datatype Conditions = Conditions(manager: string, span: Span, avoid: int)

  /** The guard of step `i` lets it act in a walk on these weekdays while the hold has `n` attendees. */
  predicate Permits(w: Workflow, i: nat, n: nat, day: nat -> Guards.Weekday)
    requires i < |w.steps|
  {
    Guards.Allows(w.steps[i].guard, day(i), n)
  }

  /** Gate `g` may open onto step `j`. */
  predicate Opens(w: Workflow, g: nat, j: int)
    requires g < |w.steps|
  {
    var s := w.steps[g];
    if s.verb == Wait then Parsed(s.delay) > 0 && j == Next(w, g, "")
    else
      || j == Next(w, g, ACCEPTED)
      || j == BranchStart(w, s, DECLINED)
      || (Parsed(s.timeout) > 0 && j == BranchStart(w, s, EXPIRED))
  }

  /** The item stored at the gate of place `x` may carry approver `a`: the person invited at creation, or
      the gate's own approver, or after a failed invite the one carried so far. */
  predicate MayCarry(w: Workflow, manager: string, x: Place, a: string)
    requires 0 <= x.step < |w.steps|
  {
    if !x.polled then a == if w.steps[x.step].verb == Wait then "" else FirstInvitee(w, manager)
    else if !NamesApprover(w, x.step) then a == ""
    else a == w.steps[x.step].approver || a == x.approver
  }

  /** The flow goes on from one place to another without the avoided gate being read: through another gate,
      past a step, a cancel only when its guard denies, or back to an acting step that failed. Through a gate
      and after a failure the walk is a new one, on other days and with a hold that may have changed. */
  ghost predicate Hop(w: Workflow, c: Conditions, x: Place, y: Place) {
    && 0 <= x.step < |w.steps| && 0 <= y.step && Spans(w, c.span, y.day)
    && var verb := w.steps[x.step].verb;
       if Waits(verb) then
         x.step != c.avoid && y.polled && Opens(w, x.step, y.step) && MayCarry(w, c.manager, x, y.approver)
       else
         || (y == x.(step := Next(w, x.step, "")) && (verb == Cancel ==> !Permits(w, x.step, x.count, x.day)))
         || (x.polled && y == x.(count := y.count, day := y.day) && Acts(verb) && Permits(w, x.step, x.count, x.day))
  }

  /** The command walks from the step after the first; the hold lists its guests, its one invited approver
      or nobody. */
  ghost predicate Starts(w: Workflow, c: Conditions, x: Place)
    requires w.steps != []
  {
    && x.step == Next(w, 0, "") && !x.polled && x.approver == "" && Spans(w, c.span, x.day)
    && match w.steps[0].verb
       case Event => true
       case Hold => x.count == if Has(w, Approve) then 1 else 0
       case _ => x.count == 0
  }

  ghost predicate IsRoute(w: Workflow, c: Conditions, p: seq<Place>)
    requires w.steps != []
  {
    && p != [] && Starts(w, c, p[0])
    && forall k :: 0 < k < |p| ==> Hop(w, c, p[k - 1], p[k])
  }

  ghost predicate Reachable(w: Workflow, c: Conditions, x: Place)
    requires w.steps != []
  {
    exists p :: IsRoute(w, c, p) && p[|p| - 1] == x
  }

  lemma HopReaches(w: Workflow, c: Conditions, x: Place, y: Place)
    requires w.steps != [] && Reachable(w, c, x) && Hop(w, c, x, y)
    ensures Reachable(w, c, y)
  {
    var p :| IsRoute(w, c, p) && p[|p| - 1] == x;
    assert IsRoute(w, c, p + [y]);
  }

  lemma ReachableSpans(w: Workflow, c: Conditions, x: Place)
    requires w.steps != [] && Reachable(w, c, x)
    ensures Spans(w, c.span, x.day)
  {
    var p :| IsRoute(w, c, p) && p[|p| - 1] == x;
    if |p| > 1 { assert Hop(w, c, p[|p| - 2], x); }
  }

  lemma StartReaches(w: Workflow, c: Conditions, x: Place)
    requires w.steps != [] && Starts(w, c, x)
    ensures Reachable(w, c, x)
  {
    assert IsRoute(w, c, [x]);
  }

  // ---------------------------------------------------------------------------------------
  // Runs follow routes until the avoided gate is read
  // ---------------------------------------------------------------------------------------

  predicate HasRead(s: Run, gate: int) {
    exists k :: 0 <= k < |s.commits| && s.commits[k].gate == gate
  }

  /** Some route leads to step `i` where its guard may let it act. */
  ghost predicate Performable(w: Workflow, c: Conditions, i: nat)
    requires w.steps != []
  {
    exists x :: Reachable(w, c, x) && x.step == i && i < |w.steps| && Permits(w, x.step, x.count, x.day)
  }

  ghost predicate GateReachable(w: Workflow, c: Conditions, g: int, a: string)
    requires w.steps != []
  {
    exists x :: Reachable(w, c, x) && x.step == g && 0 <= g < |w.steps| && MayCarry(w, c.manager, x, a)
  }

  ghost predicate BranchReachable(w: Workflow, c: Conditions, i: int, a: string)
    requires w.steps != []
  {
    forall n, day :: Spans(w, c.span, day) ==> Reachable(w, c, Place(i, n, day, true, a))
  }

  /** A stored branch may be resumed with any hold, on any days. */
  ghost predicate ItemReachable(w: Workflow, c: Conditions, it: WatchItem)
    requires w.steps != []
  {
    match EntryCursor(it)
    case Waiting(g) => GateReachable(w, c, g, it.approver)
    case Running(i) => BranchReachable(w, c, i, it.approver)
    case _ => true
  }

  function PlaceOf(mode: Mode, env: Env, i: int): Place {
    Place(i, |env.hold.attendees|, env.day, mode.Branch?, if mode.Branch? then mode.item.approver else "")
  }

  /** The hold a first walk works on lists the invited approver. */
  ghost predicate HoldInvited(w: Workflow, manager: string, mode: Mode, env: Env) {
    mode.FirstWalk? && Has(w, Approve) ==>
      Calendar.ManagerAttendee(env.hold).email == FirstInvitee(w, manager)
  }

  ghost predicate WalkTracks(w: Workflow, c: Conditions, mode: Mode, env: Env, i: int)
    requires w.steps != []
  {
    && HoldInvited(w, c.manager, mode, env) && Spans(w, c.span, env.day)
    && (i >= 0 ==> Reachable(w, c, PlaceOf(mode, env, i)))
  }

  ghost predicate Tracks(w: Workflow, c: Conditions, s: Run)
    requires w.steps != []
  {
    && (forall i :: i in s.log ==> Performable(w, c, i))
    && (s.entry.Some? ==> ItemReachable(w, c, s.entry.value))
    && match s.pc
       case Committing(item, env, commit) =>
         GateReachable(w, c, item.step, item.approver) && Spans(w, c.span, env.day)
       case Walking(mode, env, at, _) => WalkTracks(w, c, mode, env, at)
       case Performed(mode, env, i, _) =>
         WalkTracks(w, c, mode, env, i) && i < |w.steps| && Permits(w, i, |env.hold.attendees|, env.day)
       case Arrived(mode, env, gate) => WalkTracks(w, c, mode, env, gate)
       case Finishing(result, item) => Keeps(result) ==> ItemReachable(w, c, item)
       case _ => true
  }

  ghost predicate Follows(w: Workflow, c: Conditions, s: Run)
    requires w.steps != []
  {
    HasRead(s, c.avoid) || Tracks(w, c, s)
  }

  /** A process about to commit does so as the gate it read tells. */
  ghost predicate CommitsAsPlanned(w: Workflow, s: Run) {
    match s.pc
    case Committing(item, env, commit) =>
      && 0 <= item.step < |w.steps|
      && commit.hold == env.hold && commit.gate == item.step
      && BranchPlan(w, item, env.hold, env.now) == Open(commit.from, commit.outcome)
    case _ => true
  }

  lemma NextPlans(w: Workflow, s: Run, x: Input)
    requires CommitsAsPlanned(w, s)
    ensures CommitsAsPlanned(w, Apply(w, s, x))
  {
    hide BranchPlan;
  }

  lemma ReadStays(w: Workflow, s: Run, x: Input, gate: int)
    requires HasRead(s, gate)
    ensures HasRead(Apply(w, s, x), gate)
  {
    var t := Apply(w, s, x);
    var k :| 0 <= k < |s.commits| && s.commits[k].gate == gate;
    assert t.commits[k].gate == gate;
  }

  lemma PastStepReaches(w: Workflow, c: Conditions, x: Place)
    requires w.steps != [] && Reachable(w, c, x)
    requires 0 <= x.step < |w.steps| && !Waits(w.steps[x.step].verb) && Spans(w, c.span, x.day)
    requires w.steps[x.step].verb == Cancel ==> !Permits(w, x.step, x.count, x.day)
    ensures Next(w, x.step, "") >= 0 ==> Reachable(w, c, x.(step := Next(w, x.step, "")))
  {
    if Next(w, x.step, "") >= 0 { HopReaches(w, c, x, x.(step := Next(w, x.step, ""))); }
  }

  /** A step that may act in the daemon's hands may be retried with any hold, on any days. */
  lemma RetryReaches(w: Workflow, c: Conditions, x: Place)
    requires w.steps != [] && Reachable(w, c, x) && x.polled && 0 <= x.step < |w.steps|
    requires Acts(w.steps[x.step].verb) && Permits(w, x.step, x.count, x.day)
    ensures BranchReachable(w, c, x.step, x.approver)
  {
    forall n: nat, day | Spans(w, c.span, day)
      ensures Reachable(w, c, Place(x.step, n, day, true, x.approver))
    {
      HopReaches(w, c, x, Place(x.step, n, day, true, x.approver));
    }
  }

  lemma LogGrows(w: Workflow, c: Conditions, s: Run, t: Run, i: nat)
    requires w.steps != [] && (forall j :: j in s.log ==> Performable(w, c, j)) && t.log == s.log + [i]
    requires Performable(w, c, i)
    ensures forall j :: j in t.log ==> Performable(w, c, j)
  {}

  lemma SkipFollows(w: Workflow, c: Conditions, s: Run)
    requires Sound(w) && Tracks(w, c, s) && s.pc.Walking? && WalkTurn(w, s).pc.Walking?
    ensures Tracks(w, c, WalkTurn(w, s))
  {
    hide Reachable, Guards.Allows;
    var Walking(mode, env, i, _) := s.pc;
    WalkTurnLeads(w, s);
    hide WalkTurn;
    var x := PlaceOf(mode, env, i);
    assert GuardAllows(w, env, i) == Permits(w, x.step, x.count, x.day);
    hide Next, GuardAllows, Permits, Sound, Spans;
    PastStepReaches(w, c, x);
  }

  lemma PerformFollows(w: Workflow, c: Conditions, s: Run)
    requires Sound(w) && Tracks(w, c, s) && s.pc.Walking? && WalkTurn(w, s).pc.Performed?
    ensures Tracks(w, c, WalkTurn(w, s))
  {
    hide Reachable, Guards.Allows;
    var Walking(mode, env, i, _) := s.pc;
    WalkTurnLeads(w, s);
    hide WalkTurn, Next, Sound;
    assert Permits(w, i, |env.hold.attendees|, env.day);
    assert Performable(w, c, i) by { assert Reachable(w, c, PlaceOf(mode, env, i)); }
    LogGrows(w, c, s, WalkTurn(w, s), i);
    hide Performable, Permits, Spans, GuardAllows;
  }

  /** A failed step may be retried. */
  lemma StopFollows(w: Workflow, c: Conditions, s: Run)
    requires Sound(w) && PcOk(w, s) && Tracks(w, c, s) && s.pc.Walking? && WalkTurn(w, s).pc.Finishing?
    ensures Tracks(w, c, WalkTurn(w, s))
  {
    hide Reachable, Guards.Allows;
    var Walking(mode, env, i, _) := s.pc;
    WalkTurnLeads(w, s);
    hide WalkTurn, Next, Sound;
    if Keeps(WalkTurn(w, s).pc.result) {
      var x := PlaceOf(mode, env, i);
      assert Permits(w, x.step, x.count, x.day);
      hide Permits, Spans, GuardAllows;
      RetryReaches(w, c, x);
    }
  }

  lemma WalkFollows(w: Workflow, c: Conditions, s: Run)
    requires Sound(w) && PcOk(w, s) && Tracks(w, c, s) && s.pc.Walking?
    ensures Tracks(w, c, WalkTurn(w, s))
  {
    WalkTurnLeads(w, s);
    match WalkTurn(w, s).pc {
      case Walking(_, _, _, _) => SkipFollows(w, c, s);
      case Performed(_, _, _, _) => PerformFollows(w, c, s);
      case Finishing(_, _) => StopFollows(w, c, s);
      case _ =>
    }
    hide WalkTurn, Reachable, PcOk, Sound, Performable, Permits, Spans, GuardAllows, ItemReachable, Next;
  }

  /** A gate that opens leads where it may lead. */
  lemma PlanOpens(w: Workflow, item: WatchItem, env: Env)
    requires 0 <= item.step < |w.steps| && Waits(w.steps[item.step].verb)
    ensures var plan := BranchPlan(w, item, env.hold, env.now);
            plan.Open? ==> Opens(w, item.step, plan.from)
  {}

  /** Whatever a read gate opens is reachable with any hold, on any days. */
  lemma OpenedIsReachable(w: Workflow, c: Conditions, g: int, j: int, a: string)
    requires w.steps != [] && GateReachable(w, c, g, a) && g != c.avoid
    requires 0 <= g < |w.steps| && Waits(w.steps[g].verb) && Opens(w, g, j) && j >= 0
    ensures BranchReachable(w, c, j, a)
  {
    hide Reachable, Opens;
    var x :| Reachable(w, c, x) && x.step == g && MayCarry(w, c.manager, x, a);
    forall n: nat, day | Spans(w, c.span, day)
      ensures Reachable(w, c, Place(j, n, day, true, a))
    {
      HopReaches(w, c, x, Place(j, n, day, true, a));
    }
  }

  lemma CommitTracks(w: Workflow, c: Conditions, s: Run)
    requires w.steps != [] && Tracks(w, c, s) && s.pc.Committing? && s.pc.commit.from != 0
    requires s.pc.commit.from > 0 ==> BranchReachable(w, c, s.pc.commit.from, s.pc.item.approver)
    requires !s.pc.item.done && s.pc.item.resume == 0
    ensures Tracks(w, c, Tick(w, s))
  {
    CommitTick(w, s);
    hide Tick, Performable, Reachable, Spans, GateReachable;
  }

  lemma CommitFollows(w: Workflow, c: Conditions, s: Run)
    requires Sound(w) && PcOk(w, s) && Tracks(w, c, s) && s.pc.Committing? && CommitsAsPlanned(w, s)
    requires ItemOk(w, s.pc.item)
    ensures Follows(w, c, Tick(w, s))
  {
    var Committing(item, env, commit) := s.pc;
    var g, j := item.step, commit.from;
    if g == c.avoid {
      assert Tick(w, s).commits[|s.commits|] == commit;
    } else {
      NothingReturnsToStart(w, g);
      PlanOpens(w, item, env);
      hide BranchPlan, Tick, Performable, Opens, GateReachable, BranchReachable, Sound, Spans;
      if j > 0 { OpenedIsReachable(w, c, g, j, item.approver); }
      CommitTracks(w, c, s);
    }
  }

  lemma EffectFollows(w: Workflow, c: Conditions, s: Run)
    requires Sound(w) && PcOk(w, s) && Tracks(w, c, s) && s.pc.Performed?
    ensures Tracks(w, c, AfterEffect(w, s))
  {
    hide Reachable;
    var Performed(mode, env, i, _) := s.pc;
    if w.steps[i].verb != Cancel {
      var x := PlaceOf(mode, env, i);
      PastStepReaches(w, c, x);
      if mode.Branch? && Next(w, i, "") >= 0 {
        WalkMoveIsEdge(w, i);
        NothingReturnsToStart(w, i);
        RetryReaches(w, c, x);
        forall n: nat, day | Spans(w, c.span, day)
          ensures Reachable(w, c, Place(Next(w, i, ""), n, day, true, x.approver))
        {
          PastStepReaches(w, c, Place(i, n, day, true, x.approver));
        }
      }
    }
  }

  lemma ArrivalFollows(w: Workflow, c: Conditions, s: Run)
    requires Sound(w) && PcOk(w, s) && Tracks(w, c, s) && s.pc.Arrived?
    ensures Tracks(w, c, AtArrival(w, s))
  {
    hide Reachable, Performable, Sound, Spans, Permits;
    var Arrived(mode, env, gate) := s.pc;
    var x := PlaceOf(mode, env, gate);
    if mode.FirstWalk? {
      if w.steps[gate].verb == Approve { assert Has(w, Approve); }
      assert MayCarry(w, c.manager, x, Enqueued(w, "", env, gate).approver);
    } else {
      assert MayCarry(w, c.manager, x, AtGate(w, mode.item, env, gate).approver);
    }
  }

  lemma PollFollows(w: Workflow, c: Conditions, s: Run, env: Env)
    requires w.steps != [] && Tracks(w, c, s) && Spans(w, c.span, env.day)
    ensures Tracks(w, c, Poll(w, s, env))
  {
    hide Reachable, BranchPlan;
  }

  lemma TickFollows(w: Workflow, c: Conditions, s: Run)
    requires Sound(w) && Inv(w, s) && Tracks(w, c, s) && CommitsAsPlanned(w, s)
    ensures Follows(w, c, Tick(w, s))
  {
    hide Reachable, Sound, HistoryOk, Leads;
    match s.pc
    case Walking(_, _, _, _) => WalkFollows(w, c, s);
    case Committing(_, _, _) => CommitFollows(w, c, s);
    case Performed(_, _, _, _) => EffectFollows(w, c, s);
    case Arrived(_, _, _) => ArrivalFollows(w, c, s);
    case _ =>
  }

  lemma ApplyFollows(w: Workflow, c: Conditions, s: Run, x: Input)
    requires Sound(w) && Inv(w, s) && Follows(w, c, s) && CommitsAsPlanned(w, s)
    requires x.Begin? ==> Spans(w, c.span, x.env.day)
    ensures Follows(w, c, Apply(w, s, x))
  {
    if HasRead(s, c.avoid) {
      ReadStays(w, s, x, c.avoid);
    } else if x.Act? {
      TickFollows(w, c, s);
    } else if x.Begin? {
      PollFollows(w, c, s, x.env);
    }
  }

  lemma {:induction false} ExecuteFollows(w: Workflow, c: Conditions, s: Run, xs: seq<Input>)
    requires Sound(w) && Inv(w, s) && Follows(w, c, s) && CommitsAsPlanned(w, s)
    requires Spanned(w, c.span, xs)
    ensures Follows(w, c, Execute(w, s, xs)) && CommitsAsPlanned(w, Execute(w, s, xs))
    decreases |xs|
  {
    if xs != [] {
      ApplyFollows(w, c, s, xs[0]);
      NextKeeps(w, s, xs[0]);
      NextPlans(w, s, xs[0]);
      assert forall k :: 0 <= k < |xs[1..]| ==> xs[1..][k] == xs[k + 1];
      ExecuteFollows(w, c, Apply(w, s, xs[0]), xs[1..]);
    }
  }

  lemma CreatedFollows(w: Workflow, c: Conditions, provider: string, watch: bool, env: Env)
    requires Valid(w) && Spans(w, c.span, env.day)
    ensures var s := Created(w, provider, watch, c.manager, env);
            Tracks(w, c, s) && CommitsAsPlanned(w, s)
  {
    var s := Created(w, provider, watch, c.manager, env);
    var x := PlaceOf(s.pc.mode, s.pc.env, s.pc.at);
    assert Starts(w, c, x);
    StartReaches(w, c, x);
    if Has(w, Approve) {
      assert w.steps[0].verb == Hold;
      assert Calendar.FirstRequired(s.pc.env.hold.attendees) == 0;
    }
  }

  /** Every run of an accepted workflow follows routes for as long as it has not read the avoided gate. */
  lemma RunsFollowRoutes(w: Workflow, c: Conditions, provider: string, watch: bool, env: Env, xs: seq<Input>)
    requires Valid(w) && Spans(w, c.span, env.day) && Spanned(w, c.span, xs)
    ensures Follows(w, c, Execute(w, Created(w, provider, watch, c.manager, env), xs))
  {
    ValidIsSound(w);
    CreatedOk(w, provider, watch, c.manager, env);
    CreatedFollows(w, c, provider, watch, env);
    ExecuteFollows(w, c, Created(w, provider, watch, c.manager, env), xs);
  }
}
