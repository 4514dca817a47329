/** When every named gate of every run waits for its own approver: with invites going through, and with
    invites that may fail (cmd/run.go, cmd/daemon.go). */
module ExactGates {
  import opened Workflows
  import opened Protocol
  import opened Forward
  import opened Refinement
  import opened Clocks
  import opened Gates
  import opened Routes
  import opened RouteRuns
  import Calendar

  /** A first walk in which nothing fails. */
  ghost predicate Strolls(w: Workflow, s: Run) {
    && s.pc.Walking? && s.pc.mode.FirstWalk? && |s.pc.env.hold.attendees| == 1
    && (forall i :: !s.pc.env.fails(i))
    && 0 <= s.pc.at < |w.steps| && s.pc.at !in s.pc.visited
  }

  /** Such a walk reaches the first gate on its way. */
  lemma {:induction false} StrollReachesGate(w: Workflow, s: Run) returns (xs: seq<Input>)
    requires Sound(w) && Inv(w, s) && Strolls(w, s) && FirstGateFrom(w, s.pc.env.day, s.pc.at) >= 0
    ensures OnlyActs(xs)
    ensures var t := Execute(w, s, xs);
            && t.alive == s.alive && t.entry == s.entry
            && t.pc == Arrived(s.pc.mode, s.pc.env, FirstGateFrom(w, s.pc.env.day, s.pc.at))
    decreases Past(w, s.pc.at)
  {
    var i := s.pc.at;
    if Waits(w.steps[i].verb) {
      GatesAreUnguarded(w, i, s.pc.env);
      xs := [Act];
      assert xs[1..] == [];
      assert Execute(w, s, xs) == WalkTurn(w, s);
    } else {
      xs := PassStep(w, s);
      PastShrinks(w, i);
      var t := Execute(w, s, xs);
      ExecuteKeeps(w, s, xs);
      var ys := StrollReachesGate(w, t);
      ExecuteJoin(w, s, xs, ys);
      xs := xs + ys;
    }
  }

  /** A gate enqueued for somebody other than its approver is crossed on that somebody's reply. */
  lemma WrongReplyCrosses(w: Workflow, span: Span, s: Run) returns (xs: seq<Input>)
    requires s.pc.Arrived? && s.pc.mode.FirstWalk? && s.pc.mode.watch && s.alive
    requires NamesApprover(w, s.pc.gate)
    requires !Calendar.SameEmail(w.steps[s.pc.gate].approver, Calendar.ManagerAttendee(s.pc.env.hold).email)
    ensures InvitesWork(xs) && Clocked(w, span, s.pc.env.later, xs)
    ensures var t := Execute(w, s, xs);
            t.commits != [] && !OwnReply(w, t.commits[|t.commits| - 1])
  {
    hide Calendar.ManagerAttendee, Calendar.SameEmail, Calendar.ApprovedBy, OnTime;
    var t := s.pc.env.later;
    var arrived := AtArrival(w, s);
    var item := arrived.entry.value;
    var poll := Reading(Answered(item.approver, Calendar.Accepted), t);
    AnsweredIsHeard(item, Calendar.Accepted, w.steps[item.step].approver);
    OneDayIsOnTime(w, span, t);
    var read := Poll(w, arrived, poll);
    assert read.pc.Committing?;
    xs := [Act, Begin(poll), Act];
    assert xs[1..] == [Begin(poll), Act] && [Begin(poll), Act][1..] == [Act] && [Act][1..] == [];
    assert Execute(w, read, [Act]) == Tick(w, read);
    assert Execute(w, arrived, [Begin(poll), Act]) == Tick(w, read);
    assert Execute(w, s, xs) == Tick(w, read);
    assert Clocked(w, span, t, [Act]) && Clocked(w, span, t, [Begin(poll), Act]);
  }

  /** A first walk that stops first at a gate that is somebody else's. */
  ghost predicate StartsWrong(w: Workflow, s: Run)
    requires Sound(w)
  {
    && Inv(w, s) && Strolls(w, s) && s.alive && s.pc.mode.FirstWalk? && s.pc.mode.watch
    && var g := FirstGateFrom(w, s.pc.env.day, s.pc.at);
       g >= 0 && NamesApprover(w, g)
       && !Calendar.SameEmail(w.steps[g].approver, Calendar.ManagerAttendee(s.pc.env.hold).email)
  }

  lemma WrongStart(w: Workflow, provider: string, manager: string, env: Env)
    requires Workflows.Valid(w) && Sound(w) && !GateInvited(w, manager, FirstGate(w, env.day))
    requires env.hold.attendees == [] && forall i :: !env.fails(i)
    ensures var s := Created(w, provider, true, manager, env);
            StartsWrong(w, s) && s.pc.env.later == env.later
  {
    var s := Created(w, provider, true, manager, env);
    assert Has(w, Approve);
    InvitedManager(w, manager, env.hold, s.pc.env.hold);
    CreatedOk(w, provider, true, manager, env);
    hide Workflows.Valid, Inv, Calendar.SameEmail, Calendar.ManagerAttendee;
  }

  /** Such a walk stops there, and that somebody's word opens the gate. */
  lemma WrongWalkCrosses(w: Workflow, span: Span, s: Run, env: Env) returns (xs: seq<Input>)
    requires Sound(w) && StartsWrong(w, s) && s.pc.env.later == env.later
    requires OnTime(w, span, env.day, env.now, env.later)
    ensures InvitesWork(xs) && Real(w, span, env, xs)
    ensures var t := Execute(w, s, xs);
            t.commits != [] && !OwnReply(w, t.commits[|t.commits| - 1])
  {
    hide Inv, Sound, OnTime, Execute, OwnReply, Strolls, NamesApprover, FirstGateFrom;
    hide Calendar.SameEmail, Calendar.ManagerAttendee;
    xs := StrollReachesGate(w, s);
    var ys := WrongReplyCrosses(w, span, Execute(w, s, xs));
    ActsTakeNoTime(w, span, env.later, xs);
    hide Clocked, StartsWrong;
    RealGoesOn(w, span, s, env, xs, ys);
    ActsThenInvites(xs, ys);
    hide *;
    xs := xs + ys;
  }

  /** A first gate that is somebody else's is crossed on the wrong person's reply. */
  lemma WrongFirstGate(w: Workflow, provider: string, manager: string, span: Span) returns (env: Env, xs: seq<Input>)
    requires Workflows.Valid(w) && Sound(w) && !FirstGateInvited(w, manager, span)
    ensures InvitesWork(xs) && Real(w, span, env, xs)
    ensures var s := Execute(w, Created(w, provider, true, manager, env), xs);
            s.commits != [] && !OwnReply(w, s.commits[|s.commits| - 1])
  {
    hide Workflows.Valid, OnTime, Created, Execute, OwnReply, Spans, GateInvited, FirstGate, StartsWrong;
    var day :| Spans(w, span, day) && !GateInvited(w, manager, FirstGate(w, day));
    var now, later := PickTime(w, span, day, 0);
    env := Env(true, Fetched, Calendar.Hold("", "", []), now, later, day, _ => false, true);
    WrongStart(w, provider, manager, env);
    xs := WrongWalkCrosses(w, span, Created(w, provider, true, manager, env), env);
  }

  lemma ActsThenInvites(xs: seq<Input>, ys: seq<Input>)
    requires OnlyActs(xs) && InvitesWork(ys)
    ensures InvitesWork(xs + ys)
  {}

  /** Main result. Every named gate of every run in which invites go through is crossed, when accepted or
      declined, on its own approver's reply if and only if the first gate is the invited person's on all the
      weekdays a first walk within the span can meet its steps on. */
  lemma GateSafetyExactly(w: Workflow, provider: string, manager: string, span: Span)
    requires Workflows.Valid(w)
    ensures Sound(w)
    ensures (forall env, xs :: Real(w, span, env, xs) && InvitesWork(xs) ==>
               OwnReplies(w, Execute(w, Created(w, provider, true, manager, env), xs)))
            <==> FirstGateInvited(w, manager, span)
  {
    ValidIsSound(w);
    if FirstGateInvited(w, manager, span) {
      forall env, xs | Real(w, span, env, xs) && InvitesWork(xs)
        ensures OwnReplies(w, Execute(w, Created(w, provider, true, manager, env), xs))
      {
        OnTimeSpans(w, span, env.day, env.now, env.later);
        GatesWaitForTheirApprover(w, provider, true, manager, env, xs);
      }
    } else {
      var env, xs := WrongFirstGate(w, provider, manager, span);
    }
  }

  ghost predicate OwnReplies(w: Workflow, s: Run) {
    forall k :: 0 <= k < |s.commits| ==> OwnReply(w, s.commits[k])
  }

  // ---------------------------------------------------------------------------------------
  // When invites may fail
  // ---------------------------------------------------------------------------------------

  /** Some route brings an item to a named gate while it carries somebody else. */
  ghost predicate Strays(w: Workflow, c: Conditions)
    requires w.steps != []
  {
    exists x, a :: Reachable(w, c, x) && CarriesOther(w, c.manager, x, a)
  }

  predicate CarriesOther(w: Workflow, manager: string, x: Place, a: string) {
    && NamesApprover(w, x.step) && MayCarry(w, manager, x, a)
    && !Calendar.SameEmail(w.steps[x.step].approver, a)
  }

  /** A commit is of a gate whose item carries its approver, unless the workflow strays. */
  lemma CommitIsOwn(w: Workflow, c: Conditions, s: Run)
    requires Sound(w) && !Strays(w, c) && OwnReplies(w, s) && s.pc.Committing?
    requires Tracks(w, c, s) && CommitsAsPlanned(w, s)
    ensures OwnReplies(w, Tick(w, s))
  {
    hide OwnReply, BranchPlan, Sound, Calendar.SameEmail, Reachable;
    var Committing(item, env, commit) := s.pc;
    var x :| Reachable(w, c, x) && x.step == item.step && MayCarry(w, c.manager, x, item.approver);
    assert !CarriesOther(w, c.manager, x, item.approver);
    PlanReadsOwnReply(w, item, env);
    OwnReplyReads(w, commit, Commit(item.step, commit.outcome, commit.from, env.hold, env.now));
  }

  lemma OwnReplyReads(w: Workflow, c: Commit, d: Commit)
    requires OwnReply(w, d) && c.gate == d.gate && c.outcome == d.outcome && c.hold == d.hold
    ensures OwnReply(w, c)
  {}

  lemma ApplyKeepsOwn(w: Workflow, c: Conditions, s: Run, x: Input)
    requires Sound(w) && !Strays(w, c) && OwnReplies(w, s)
    requires Tracks(w, c, s) && CommitsAsPlanned(w, s)
    ensures OwnReplies(w, Apply(w, s, x))
  {
    if x.Act? && s.pc.Committing? {
      CommitIsOwn(w, c, s);
    } else {
      hide OwnReply, Tracks, CommitsAsPlanned, Sound, Strays;
      if x.Act? && s.pc.Walking? { WalkTurnWritesNothing(w, s); }
      assert Apply(w, s, x).commits == s.commits;
    }
  }

  lemma {:induction false} ExecuteKeepsOwn(w: Workflow, c: Conditions, s: Run, xs: seq<Input>)
    requires Sound(w) && !Strays(w, c) && Inv(w, s) && OwnReplies(w, s)
    requires Tracks(w, c, s) && CommitsAsPlanned(w, s)
    requires c.avoid < 0 && Spanned(w, c.span, xs)
    ensures OwnReplies(w, Execute(w, s, xs))
    decreases |xs|
  {
    if xs != [] {
      hide Strays, Sound, OwnReplies, Tracks;
      ApplyKeepsOwn(w, c, s, xs[0]);
      ApplyFollows(w, c, s, xs[0]);
      NextKeeps(w, s, xs[0]);
      NextPlans(w, s, xs[0]);
      assert !HasRead(Apply(w, s, xs[0]), c.avoid);
      assert forall k :: 0 <= k < |xs[1..]| ==> xs[1..][k] == xs[k + 1];
      ExecuteKeepsOwn(w, c, Apply(w, s, xs[0]), xs[1..]);
    }
  }

  /** Without such a route every run whose walks last no longer is safe. */
  lemma NoStrayIsSafe(w: Workflow, c: Conditions, provider: string, watch: bool, env: Env, xs: seq<Input>)
    requires Workflows.Valid(w) && c.avoid < 0 && !Strays(w, c) && Spans(w, c.span, env.day) && Spanned(w, c.span, xs)
    ensures OwnReplies(w, Execute(w, Created(w, provider, watch, c.manager, env), xs))
  {
    ValidIsSound(w);
    var s := Created(w, provider, watch, c.manager, env);
    CreatedOk(w, provider, watch, c.manager, env);
    CreatedFollows(w, c, provider, watch, env);
    hide Strays, Workflows.Valid, Spanned;
    ExecuteKeepsOwn(w, c, s, xs);
  }

  /** A gate that waits for somebody else opens on that somebody's word. */
  lemma StrayIsHeard(w: Workflow, c: Conditions, s: Run, g: int, a: string, t: int) returns (xs: seq<Input>)
    requires WaitsAt(w, c, s, g, a, t) && NamesApprover(w, g) && !Calendar.SameEmail(w.steps[g].approver, a)
    ensures !OwnReplies(w, Execute(w, s, xs)) && Clocked(w, c.span, t, xs)
  {
    var item := s.entry.value;
    var poll := Reading(Answered(a, Calendar.Accepted), t);
    AnsweredIsHeard(item, Calendar.Accepted, w.steps[g].approver);
    PollReads(w, s, poll);
    OneDayIsOnTime(w, c.span, t);
    hide GateResponse, Calendar.ApprovedBy, Calendar.SameEmail, Poll, OnTime;
    xs := [Begin(poll), Act];
    assert xs[1..] == [Act] && [Act][1..] == [];
    var u := Tick(w, Poll(w, s, poll));
    assert Execute(w, s, xs) == u;
    assert !OwnReply(w, u.commits[|s.commits|]);
    assert Clocked(w, c.span, t, [Act]);
  }

  /** With one, some run whose polls read one clock crosses that gate on the other person's reply. */
  lemma StrayRouteCrosses(w: Workflow, c: Conditions) returns (env: Env, xs: seq<Input>)
    requires Workflows.Valid(w) && Sound(w) && Strays(w, c)
    ensures Real(w, c.span, env, xs) && !OwnReplies(w, Execute(w, CreatedIn(w, c.manager, env), xs))
  {
    var x, a :| Reachable(w, c, x) && CarriesOther(w, c.manager, x, a);
    ReachableSpans(w, c, x);
    var now, later := PickTime(w, c.span, x.day, 0);
    var h := Wish(SomeHold(x.count), x.day, now, later, -1, false, Invites(w, x, a));
    hide Workflows.Valid, Stands, Execute, OwnReplies, NewHold, Reachable, OnTime, Clocked;
    NothingPrecedes(w, -1, x.step);
    env, xs := ReachPlace(w, c, x, h);
    var s0 := CreatedIn(w, c.manager, env);
    var s := Execute(w, s0, xs);
    var ys := StopAtGate(w, c, s, x, WishAt(w, c, x, h), a);
    var zs := StrayIsHeard(w, c, Execute(w, s, ys), x.step, a, later);
    ExecuteJoin(w, s, ys, zs);
    ActsTakeNoTime(w, c.span, later, ys);
    ClockedJoin(w, c.span, later, ys, zs);
    RealGoesOn(w, c.span, s0, env, xs, ys + zs);
    xs := xs + (ys + zs);
  }

  /** Main result. Whatever the invites do, every named gate of every run is crossed, when accepted or
      declined, on its own approver's reply if and only if no route brings an item there while it carries
      somebody else; runs and routes are those whose walks last over no more midnights than the span. */
  lemma GateSafetyUnderFailingInvites(w: Workflow, manager: string, span: Span)
    requires Workflows.Valid(w)
    ensures (forall env, xs :: Real(w, span, env, xs) ==> OwnReplies(w, Execute(w, CreatedIn(w, manager, env), xs)))
            <==> !Strays(w, Conditions(manager, span, -1))
  {
    ValidIsSound(w);
    var c := Conditions(manager, span, -1);
    if Strays(w, c) {
      var env, xs := StrayRouteCrosses(w, c);
    } else {
      forall env, xs | Real(w, span, env, xs)
        ensures OwnReplies(w, Execute(w, CreatedIn(w, manager, env), xs))
      {
        OnTimeSpans(w, span, env.day, env.now, env.later);
        ClockedSpans(w, span, env.later, xs);
        NoStrayIsSafe(w, c, "", true, env, xs);
      }
    }
  }
}
