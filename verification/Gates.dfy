/** Gate safety: a gate that names an approver is crossed only on that person's own reply, because
    the item waiting there carries that approver (cmd/daemon.go, cmd/run.go). */
module Gates {
  import opened Base
  import opened Workflows
  import opened Protocol
  import opened Forward
  import opened Refinement
  import opened Clocks
  import Calendar
  import Guards

  // ---------------------------------------------------------------------------------------
  // One gate
  // ---------------------------------------------------------------------------------------

  /** Reading a gate answers for the named approver, on every hold, exactly when the item carries
      that approver's email. */
  lemma GateAnswersForNamedApprover(item: WatchItem, a: string)
    requires a != ""
    ensures (forall hold :: GateResponse(hold, item) == Calendar.Accepted ==> Calendar.ApprovedBy(hold, a))
            <==> Calendar.SameEmail(item.approver, a)
  {
    if Calendar.SameEmail(item.approver, a) {
      assert |item.approver| == |a|;
      forall hold | GateResponse(hold, item) == Calendar.Accepted
        ensures Calendar.ApprovedBy(hold, a)
      {
        SameEmailSameReply(hold.attendees, item.approver, a);
      }
    } else {
      var other := Calendar.Attendee("", item.approver, Calendar.Required, Calendar.Accepted);
      var hold := Calendar.Hold("", "", [other]);
      assert hold.attendees[1..] == [];
      assert Calendar.FirstRequired([other]) == 0;
      assert GateResponse(hold, item) == Calendar.Accepted;
      assert !Calendar.ApprovedBy(hold, a);
    }
  }

  lemma {:induction false} SameEmailSameReply(attendees: seq<Calendar.Attendee>, a: string, b: string)
    requires Calendar.SameEmail(a, b)
    ensures Calendar.ReplyOf(attendees, a) == Calendar.ReplyOf(attendees, b)
  {
    if attendees != [] { SameEmailSameReply(attendees[1..], a, b); }
  }

  /** A stored wait opens at the end of its delay, not before and not after. */
  lemma WaitOpensExactly(w: Workflow, item: WatchItem, hold: Calendar.Hold, now: int)
    requires Valid(w) && 0 <= item.step < |w.steps| && w.steps[item.step].verb == Wait && item.createdAt.Some?
    ensures var d := Parsed(w.steps[item.step].delay);
            && d > 0
            && BranchPlan(w, item, hold, now)
               == if item.createdAt.value + d <= now then Open(Next(w, item.step, ""), Elapsed) else StillWaiting
  {
    assert StepProblem(w, item.step).None?;
  }

  /** A stored approval can expire at all if and only if its timeout is positive. */
  lemma ExpiresExactly(w: Workflow, item: WatchItem)
    requires 0 <= item.step < |w.steps| && w.steps[item.step].verb == Approve && item.createdAt.Some?
    ensures (exists hold, now ::
               BranchPlan(w, item, hold, now) == Open(BranchStart(w, w.steps[item.step], EXPIRED), TimedOut))
            <==> Parsed(w.steps[item.step].timeout) > 0
  {
    var unanswered := Calendar.Hold("", "", []);
    var late := item.createdAt.value + Parsed(w.steps[item.step].timeout) + 1;
    assert GateResponse(unanswered, item) != Calendar.Accepted && GateResponse(unanswered, item) != Calendar.Declined;
    assert Parsed(w.steps[item.step].timeout) > 0 ==>
             BranchPlan(w, item, unanswered, late) == Open(BranchStart(w, w.steps[item.step], EXPIRED), TimedOut);
  }

  /** No poll among the inputs reads an acceptance or a refusal of the item's approver. */
  ghost predicate Unanswered(item: WatchItem, xs: seq<Input>) {
    forall k :: 0 <= k < |xs| && xs[k].Begin? ==> !Replied(xs[k].env.hold, item)
  }

  predicate Replied(hold: Calendar.Hold, item: WatchItem) {
    GateResponse(hold, item) == Calendar.Accepted || GateResponse(hold, item) == Calendar.Declined
  }

  /** The run waits at the gate, whatever poll is under way. */
  predicate StillWaits(s: Run, item: WatchItem) {
    && (s.entry == Some(item) || s.entry.None?)
    && (s.pc.Idle? || (s.pc.Finishing? && s.pc.item == item && (Keeps(s.pc.result) || s.pc.result == PollGone)))
  }

  lemma WaitingGoesOn(w: Workflow, s: Run, item: WatchItem, x: Input)
    requires 0 <= item.step < |w.steps| && w.steps[item.step].verb == Approve
    requires Parsed(w.steps[item.step].timeout) <= 0 && EntryCursor(item) == Waiting(item.step)
    requires StillWaits(s, item) && (x.Begin? ==> !Replied(x.env.hold, item))
    ensures var t := Apply(w, s, x);
            StillWaits(t, item) && t.commits == s.commits && t.log == s.log && t.completed == s.completed
  {}

  /** A timeout of zero or less never expires: without a reply a run stays stored at its gate over any polls
      and crashes, unless its hold vanishes or its provider is pruned, and nothing is performed. */
  lemma {:induction false} NeverExpires(w: Workflow, s: Run, item: WatchItem, xs: seq<Input>)
    requires 0 <= item.step < |w.steps| && w.steps[item.step].verb == Approve
    requires Parsed(w.steps[item.step].timeout) <= 0 && EntryCursor(item) == Waiting(item.step)
    requires StillWaits(s, item) && Unanswered(item, xs)
    ensures var t := Execute(w, s, xs);
            StillWaits(t, item) && t.commits == s.commits && t.log == s.log && t.completed == s.completed
    decreases |xs|
  {
    if xs != [] {
      WaitingGoesOn(w, s, item, xs[0]);
      var rest := xs[1..];
      assert forall k :: 0 <= k < |rest| ==> rest[k] == xs[k + 1];
      NeverExpires(w, Apply(w, s, xs[0]), item, rest);
    }
  }

  // ---------------------------------------------------------------------------------------
  // The first gate
  // ---------------------------------------------------------------------------------------

  /** The gate the first walk meets from step `i` on while the hold has one attendee, or -1, when it meets its
      steps on these weekdays. A cancel ends the flow unless its guard denies. */
  function FirstGateFrom(w: Workflow, day: nat -> Guards.Weekday, i: int): (g: int)
    requires Sound(w)
    ensures g == -1 || (0 <= g < |w.steps| && Waits(w.steps[g].verb))
    decreases Past(w, i)
  {
    if i < 0 || i >= |w.steps| then -1
    else if Waits(w.steps[i].verb) then i
    else if w.steps[i].verb == Cancel && Guards.Allows(w.steps[i].guard, day(i), 1) then -1
    else if Next(w, i, "") < 0 then -1
    else (PastShrinks(w, i); FirstGateFrom(w, day, Next(w, i, "")))
  }

  ghost function FirstGate(w: Workflow, day: nat -> Guards.Weekday): int
    requires Sound(w)
  {
    FirstGateFrom(w, day, Next(w, 0, ""))
  }

  /** The person invited when the hold is created is the one the first gate names, if it names one. */
  ghost predicate GateInvited(w: Workflow, manager: string, g: int) {
    NamesApprover(w, g) ==> Calendar.SameEmail(w.steps[g].approver, FirstInvitee(w, manager))
  }

  /** So it is on all weekdays a first walk can meet its steps on. */
  ghost predicate FirstGateInvited(w: Workflow, manager: string, span: Span)
    requires Sound(w)
  {
    forall day :: Spans(w, span, day) ==> GateInvited(w, manager, FirstGate(w, day))
  }

  /** It is enough that no step before the first approve step sets a next: the first gate met is then a wait
      or that step. */
  lemma {:induction false} FirstApproveIsInvited(w: Workflow, manager: string, day: nat -> Guards.Weekday, i: int)
    requires Sound(w) && FlowsToFirstApprove(w) && (Has(w, Approve) ==> i <= FirstApprove(w))
    ensures GateInvited(w, manager, FirstGateFrom(w, day, i))
    decreases Past(w, i)
  {
    if 0 <= i < |w.steps| && !Waits(w.steps[i].verb) && Next(w, i, "") >= 0 {
      PastShrinks(w, i);
      if Has(w, Approve) { assert i != FirstApprove(w) && Next(w, i, "") == i + 1; }
      FirstApproveIsInvited(w, manager, day, Next(w, i, ""));
    } else if 0 <= i < |w.steps| && w.steps[i].verb == Approve {
      assert Has(w, Approve);
    }
  }

  lemma InvitedManager(w: Workflow, manager: string, hold: Calendar.Hold, created: Calendar.Hold)
    requires Valid(w) && Has(w, Approve)
    requires created.attendees == NewHold(w, hold.id, hold.subject, manager, hold.attendees).attendees
    ensures Calendar.ManagerAttendee(created).email == FirstInvitee(w, manager)
    ensures |created.attendees| == 1 && created.attendees[0].email == FirstInvitee(w, manager)
  {
    assert w.steps[0].verb == Hold;
    assert Calendar.FirstRequired(created.attendees) == 0;
  }

  // ---------------------------------------------------------------------------------------
  // Whole runs
  // ---------------------------------------------------------------------------------------

  ghost predicate Carries(w: Workflow, s: Run, it: WatchItem) {
    NamesApprover(w, it.step) ==>
      Calendar.SameEmail(w.steps[it.step].approver, it.approver) && it.approver in s.invited
  }

  /** A recorded branch of a named gate rests on the named approver's own reply. */
  predicate OwnReply(w: Workflow, c: Commit) {
    NamesApprover(w, c.gate) ==>
      && (c.outcome == Approval ==> Calendar.ApprovedBy(c.hold, w.steps[c.gate].approver))
      && (c.outcome == Refusal ==> Calendar.DeclinedBy(c.hold, w.steps[c.gate].approver))
  }

  ghost predicate PcCarries(w: Workflow, manager: string, s: Run)
    requires Sound(w)
  {
    match s.pc
    case Idle => true
    case Committing(item, env, commit) => Carries(w, s, item) && env.invites && OwnReply(w, commit)
    case Walking(mode, env, at, _) => ModeCarries(w, manager, s, mode, env, at)
    case Performed(mode, env, i, _) =>
      ModeCarries(w, manager, s, mode, env, i) && i < |w.steps| && !Waits(w.steps[i].verb)
    case Arrived(mode, env, gate) => ModeCarries(w, manager, s, mode, env, gate)
    case Forgotten(mode) => mode.Branch? ==> Carries(w, s, mode.item)
    case Finishing(result, item) => Keeps(result) ==> Carries(w, s, item)
  }

  ghost predicate ModeCarries(w: Workflow, manager: string, s: Run, mode: Mode, env: Env, at: int)
    requires Sound(w)
  {
    match mode
    case FirstWalk(_, _) =>
      && (Has(w, Approve) ==>
            && (at >= 0 ==> FirstGateFrom(w, env.day, at) == FirstGate(w, env.day))
            && GateInvited(w, manager, FirstGate(w, env.day))
            && |env.hold.attendees| == 1
            && Calendar.ManagerAttendee(env.hold).email == FirstInvitee(w, manager)
            && FirstInvitee(w, manager) in s.invited)
    case Branch(item, _) => Carries(w, s, item) && env.invites
  }

  ghost predicate Safe(w: Workflow, manager: string, s: Run)
    requires Sound(w)
  {
    && (s.entry.Some? ==> Carries(w, s, s.entry.value))
    && (forall k :: 0 <= k < |s.commits| ==> OwnReply(w, s.commits[k]))
    && PcCarries(w, manager, s)
  }

  lemma WalkStaysSafe(w: Workflow, manager: string, s: Run)
    requires Sound(w) && Safe(w, manager, s) && s.pc.Walking?
    ensures Safe(w, manager, WalkTurn(w, s))
  {
    WalkTurnLeads(w, s);
  }

  lemma FirstArrivalStaysSafe(w: Workflow, manager: string, s: Run)
    requires Sound(w) && Safe(w, manager, s) && s.pc.Arrived? && s.pc.mode.FirstWalk?
    requires s.pc.gate < |w.steps| && Waits(w.steps[s.pc.gate].verb)
    ensures Safe(w, manager, AtArrival(w, s))
  {
    var g := s.pc.gate;
    assert FirstGateFrom(w, s.pc.env.day, g) == g;
    if w.steps[g].verb == Approve { assert Has(w, Approve); }
  }

  lemma ArrivalStaysSafe(w: Workflow, manager: string, s: Run)
    requires Sound(w) && Safe(w, manager, s) && s.pc.Arrived? && s.pc.mode.Branch?
    ensures Safe(w, manager, AtArrival(w, s))
  {}

  lemma PollStaysSafe(w: Workflow, manager: string, s: Run, env: Env)
    requires Sound(w) && Safe(w, manager, s) && env.invites
    requires s.entry.Some? ==> s.entry.value.step >= 0
    ensures Safe(w, manager, Poll(w, s, env))
  {
    hide Calendar.ReplyOf, Calendar.SameEmail, Calendar.ApprovedBy, Calendar.DeclinedBy, GateResponse, OwnReply;
    if s.pc.Idle? && s.entry.Some? && s.entry.value.step < |w.steps| {
      PlanReadsOwnReply(w, s.entry.value, env);
    }
  }

  /** A gate whose item carries its approver opens on that person's reply. */
  lemma PlanReadsOwnReply(w: Workflow, item: WatchItem, env: Env)
    requires 0 <= item.step < |w.steps|
    requires NamesApprover(w, item.step) ==> Calendar.SameEmail(w.steps[item.step].approver, item.approver)
    ensures var plan := BranchPlan(w, item, env.hold, env.now);
            plan.Open? ==> OwnReply(w, Commit(item.step, plan.outcome, plan.from, env.hold, env.now))
  {
    if NamesApprover(w, item.step) {
      assert |w.steps[item.step].approver| == |item.approver|;
      SameEmailSameReply(env.hold.attendees, w.steps[item.step].approver, item.approver);
    }
  }

  lemma TickStaysSafe(w: Workflow, manager: string, s: Run)
    requires Sound(w) && PcOk(w, s) && Safe(w, manager, s)
    ensures Safe(w, manager, Tick(w, s))
  {
    match s.pc {
      case Walking(_, _, _, _) => WalkStaysSafe(w, manager, s);
      case Performed(_, _, _, _) => EffectStaysSafe(w, manager, s);
      case Arrived(mode, _, _) =>
        if mode.Branch? { ArrivalStaysSafe(w, manager, s); } else { FirstArrivalStaysSafe(w, manager, s); }
      case _ => RestStaysSafe(w, manager, s);
    }
    hide Sound, Safe, WalkTurn, AtArrival, AfterEffect;
  }

  lemma RestStaysSafe(w: Workflow, manager: string, s: Run)
    requires Sound(w) && PcOk(w, s) && Safe(w, manager, s)
    requires s.pc.Idle? || s.pc.Committing? || s.pc.Forgotten? || s.pc.Finishing?
    ensures Safe(w, manager, Tick(w, s))
  {
    hide Sound, OwnReply, Calendar.SameEmail, NamesApprover;
  }

  lemma EffectStaysSafe(w: Workflow, manager: string, s: Run)
    requires Sound(w) && PcOk(w, s) && Safe(w, manager, s) && s.pc.Performed?
    ensures Safe(w, manager, AfterEffect(w, s))
  {
    hide Sound, OwnReply, Calendar.SameEmail, NamesApprover;
  }

  ghost predicate InvitesWork(xs: seq<Input>) {
    forall k :: 0 <= k < |xs| && xs[k].Begin? ==> xs[k].env.invites
  }

  lemma {:induction false} ExecuteStaysSafe(w: Workflow, manager: string, s: Run, xs: seq<Input>)
    requires Sound(w) && Inv(w, s) && Safe(w, manager, s)
    requires InvitesWork(xs)
    ensures Safe(w, manager, Execute(w, s, xs))
    decreases |xs|
  {
    if xs != [] {
      NextStaysSafe(w, manager, s, xs[0]);
      NextKeeps(w, s, xs[0]);
      hide Sound, Inv, Safe, Apply;
      var rest := xs[1..];
      assert forall k :: 0 <= k < |rest| ==> rest[k] == xs[k + 1];
      ExecuteStaysSafe(w, manager, Apply(w, s, xs[0]), rest);
    }
  }

  lemma NextStaysSafe(w: Workflow, manager: string, s: Run, x: Input)
    requires Sound(w) && Inv(w, s) && Safe(w, manager, s) && (x.Begin? ==> x.env.invites)
    ensures Safe(w, manager, Apply(w, s, x))
  {
    match x {
      case Begin(env) => PollStaysSafe(w, manager, s, env);
      case Act => TickStaysSafe(w, manager, s);
      case _ =>
    }
    hide Sound, Inv, Poll, Tick, Carries, OwnReply;
  }

  /** Main result. When invites go through and the first gate met is that of the person invited at
      creation, every stored item carries, and was sent to, the approver its gate names, and every
      such gate ever crossed as accepted or declined was crossed on that person's own reply. */
  lemma GatesWaitForTheirApprover(w: Workflow, provider: string, watch: bool, manager: string,
                                  env: Env, xs: seq<Input>)
    requires Valid(w)
    requires Sound(w) ==> GateInvited(w, manager, FirstGate(w, env.day))
    requires InvitesWork(xs)
    ensures var s := Execute(w, Created(w, provider, watch, manager, env), xs);
            && (s.entry.Some? ==> Carries(w, s, s.entry.value))
            && (forall k :: 0 <= k < |s.commits| ==> OwnReply(w, s.commits[k]))
  {
    ValidIsSound(w);
    var s0 := Created(w, provider, watch, manager, env);
    CreatedOk(w, provider, watch, manager, env);
    if Has(w, Approve) { InvitedManager(w, manager, env.hold, s0.pc.env.hold); }
    ExecuteStaysSafe(w, manager, s0, xs);
  }

  /** When no step before the first approve step sets a next and invites go through, that is so in all runs,
      whoever the manager is and whatever the guards answer. */
  lemma FileOrderIsSafe(w: Workflow, provider: string, watch: bool, manager: string, env: Env, xs: seq<Input>)
    requires Valid(w) && FlowsToFirstApprove(w) && InvitesWork(xs)
    ensures var s := Execute(w, Created(w, provider, watch, manager, env), xs);
            && (s.entry.Some? ==> Carries(w, s, s.entry.value))
            && (forall k :: 0 <= k < |s.commits| ==> OwnReply(w, s.commits[k]))
  {
    ValidIsSound(w);
    if Has(w, Approve) { assert w.steps[0].verb == Hold && FirstApprove(w) > 0; }
    FirstApproveIsInvited(w, manager, env.day, Next(w, 0, ""));
    hide Valid;
    GatesWaitForTheirApprover(w, provider, watch, manager, env, xs);
  }
}
