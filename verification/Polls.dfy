/** What one poll comes to, without the machine: which branch an answer opens, what the walk of that branch
    performs and where it stops, and when the hold leaves the watch file (cmd/daemon.go, cmd/run.go). */
module Polls {
  import opened Base
  import opened Workflows
  import opened Protocol
  import opened Forward
  import opened Refinement
  import opened Routes
  import Calendar
  import Guards

  // ---------------------------------------------------------------------------------------
  // Which branch an answer opens
  // ---------------------------------------------------------------------------------------

  /** The one a gate listens to replied `r`: the first attendee with the carried email, or without one the
      attendee treated as the manager. */
  ghost predicate Hears(hold: Calendar.Hold, email: string, r: Calendar.Response) {
    exists i ::
      && (if email != "" then Calendar.IsFirst(hold.attendees, email, i) else Calendar.IsManager(hold.attendees, i))
      && hold.attendees[i].response == r
  }

  /** A poll at time `now` with these replies reads this outcome at the item's gate. */
  ghost predicate Reads(w: Workflow, item: WatchItem, hold: Calendar.Hold, now: int, o: GateOutcome)
    requires 0 <= item.step < |w.steps|
  {
    var s := w.steps[item.step];
    var accepts := Hears(hold, item.approver, Calendar.Accepted);
    var declines := Hears(hold, item.approver, Calendar.Declined);
    match o
    case Elapsed =>
      && s.verb == Wait && s.delay.Units? && s.delay.n > 0
      && item.createdAt.Some? && item.createdAt.value + s.delay.n <= now
    case Approval => s.verb == Approve && accepts
    case Refusal => s.verb == Approve && declines
    case TimedOut =>
      && s.verb == Approve && !accepts && !declines && s.timeout.Units? && s.timeout.n > 0
      && item.createdAt.Some? && item.createdAt.value + s.timeout.n < now
  }

  /** A target is the one step of its name, or the end. */
  ghost predicate LandsOn(w: Workflow, target: string, j: int) {
    if target == "end" then j == -1 else IsOnlyStepNamed(w, j, target)
  }

  /** The flow goes on from step `i` to step `j`: its next, or the following step. */
  ghost predicate GoesOn(w: Workflow, i: nat, j: int)
    requires i < |w.steps|
  {
    if w.steps[i].next != "" then LandsOn(w, w.steps[i].next, j) else j == if i + 1 < |w.steps| then i + 1 else -1
  }

  /** The branch of a gate for an outcome starts at step `j`. An acceptance without a branch goes on; a
      refusal or a timeout without one ends the flow. */
  ghost predicate Branches(w: Workflow, gate: nat, o: GateOutcome, j: int)
    requires gate < |w.steps|
  {
    var s := w.steps[gate];
    match o
    case Elapsed => s.verb == Wait && GoesOn(w, gate, j)
    case Approval =>
      s.verb == Approve && if "accepted" in s.on then LandsOn(w, s.on["accepted"], j) else GoesOn(w, gate, j)
    case Refusal =>
      s.verb == Approve && if "declined" in s.on then LandsOn(w, s.on["declined"], j) else j == -1
    case TimedOut => s.verb == Approve && "expired" in s.on && LandsOn(w, s.on["expired"], j)
  }

  lemma HeardExactly(hold: Calendar.Hold, item: WatchItem)
    ensures GateResponse(hold, item) == Calendar.Accepted <==> Hears(hold, item.approver, Calendar.Accepted)
    ensures GateResponse(hold, item) == Calendar.Declined <==> Hears(hold, item.approver, Calendar.Declined)
  {
    if item.approver == "" {
      OneManager(hold);
    } else {
      OneReply(hold.attendees, item.approver);
    }
    hide Calendar.ReplyOf, Calendar.ManagerAttendee, Calendar.SameEmail;
  }

  lemma OneManager(hold: Calendar.Hold)
    ensures forall i :: Calendar.IsManager(hold.attendees, i) ==> hold.attendees[i] == Calendar.ManagerAttendee(hold)
    ensures hold.attendees != [] ==> exists i :: Calendar.IsManager(hold.attendees, i)
    ensures hold.attendees == [] ==> Calendar.ManagerAttendee(hold).response == Calendar.Blank
  {
    var manager := Calendar.ManagerAttendee(hold);
  }

  lemma OneReply(attendees: seq<Calendar.Attendee>, email: string)
    ensures forall i :: Calendar.IsFirst(attendees, email, i) ==>
              Calendar.ReplyOf(attendees, email) == attendees[i].response
    ensures (forall i :: !Calendar.IsFirst(attendees, email, i)) ==>
              Calendar.ReplyOf(attendees, email) == Calendar.NotResponded
  {}

  lemma OneBranch(w: Workflow, gate: nat, o: GateOutcome, j: int, k: int)
    requires gate < |w.steps| && Branches(w, gate, o, j) && Branches(w, gate, o, k)
    ensures j == k
  {}

  lemma BranchStartLands(w: Workflow, i: nat, outcome: string)
    requires Valid(w) && i < |w.steps| && outcome in w.steps[i].on
    ensures LandsOn(w, w.steps[i].on[outcome], BranchStart(w, w.steps[i], outcome))
  {
    var s := w.steps[i];
    assert BranchesResolve(w, s) && KnownTarget(w, s.on[outcome]);
    forall k, r | 0 <= k < r < |w.steps| && w.steps[k].id == w.steps[r].id
      ensures w.steps[r].id == ""
    {
      assert StepProblem(w, r).None?;
    }
    hide Valid, StepProblem;
  }

  lemma OpenedBranches(w: Workflow, i: nat)
    requires Valid(w) && i < |w.steps|
    ensures w.steps[i].verb == Wait ==> Branches(w, i, Elapsed, Next(w, i, ""))
    ensures w.steps[i].verb == Approve ==>
              && Branches(w, i, Approval, Next(w, i, ACCEPTED))
              && Branches(w, i, Refusal, BranchStart(w, w.steps[i], DECLINED))
              && (Parsed(w.steps[i].timeout) > 0 ==> Branches(w, i, TimedOut, BranchStart(w, w.steps[i], EXPIRED)))
  {
    TargetsLand(w, i, "");
    TargetsLand(w, i, ACCEPTED);
    if DECLINED in w.steps[i].on { BranchStartLands(w, i, DECLINED); }
    if EXPIRED in w.steps[i].on { BranchStartLands(w, i, EXPIRED); }
    assert StepProblem(w, i).None?;
    hide Valid, Next, BranchStart, IsOnlyStepNamed;
  }

  /** Reading a gate, told by the replies and the clock: it opens with an outcome onto a step exactly when that
      outcome is read and that step starts its branch. */
  lemma PlanExactly(w: Workflow, item: WatchItem, hold: Calendar.Hold, now: int, o: GateOutcome, j: int)
    requires Valid(w) && 0 <= item.step < |w.steps| && Waits(w.steps[item.step].verb)
    ensures BranchPlan(w, item, hold, now) == Open(j, o)
            <==> Reads(w, item, hold, now, o) && Branches(w, item.step, o, j)
  {
    var i := item.step;
    HeardExactly(hold, item);
    OpenedBranches(w, i);
    hide Valid, GateResponse, Hears, Branches, Next, BranchStart;
    var plan := BranchPlan(w, item, hold, now);
    if plan.Open? && Branches(w, i, o, j) && plan.outcome == o { OneBranch(w, i, o, j, plan.from); }
  }

  /** An opened gate opens with an outcome that is read. */
  lemma OutcomeIsRead(w: Workflow, item: WatchItem, hold: Calendar.Hold, now: int)
    requires 0 <= item.step < |w.steps| && Waits(w.steps[item.step].verb)
    ensures var plan := BranchPlan(w, item, hold, now);
            plan.Open? ==> Reads(w, item, hold, now, plan.outcome)
  {
    HeardExactly(hold, item);
    hide GateResponse, Hears, Next, BranchStart;
  }

  /** A recorded branch starts where its gate sends that outcome. */
  ghost predicate RightBranch(w: Workflow, c: Commit) {
    c.gate < |w.steps| && Branches(w, c.gate, c.outcome, c.from)
  }

  ghost predicate AllRight(w: Workflow, s: Run) {
    && (forall k :: 0 <= k < |s.commits| ==> RightBranch(w, s.commits[k]))
    && (s.pc.Committing? ==> RightBranch(w, s.pc.commit))
  }

  lemma PollIsRight(w: Workflow, s: Run, env: Env)
    requires Valid(w) && Inv(w, s) && AllRight(w, s)
    ensures AllRight(w, Poll(w, s, env))
  {
    var t := Poll(w, s, env);
    if t.pc.Committing? && !s.pc.Committing? {
      var item := s.entry.value;
      PlanExactly(w, item, env.hold, env.now, t.pc.commit.outcome, t.pc.commit.from);
    }
    hide Valid, Branches, BranchPlan, Reads;
  }

  lemma TickIsRight(w: Workflow, s: Run)
    requires AllRight(w, s)
    ensures AllRight(w, Tick(w, s))
  {
    hide RightBranch, Next, NamesApprover;
    if s.pc.Walking? {
      WalkTurnWritesNothing(w, s);
      WalkNeverCommits(w, s);
      hide WalkTurn;
    }
  }

  lemma WalkNeverCommits(w: Workflow, s: Run)
    requires s.pc.Walking?
    ensures !WalkTurn(w, s).pc.Committing?
  {}

  lemma {:induction false} ExecuteIsRight(w: Workflow, s: Run, xs: seq<Input>)
    requires Valid(w) && Sound(w) && Inv(w, s) && AllRight(w, s)
    ensures AllRight(w, Execute(w, s, xs))
    decreases |xs|
  {
    if xs != [] {
      match xs[0] {
        case Begin(env) => PollIsRight(w, s, env);
        case Act => TickIsRight(w, s);
        case _ =>
      }
      NextKeeps(w, s, xs[0]);
      hide Valid, Sound, Inv, Poll, Tick, RightBranch;
      ExecuteIsRight(w, Apply(w, s, xs[0]), xs[1..]);
    }
  }

  /** Main result on answers. Every branch an accepted workflow's run ever committed started where its gate
      sends that outcome: an acceptance at the accepted target or the next step, a refusal at the declined
      target or the end, a timeout at the expired target. */
  lemma CommitsFollowAnswers(w: Workflow, s: Run, k: nat)
    requires Valid(w) && Reached(w, s) && k < |s.commits|
    ensures RightBranch(w, s.commits[k])
  {
    ValidIsSound(w);
    var provider, watch, manager, env, xs :| s == Execute(w, Created(w, provider, watch, manager, env), xs);
    CreatedOk(w, provider, watch, manager, env);
    hide Valid, Sound, Inv;
    ExecuteIsRight(w, Created(w, provider, watch, manager, env), xs);
  }

  /** The action after the reading of a gate. */
  lemma WaitingRead(w: Workflow, s: Run, env: Env)
    requires Sound(w) && Inv(w, s) && s.pc.Idle? && s.alive && CursorOf(s).Waiting?
    requires env.loads && env.fetch.Fetched?
    ensures s.entry.Some? && 0 <= s.entry.value.step < |w.steps| && Waits(w.steps[s.entry.value.step].verb)
    ensures var t, item := Execute(w, s, [Begin(env), Act]), s.entry.value;
            match BranchPlan(w, item, env.hold, env.now)
            case StillWaiting => t == s
            case Open(j, o) =>
              && t.commits == s.commits + [Commit(item.step, o, j, env.hold, env.now)] && t.log == s.log
              && CursorOf(t) == if j < 0 then Ended else Running(j)
  {
    OpensPastStart(w, s, env);
    WaitingPoll(w, s, env);
    hide Sound, Inv, BranchPlan, Execute, Poll;
    var b := Poll(w, s, env);
    TwoInputs(w, s, Begin(env), Act);
    if b.pc.Committing? {
      CommitTick(w, b);
      hide Tick;
    }
  }

  /** No gate opens onto step 0. */
  lemma OpensPastStart(w: Workflow, s: Run, env: Env)
    requires Sound(w) && Inv(w, s) && s.entry.Some?
    ensures var item := s.entry.value;
            && 0 <= item.step < |w.steps| && Waits(w.steps[item.step].verb)
            && var plan := BranchPlan(w, item, env.hold, env.now);
               plan.Open? ==> plan.from != 0
  {
    PlanMoveIsEdge(w, s.entry.value, env);
    NothingReturnsToStart(w, s.entry.value.step);
    hide BranchPlan, PcOk, HistoryOk;
  }

  lemma TwoInputs(w: Workflow, s: Run, x: Input, y: Input)
    ensures Execute(w, s, [x, y]) == Apply(w, Apply(w, s, x), y)
  {
    hide Apply;
    assert [x, y][1..] == [y] && [y][1..] == [];
    assert Execute(w, Apply(w, s, x), [y]) == Apply(w, Apply(w, s, x), y);
  }

  lemma WaitingPoll(w: Workflow, s: Run, env: Env)
    requires s.pc.Idle? && s.alive && s.entry.Some? && EntryCursor(s.entry.value).Waiting?
    requires 0 <= s.entry.value.step < |w.steps| && env.loads && env.fetch.Fetched?
    ensures var item := s.entry.value;
            Poll(w, s, env)
            == s.(pc := match BranchPlan(w, item, env.hold, env.now)
                        case StillWaiting => Finishing(PollPending, item)
                        case Open(j, o) => Committing(item, env, Commit(item.step, o, j, env.hold, env.now)))
  {
    hide BranchPlan;
  }

  /** And it is the answer of the poll that read the gate: a poll of a waiting run that can load the workflow
      and fetch the hold commits exactly the outcome it reads, and changes nothing when it reads none. */
  lemma AnswerCommits(w: Workflow, s: Run, env: Env)
    requires Valid(w) && Reached(w, s) && s.pc.Idle? && s.alive && CursorOf(s).Waiting?
    requires env.loads && env.fetch.Fetched?
    ensures s.entry.Some? && 0 <= s.entry.value.step < |w.steps|
    ensures var t, item := Execute(w, s, [Begin(env), Act]), s.entry.value;
            && (forall o, j :: Reads(w, item, env.hold, env.now, o) && Branches(w, item.step, o, j) ==>
                  && t.commits == s.commits + [Commit(item.step, o, j, env.hold, env.now)] && t.log == s.log
                  && CursorOf(t) == if j < 0 then Ended else Running(j))
            && ((forall o :: !Reads(w, item, env.hold, env.now, o)) ==> t == s)
  {
    ReachedOk(w, s);
    WaitingRead(w, s, env);
    hide Reached, Sound, Inv, CursorOf, Execute;
    var item := s.entry.value;
    var plan := BranchPlan(w, item, env.hold, env.now);
    if plan.Open? { PlanExactly(w, item, env.hold, env.now, plan.outcome, plan.from); }
    forall o, j | Reads(w, item, env.hold, env.now, o) && Branches(w, item.step, o, j)
      ensures plan == Open(j, o)
    {
      PlanExactly(w, item, env.hold, env.now, o, j);
    }
    hide Valid, Branches, Reads, BranchPlan;
  }

  // ---------------------------------------------------------------------------------------
  // What a walk comes to
  // ---------------------------------------------------------------------------------------

  /** Where a walk stops: at a gate, at a step that fails, at a cancel, or at the end of the flow. */
  datatype Halt = GateMet(gate: nat) | Failed(step: nat) | Cancelled | RanOut

  datatype Path = Path(effects: seq<nat>, halt: Halt)

  /** The walk performs step `i`: its guard allows it, and it has something to perform. */
  predicate Performs(w: Workflow, env: Env, i: nat)
    requires i < |w.steps|
  {
    && Guards.Allows(w.steps[i].guard, env.day(i), |env.hold.attendees|)
    && w.steps[i].verb in [Notify, Note, Message, Leave, Cancel]
  }

  /** The walk from step `i`, in the terms of the flow alone. */
  function PathFrom(w: Workflow, env: Env, i: int): Path
    requires Sound(w)
    decreases Past(w, i)
  {
    if i < 0 || i >= |w.steps| then Path([], RanOut)
    else if w.steps[i].verb == Approve || w.steps[i].verb == Wait then Path([], GateMet(i))
    else if Performs(w, env, i) && env.fails(i) then Path([], Failed(i))
    else if Performs(w, env, i) && w.steps[i].verb == Cancel then Path([i], Cancelled)
    else
      var j := Next(w, i, "");
      var rest := if j < 0 then Path([], RanOut) else (PastShrinks(w, i); PathFrom(w, env, j));
      if Performs(w, env, i) then Path([i] + rest.effects, rest.halt) else rest
  }

  /** The entry a walk leaves in the file. */
  function EntryAfter(w: Workflow, mode: Mode, env: Env, halt: Halt): Option<WatchItem> {
    match (mode, halt)
    case (FirstWalk(provider, watch), GateMet(g)) =>
      if !watch || g >= |w.steps| then None
      else
        var approver := if w.steps[g].verb == Wait then "" else Calendar.ManagerAttendee(env.hold).email;
        Some(WatchItem(provider, env.hold.id, w.name, g, 0, false, approver, env.hold.subject, Some(env.later)))
    case (Branch(item, _), GateMet(g)) =>
      var approver := if !NamesItsOwn(w, g) then "" else if env.invites then w.steps[g].approver else item.approver;
      Some(item.(step := g, resume := 0, createdAt := Some(env.later), approver := approver))
    case (Branch(item, _), Failed(i)) => Some(item.(resume := i))
    case _ => None
  }

  predicate NamesItsOwn(w: Workflow, g: nat) {
    g < |w.steps| && w.steps[g].verb == Approve && w.steps[g].approver != ""
  }

  /** Whom the arrival at a gate invites. */
  function InvitedAfter(w: Workflow, mode: Mode, env: Env, halt: Halt): set<string> {
    if mode.Branch? && halt.GateMet? && NamesItsOwn(w, halt.gate) && env.invites then {w.steps[halt.gate].approver}
    else {}
  }

  /** `t` is what a walk along path `p` makes of `s`. */
  ghost predicate Came(w: Workflow, s: Run, t: Run, mode: Mode, env: Env, p: Path) {
    && t.pc.Idle? && t.log == s.log + p.effects && t.commits == s.commits
    && t.alive == (s.alive && p.halt != Cancelled)
    && t.entry == EntryAfter(w, mode, env, p.halt)
    && t.invited == s.invited + InvitedAfter(w, mode, env, p.halt)
  }

  /** One turn of the walk, case by case. */
  lemma TurnExactly(w: Workflow, s: Run)
    requires Sound(w) && Inv(w, s) && s.pc.Walking? && 0 <= s.pc.at < |w.steps|
    ensures var t, Walking(mode, env, i, visited) := WalkTurn(w, s), s.pc;
            if Waits(w.steps[i].verb) then t == s.(pc := Arrived(mode, env, i))
            else if !Performs(w, env, i) then t == s.(pc := Walking(mode, env, Next(w, i, ""), visited + {i}))
            else if env.fails(i) then
              t == s.(pc := if mode.FirstWalk? then Idle else Finishing(PollFailed, mode.item.(resume := i)))
            else
              t == s.(log := s.log + [i], alive := s.alive && w.steps[i].verb != Cancel,
                      pc := Performed(mode, env, i, visited + {i}))
  {
    assert s.pc.at !in s.pc.visited by { assert !Precedes(w, s.pc.at, s.pc.at); }
    if Waits(w.steps[s.pc.at].verb) { GatesAreUnguarded(w, s.pc.at, s.pc.env); }
    hide Inv, Sound, Guards.Allows, Next;
  }

  lemma OffGraphTurn(w: Workflow, s: Run)
    requires Inv(w, s) && s.pc.Walking? && !(0 <= s.pc.at < |w.steps|)
    ensures var t, mode := WalkTurn(w, s), s.pc.mode;
            && t.entry == s.entry && t.log == s.log && t.commits == s.commits && t.alive == s.alive
            && t.invited == s.invited
            && t.pc == if mode.FirstWalk? then Idle else Finishing(mode.onEnd, mode.item.(resume := 0))
  {}

  /** A finished walk is stored, or the entry is dropped. */
  lemma FinishComesTo(w: Workflow, s: Run)
    requires s.pc.Finishing?
    ensures var t := Settle(w, s);
            && t.pc.Idle? && t.log == s.log && t.commits == s.commits && t.alive == s.alive && t.invited == s.invited
            && t.entry == if s.pc.result in [PollAdvanced, PollPending, PollFailed] then Some(s.pc.item) else None
  {
    SettleTick(w, s);
    assert Settle(w, Tick(w, s)) == Tick(w, s);
  }

  lemma GateIsItem(w: Workflow, item: WatchItem, onEnd: PollResult, env: Env, g: nat)
    ensures EntryAfter(w, Branch(item, onEnd), env, GateMet(g)) == Some(AtGate(w, item, env, g))
    ensures NamesApprover(w, g) == NamesItsOwn(w, g)
  {}

  lemma BranchArrives(w: Workflow, s: Run)
    requires s.pc.Arrived? && s.pc.mode.Branch?
    ensures Came(w, s, Settle(w, s), s.pc.mode, s.pc.env, Path([], GateMet(s.pc.gate)))
  {
    var t := AtArrival(w, s);
    SettleTick(w, s);
    assert Tick(w, s) == t;
    GateIsItem(w, s.pc.mode.item, s.pc.mode.onEnd, s.pc.env, s.pc.gate);
    hide Settle, Tick, AtGate, EntryAfter, NamesApprover, NamesItsOwn;
    FinishComesTo(w, t);
  }

  lemma FirstWalkArrives(w: Workflow, s: Run)
    requires s.pc.Arrived? && s.pc.mode.FirstWalk? && s.entry.None?
    ensures Came(w, s, Settle(w, s), s.pc.mode, s.pc.env, Path([], GateMet(s.pc.gate)))
  {
    var t := AtArrival(w, s);
    SettleTick(w, s);
    assert Tick(w, s) == t && Settle(w, t) == t;
    hide Settle, Tick, AtGate, NamesApprover, NamesItsOwn;
  }

  lemma ArrivalComesTo(w: Workflow, s: Run)
    requires PcOk(w, s) && s.pc.Arrived?
    ensures Came(w, s, Settle(w, s), s.pc.mode, s.pc.env, Path([], GateMet(s.pc.gate)))
  {
    if s.pc.mode.Branch? { BranchArrives(w, s); } else { FirstWalkArrives(w, s); }
    hide Settle, Came;
  }

  lemma CancelComesTo(w: Workflow, s: Run)
    requires PcOk(w, s) && s.pc.Performed? && w.steps[s.pc.step].verb == Cancel
    ensures Came(w, s, Settle(w, s), s.pc.mode, s.pc.env, Path([], RanOut))
  {
    SettleTick(w, s);
    var t := Tick(w, s);
    SettleTick(w, t);
    var u := Tick(w, t);
    if s.pc.mode.Branch? {
      FinishComesTo(w, u);
      hide Settle;
    } else {
      assert Settle(w, u) == u;
    }
  }

  lemma EndComesTo(w: Workflow, s: Run, t: Run)
    requires PcOk(w, s) && s.pc.Walking?
    requires t == WalkTurn(w, s) && t.entry == s.entry && t.log == s.log && t.commits == s.commits
    requires t.alive == s.alive && t.invited == s.invited
    requires t.pc == if s.pc.mode.FirstWalk? then Idle else Finishing(s.pc.mode.onEnd, s.pc.mode.item.(resume := 0))
    ensures Came(w, s, Settle(w, t), s.pc.mode, s.pc.env, Path([], RanOut))
  {
    if s.pc.mode.Branch? {
      FinishComesTo(w, t);
      hide Settle, WalkTurn;
    } else {
      assert Settle(w, t) == t;
    }
  }

  lemma FailureComesTo(w: Workflow, s: Run, t: Run, i: nat)
    requires PcOk(w, s) && s.pc.Walking?
    requires t == s.(pc := if s.pc.mode.FirstWalk? then Idle else Finishing(PollFailed, s.pc.mode.item.(resume := i)))
    ensures Came(w, s, Settle(w, t), s.pc.mode, s.pc.env, Path([], Failed(i)))
  {
    if s.pc.mode.Branch? {
      FinishComesTo(w, t);
      hide Settle;
    } else {
      assert Settle(w, t) == t;
    }
  }

  /** A walk comes to its path: it performs exactly the effects of the path, in order, and leaves the entry and
      the invitation of the place where it stops. */
  lemma {:induction false} WalkComesTo(w: Workflow, s: Run)
    requires Sound(w) && Inv(w, s) && s.pc.Walking?
    ensures var Walking(mode, env, i, _) := s.pc;
            Came(w, s, Settle(w, s), mode, env, PathFrom(w, env, i))
    decreases Remaining(w, s.pc), 0
  {
    var Walking(mode, env, i, visited) := s.pc;
    var t := WalkTurn(w, s);
    hide WalkTurn, Remaining, PathFrom, Came, Performs, Next;
    SettleTick(w, s);
    assert Tick(w, s) == t;
    NextKeeps(w, s, Act);
    TickProgresses(w, s);
    if i < 0 || i >= |w.steps| {
      OffGraphTurn(w, s);
      InvPcOk(w, s);
      EndComesTo(w, s, t);
      PathEnds(w, env, i);
    } else {
      OnGraphComesTo(w, s, t);
    }
  }

  lemma {:induction false} OnGraphComesTo(w: Workflow, s: Run, t: Run)
    requires Sound(w) && Inv(w, s) && s.pc.Walking? && Inv(w, t) && 0 <= s.pc.at < |w.steps|
    requires t == WalkTurn(w, s) && Remaining(w, t.pc) < Remaining(w, s.pc)
    ensures Came(w, s, Settle(w, t), s.pc.mode, s.pc.env, PathFrom(w, s.pc.env, s.pc.at))
    decreases Remaining(w, t.pc), 1
  {
    var Walking(mode, env, i, visited) := s.pc;
    TurnExactly(w, s);
    PathStep(w, env, i);
    InvPcOk(w, t);
    InvPcOk(w, s);
    assert Tick(w, s) == WalkTurn(w, s);
    hide Sound, Inv, PcOk, Settle, WalkTurn, Tick, PathFrom, Performs, Came, Remaining, Next;
    if Waits(w.steps[i].verb) {
      ArrivalComesTo(w, t);
      SameStart(w, t, s, Settle(w, t), mode, env, Path([], GateMet(i)));
    } else if !Performs(w, env, i) {
      WalkComesTo(w, t);
      SameStart(w, t, s, Settle(w, t), mode, env, PathFrom(w, env, i));
    } else if env.fails(i) {
      FailureComesTo(w, s, t, i);
    } else {
      EffectComesTo(w, s, t);
    }
  }

  lemma InvPcOk(w: Workflow, s: Run)
    requires Inv(w, s)
    ensures PcOk(w, s)
  {}

  lemma PathEnds(w: Workflow, env: Env, i: int)
    requires Sound(w) && !(0 <= i < |w.steps|)
    ensures PathFrom(w, env, i) == Path([], RanOut)
  {}

  lemma PathStep(w: Workflow, env: Env, i: nat)
    requires Sound(w) && i < |w.steps|
    ensures PathFrom(w, env, i)
            == if Waits(w.steps[i].verb) then Path([], GateMet(i))
               else if !Performs(w, env, i) then PathFrom(w, env, Next(w, i, ""))
               else if env.fails(i) then Path([], Failed(i))
               else if w.steps[i].verb == Cancel then Path([i], Cancelled)
               else
                 var rest := PathFrom(w, env, Next(w, i, ""));
                 Path([i] + rest.effects, rest.halt)
  {
    hide Performs, Sound, Past;
  }

  lemma SameStart(w: Workflow, s: Run, r: Run, t: Run, mode: Mode, env: Env, p: Path)
    requires Came(w, s, t, mode, env, p)
    requires r.log == s.log && r.commits == s.commits && r.alive == s.alive && r.invited == s.invited
    ensures Came(w, r, t, mode, env, p)
  {}

  /** After an effect that is no cancel the walk goes on, with the effect done. */
  lemma EffectGoesOn(w: Workflow, s: Run)
    requires PcOk(w, s) && s.pc.Performed? && w.steps[s.pc.step].verb != Cancel
    ensures var t, Performed(mode, env, i, visited) := Tick(w, s), s.pc;
            && t.pc == Walking(mode, env, Next(w, i, ""), visited)
            && t.log == s.log && t.commits == s.commits && t.alive == s.alive && t.invited == s.invited
  {
    hide Next;
  }

  lemma EffectCounts(w: Workflow, s: Run, u: Run, t: Run, i: nat, mode: Mode, env: Env, p: Path)
    requires Came(w, u, t, mode, env, p)
    requires u.log == s.log + [i] && u.commits == s.commits && u.alive == s.alive && u.invited == s.invited
    ensures Came(w, s, t, mode, env, Path([i] + p.effects, p.halt))
  {
    assert s.log + [i] + p.effects == s.log + ([i] + p.effects);
  }

  lemma {:induction false} EffectComesTo(w: Workflow, s: Run, t: Run)
    requires Sound(w) && Inv(w, s) && s.pc.Walking? && Inv(w, t) && 0 <= s.pc.at < |w.steps|
    requires t == Tick(w, s)
    requires var Walking(mode, env, i, visited) := s.pc;
             && Performs(w, env, i) && !env.fails(i) && !Waits(w.steps[i].verb)
             && t == s.(log := s.log + [i], alive := s.alive && w.steps[i].verb != Cancel,
                        pc := Performed(mode, env, i, visited + {i}))
    requires Remaining(w, t.pc) < Remaining(w, s.pc)
    ensures Came(w, s, Settle(w, t), s.pc.mode, s.pc.env, PathFrom(w, s.pc.env, s.pc.at))
    decreases Remaining(w, t.pc), 0
  {
    var Walking(mode, env, i, visited) := s.pc;
    PathStep(w, env, i);
    InvPcOk(w, t);
    hide PathFrom, Performs, Inv, Settle, Tick, PcOk, Came;
    if w.steps[i].verb == Cancel {
      CancelComesTo(w, t);
      CancelCounts(w, s, t, Settle(w, t), i, mode, env);
    } else {
      EffectGoesOn(w, t);
      SettleTick(w, t);
      NextKeeps(w, t, Act);
      assert Apply(w, t, Act) == Tick(w, t);
      TickProgresses(w, t);
      hide Sound, Remaining, Next, Apply;
      WalkComesTo(w, Tick(w, t));
      EffectCounts(w, s, Tick(w, t), Settle(w, t), i, mode, env, PathFrom(w, env, Next(w, i, "")));
    }
  }

  lemma CancelCounts(w: Workflow, s: Run, u: Run, t: Run, i: nat, mode: Mode, env: Env)
    requires Came(w, u, t, mode, env, Path([], RanOut))
    requires u.log == s.log + [i] && u.commits == s.commits && !u.alive && u.invited == s.invited
    ensures Came(w, s, t, mode, env, Path([i], Cancelled))
  {
    assert u.log + [] == s.log + [i];
  }

  // ---------------------------------------------------------------------------------------
  // What a poll comes to, and when the hold leaves the file
  // ---------------------------------------------------------------------------------------

  /** The poll cannot load the workflow, or cannot tell whether the hold is still there. */
  predicate LearnsNothing(item: WatchItem, env: Env) {
    !env.loads || (!item.done && env.fetch.Unreachable?)
  }

  /** The branch is over already, or the hold is gone. */
  predicate NothingLeft(s: Run, item: WatchItem, env: Env) {
    env.loads && (item.done || env.fetch.NotFound? || (env.fetch.Fetched? && !s.alive))
  }

  /** A poll that learns nothing leaves everything as it was; one that finds nothing left drops the entry and
      performs nothing. */
  lemma PollWithoutWalk(w: Workflow, s: Run, env: Env)
    requires s.pc.Idle? && s.entry.Some?
    ensures var t, item := Settle(w, Poll(w, s, env)), s.entry.value;
            && (LearnsNothing(item, env) ==> t == s)
            && (NothingLeft(s, item, env) ==>
                  && t.pc.Idle? && t.entry.None? && t.log == s.log && t.commits == s.commits
                  && t.invited == s.invited && t.alive == s.alive)
  {
    var b := Poll(w, s, env);
    hide BranchPlan;
    if b.pc.Finishing? {
      SettleTick(w, b);
      assert Settle(w, Tick(w, b)) == Tick(w, b);
    }
  }

  /** A poll of a committed branch walks on from its cursor. */
  lemma PollResumes(w: Workflow, s: Run, env: Env)
    requires Sound(w) && Inv(w, s) && s.pc.Idle? && s.entry.Some? && CursorOf(s).Running?
    requires env.loads && env.fetch.Fetched? && s.alive
    ensures var item := s.entry.value;
            Came(w, s, Settle(w, Poll(w, s, env)), Branch(item, PollApproved), env, PathFrom(w, env, item.resume))
  {
    var b, item := Poll(w, s, env), s.entry.value;
    PollKeeps(w, s, env);
    assert b == s.(pc := Walking(Branch(item, PollApproved), env, item.resume, {}));
    hide Inv, Sound, Poll, Settle, PathFrom, Came;
    WalkComesTo(w, b);
    SameStart(w, b, s, Settle(w, b), Branch(item, PollApproved), env, PathFrom(w, env, item.resume));
  }

  ghost predicate CameFromGate(w: Workflow, s: Run, t: Run, env: Env)
    requires Sound(w) && s.entry.Some? && 0 <= s.entry.value.step < |w.steps|
  {
    var item := s.entry.value;
    var plan := BranchPlan(w, item, env.hold, env.now);
    if plan.StillWaiting? then t == s
    else
      var c := Commit(item.step, plan.outcome, plan.from, env.hold, env.now);
      Came(w, s.(commits := s.commits + [c]), t, Branch(item, OnEnd(plan.outcome)), env, PathFrom(w, env, plan.from))
  }

  /** A poll that reads an outcome commits its branch and walks it; one that reads none changes nothing. */
  lemma PollReadsGate(w: Workflow, s: Run, env: Env)
    requires Sound(w) && Inv(w, s) && s.pc.Idle? && s.entry.Some? && CursorOf(s).Waiting?
    requires env.loads && env.fetch.Fetched? && s.alive
    ensures 0 <= s.entry.value.step < |w.steps|
    ensures CameFromGate(w, s, Settle(w, Poll(w, s, env)), env)
  {
    WaitingPoll(w, s, env);
    PollKeeps(w, s, env);
    var b, item := Poll(w, s, env), s.entry.value;
    SettleTick(w, b);
    hide BranchPlan, Poll;
    if b.pc.Finishing? {
      assert Settle(w, Tick(w, b)) == Tick(w, b);
    } else {
      var c := b.pc.commit;
      CommitTick(w, b);
      NextKeeps(w, b, Act);
      assert Apply(w, b, Act) == Tick(w, b);
      hide Inv, Sound, Settle, PathFrom, Came, Tick, Apply;
      WalkComesTo(w, Tick(w, b));
      SameStart(w, Tick(w, b), s.(commits := s.commits + [c]), Settle(w, b), Branch(item, OnEnd(c.outcome)), env,
                PathFrom(w, env, c.from));
    }
  }

  /** The poll walks from step `j`: the cursor of the branch under way, or the start of the one it opens. */
  ghost predicate WalksFrom(w: Workflow, item: WatchItem, env: Env, j: int)
    requires 0 <= item.step < |w.steps|
  {
    if item.resume > 0 then j == item.resume
    else exists o :: Reads(w, item, env.hold, env.now, o) && Branches(w, item.step, o, j)
  }

  /** That walk runs to its end or to a cancel. */
  ghost predicate BranchIsOver(w: Workflow, item: WatchItem, env: Env)
    requires Sound(w) && 0 <= item.step < |w.steps|
  {
    exists j :: WalksFrom(w, item, env, j) && PathFrom(w, env, j).halt in {RanOut, Cancelled}
  }

  /** When a poll takes the hold off the watch file: the definition loads, and the branch was over, the hold is
      missing or deleted, or the branch comes to its end or to a cancel in this poll. */
  ghost predicate Leaves(w: Workflow, s: Run, env: Env)
    requires Sound(w) && s.entry.Some? && 0 <= s.entry.value.step < |w.steps|
  {
    var item := s.entry.value;
    env.loads
    && (item.done || env.fetch.NotFound? || (env.fetch.Fetched? && (!s.alive || BranchIsOver(w, item, env))))
  }

  lemma OpenedIsOver(w: Workflow, item: WatchItem, env: Env)
    requires Valid(w) && Sound(w) && 0 <= item.step < |w.steps| && Waits(w.steps[item.step].verb) && item.resume <= 0
    ensures BranchIsOver(w, item, env)
            <==> var plan := BranchPlan(w, item, env.hold, env.now);
                 plan.Open? && PathFrom(w, env, plan.from).halt in {RanOut, Cancelled}
  {
    forall o, j
      ensures BranchPlan(w, item, env.hold, env.now) == Open(j, o)
              <==> Reads(w, item, env.hold, env.now, o) && Branches(w, item.step, o, j)
    {
      PlanExactly(w, item, env.hold, env.now, o, j);
    }
    hide Valid, Sound, Reads, Branches, BranchPlan, PathFrom;
  }

  lemma CameOver(w: Workflow, s: Run, t: Run, item: WatchItem, onEnd: PollResult, env: Env, p: Path)
    requires Came(w, s, t, Branch(item, onEnd), env, p)
    ensures t.entry.None? <==> p.halt in {RanOut, Cancelled}
  {}

  /** Main result on the watch file. A poll of a run of an accepted workflow takes the hold off the file exactly
      then, and a poll that cannot load the workflow or reach the hold leaves the whole run as it was. */
  lemma DroppedExactly(w: Workflow, s: Run, env: Env)
    requires Valid(w) && Sound(w) && Reached(w, s) && s.pc.Idle? && s.entry.Some?
    ensures 0 <= s.entry.value.step < |w.steps|
    ensures Settle(w, Poll(w, s, env)).entry.None? <==> Leaves(w, s, env)
    ensures LearnsNothing(s.entry.value, env) ==> Settle(w, Poll(w, s, env)) == s
  {
    ReachedOk(w, s);
    var item, t := s.entry.value, Settle(w, Poll(w, s, env));
    PollWithoutWalk(w, s, env);
    if env.loads && !item.done && env.fetch.Fetched? && s.alive {
      if item.resume > 0 {
        PollResumes(w, s, env);
        CameOver(w, s, t, item, PollApproved, env, PathFrom(w, env, item.resume));
      } else {
        assert CursorOf(s).Waiting?;
        PollReadsGate(w, s, env);
        OpenedIsOver(w, item, env);
        ReadOver(w, s, t, env);
      }
    }
    hide Valid, Sound, Reached, Inv, Settle, Poll, PathFrom, BranchPlan, Came;
  }

  lemma ReadOver(w: Workflow, s: Run, t: Run, env: Env)
    requires Sound(w) && s.entry.Some? && 0 <= s.entry.value.step < |w.steps|
    requires CameFromGate(w, s, t, env)
    ensures t.entry.None?
            <==> var plan := BranchPlan(w, s.entry.value, env.hold, env.now);
                 plan.Open? && PathFrom(w, env, plan.from).halt in {RanOut, Cancelled}
  {
    hide BranchPlan, PathFrom;
  }

  /** The poll of a waiting run, told by the replies and the clock: the outcome it reads is committed and its
      branch walked, and without one nothing changes. */
  lemma AnswerIsWalked(w: Workflow, s: Run, env: Env)
    requires Valid(w) && Sound(w) && Reached(w, s) && s.pc.Idle? && CursorOf(s).Waiting?
    requires env.loads && env.fetch.Fetched? && s.alive
    ensures s.entry.Some? && 0 <= s.entry.value.step < |w.steps|
    ensures var t, item := Settle(w, Poll(w, s, env)), s.entry.value;
            && (forall o, j :: Reads(w, item, env.hold, env.now, o) && Branches(w, item.step, o, j) ==>
                  var c := Commit(item.step, o, j, env.hold, env.now);
                  Came(w, s.(commits := s.commits + [c]), t, Branch(item, OnEnd(o)), env, PathFrom(w, env, j)))
            && ((forall o :: !Reads(w, item, env.hold, env.now, o)) ==> t == s)
  {
    ReachedOk(w, s);
    PollReadsGate(w, s, env);
    var item := s.entry.value;
    var plan := BranchPlan(w, item, env.hold, env.now);
    hide Reached, Sound, Inv, CursorOf, Settle, Poll, Came, PathFrom;
    if plan.Open? { PlanExactly(w, item, env.hold, env.now, plan.outcome, plan.from); }
    forall o, j | Reads(w, item, env.hold, env.now, o) && Branches(w, item.step, o, j)
      ensures plan == Open(j, o)
    {
      PlanExactly(w, item, env.hold, env.now, o, j);
    }
    hide Valid, Branches, Reads, BranchPlan;
  }

  /** The input takes a hold off the file although its branch is not over: a poll that finds the hold missing or
      deleted, or a pass that prunes. */
  predicate LosesHold(s: Run, x: Input) {
    match x
    case Begin(env) =>
      && s.pc.Idle? && s.entry.Some? && !s.entry.value.done
      && env.loads && (env.fetch.NotFound? || (env.fetch.Fetched? && !s.alive))
    case Unavailable(prune) => prune
    case _ => false
  }

  /** Nothing but a completed run or a lost hold is off the file, or about to be. */
  predicate Accountable(s: Run, lost: bool) {
    && (s.entry.None? ==> s.completed || lost)
    && (s.pc.Finishing? && !Keeps(s.pc.result) ==> RanToItsEnd(s.pc.result) || lost)
    && ((s.pc.Walking? || s.pc.Performed? || s.pc.Forgotten? || s.pc.Arrived?) && s.pc.mode.Branch? ==>
          RanToItsEnd(s.pc.mode.onEnd))
  }

  lemma NextIsAccountable(w: Workflow, s: Run, x: Input, lost: bool)
    requires Accountable(s, lost)
    ensures Accountable(Apply(w, s, x), lost || LosesHold(s, x))
  {
    hide BranchPlan;
    if x.Act? {
      TickIsAccountable(w, s, lost);
      hide Accountable, Tick;
    }
  }

  lemma TickIsAccountable(w: Workflow, s: Run, lost: bool)
    requires Accountable(s, lost)
    ensures Accountable(Tick(w, s), lost)
  {
    hide Next, GuardAllows, NamesApprover;
  }

  lemma {:induction false} OnlyTheLostLeave(w: Workflow, s: Run, xs: seq<Input>, lost: bool)
    requires Accountable(s, lost)
    ensures var t := Execute(w, s, xs);
            t.entry.None? ==>
              t.completed || lost || exists k :: 0 <= k < |xs| && LosesHold(Execute(w, s, xs[..k]), xs[k])
    decreases |xs|
  {
    if xs != [] {
      var u, rest, now := Apply(w, s, xs[0]), xs[1..], LosesHold(s, xs[0]);
      NextIsAccountable(w, s, xs[0], lost);
      OnlyTheLostLeave(w, u, rest, lost || now);
      assert xs[..0] == [] && Execute(w, s, xs[..0]) == s;
      if k :| 0 <= k < |rest| && LosesHold(Execute(w, u, rest[..k]), rest[k]) {
        assert xs[..k + 1][1..] == rest[..k] && xs[k + 1] == rest[k];
        assert LosesHold(Execute(w, s, xs[..k + 1]), xs[k + 1]);
      }
    }
  }

  /** Over any polls, failures and crashes, a stored run leaves the watch file only when it is complete, or when
      a poll found its hold missing or deleted, or a pass pruned it. */
  lemma EntryLeavesOnlyFor(w: Workflow, s: Run, xs: seq<Input>)
    requires s.pc.Idle? && s.entry.Some? && Execute(w, s, xs).entry.None?
    ensures Execute(w, s, xs).completed
            || exists k :: 0 <= k < |xs| && LosesHold(Execute(w, s, xs[..k]), xs[k])
  {
    OnlyTheLostLeave(w, s, xs, false);
  }

  // ---------------------------------------------------------------------------------------
  // After a cancel
  // ---------------------------------------------------------------------------------------

  /** A cancel step's removal of the entry is behind the run. */
  ghost predicate Forgot(w: Workflow, s: Run) {
    exists i :: i in s.acked && i < |w.steps| && w.steps[i].verb == Cancel
  }

  /** A deleted hold's process is at most about to forget it, and what is stored after that is a finished run. */
  ghost predicate StaysOver(w: Workflow, s: Run) {
    && (!s.alive ==>
          || s.pc.Idle? || s.pc.Forgotten? || s.pc.Finishing?
          || (s.pc.Performed? && s.pc.step < |w.steps| && w.steps[s.pc.step].verb == Cancel))
    && (s.pc.Forgotten? ==> !s.alive)
    && (s.pc.Performed? && s.pc.step < |w.steps| && w.steps[s.pc.step].verb == Cancel ==> !s.alive)
    && (Forgot(w, s) ==>
          && !s.alive && !s.pc.Performed? && (s.entry.Some? ==> s.entry.value.done)
          && (s.pc.Finishing? && Keeps(s.pc.result) ==> s.pc.item.done))
  }

  predicate SameDeeds(s: Run, t: Run) {
    t.log == s.log && t.commits == s.commits && t.invited == s.invited && t.alive == s.alive
  }

  lemma BeginStaysOver(w: Workflow, s: Run, env: Env)
    requires StaysOver(w, s)
    ensures StaysOver(w, Poll(w, s, env)) && SameDeeds(s, Poll(w, s, env))
  {
    hide BranchPlan;
    assert Forgot(w, Poll(w, s, env)) ==> Forgot(w, s);
  }

  lemma AckForgets(w: Workflow, s: Run)
    requires s.pc.Performed? && s.pc.step < |w.steps|
    ensures Forgot(w, AfterEffect(w, s)) <==> Forgot(w, s) || w.steps[s.pc.step].verb == Cancel
  {
    var t := AfterEffect(w, s);
    assert t.acked == s.acked + [s.pc.step];
    if Forgot(w, s) {
      var i :| i in s.acked && i < |w.steps| && w.steps[i].verb == Cancel;
      assert i in t.acked;
    }
    if w.steps[s.pc.step].verb == Cancel { assert s.pc.step in t.acked; }
  }

  lemma EffectStaysOver(w: Workflow, s: Run)
    requires StaysOver(w, s) && s.pc.Performed? && s.pc.step < |w.steps|
    ensures StaysOver(w, AfterEffect(w, s)) && (!s.alive ==> SameDeeds(s, AfterEffect(w, s)))
  {
    AckForgets(w, s);
    hide Forgot, Next;
  }

  lemma TurnStaysOver(w: Workflow, s: Run)
    requires StaysOver(w, s) && s.pc.Walking?
    ensures s.alive && StaysOver(w, WalkTurn(w, s))
  {
    assert WalkTurn(w, s).acked == s.acked && (Forgot(w, WalkTurn(w, s)) <==> Forgot(w, s));
    hide Forgot, Next, GuardAllows;
  }

  lemma ActStaysOver(w: Workflow, s: Run)
    requires StaysOver(w, s) && Accountable(s, true) && PcOk(w, s)
    ensures StaysOver(w, Tick(w, s)) && (!s.alive ==> SameDeeds(s, Tick(w, s)))
  {
    if s.pc.Performed? {
      EffectStaysOver(w, s);
      hide AfterEffect, StaysOver;
    } else if s.pc.Walking? {
      TurnStaysOver(w, s);
      hide WalkTurn, StaysOver;
    } else {
      assert Tick(w, s).acked == s.acked && (Forgot(w, Tick(w, s)) <==> Forgot(w, s));
      hide Forgot, NamesApprover, AtGate, AfterEffect, WalkTurn;
    }
  }

  lemma {:induction false} RunsStayOver(w: Workflow, s: Run, xs: seq<Input>)
    requires Sound(w) && Inv(w, s) && StaysOver(w, s) && Accountable(s, true)
    ensures StaysOver(w, Execute(w, s, xs)) && (!s.alive ==> SameDeeds(s, Execute(w, s, xs)))
    decreases |xs|
  {
    if xs != [] {
      match xs[0] {
        case Begin(env) => BeginStaysOver(w, s, env);
        case Act => ActStaysOver(w, s);
        case _ => assert Apply(w, s, xs[0]).acked == s.acked;
      }
      NextKeeps(w, s, xs[0]);
      NextIsAccountable(w, s, xs[0], true);
      hide Sound, Inv, Poll, Tick;
      RunsStayOver(w, Apply(w, s, xs[0]), xs[1..]);
    }
  }

  /** Main result on cancels. From the moment a run deleted its hold, nothing is performed, committed or
      invited any more, whatever is polled and wherever it crashes; and once the removal of its entry is
      behind it, the file has it as a finished run or not at all. */
  lemma CancelIsFinal(w: Workflow, s: Run, xs: seq<Input>)
    requires Valid(w) && Reached(w, s) && !s.alive
    ensures SameDeeds(s, Execute(w, s, xs))
    ensures Forgot(w, s) && s.entry.Some? ==> s.entry.value.done
  {
    ValidIsSound(w);
    ReachedOk(w, s);
    var provider, watch, manager, env, ys :| s == Execute(w, Created(w, provider, watch, manager, env), ys);
    var first := Created(w, provider, watch, manager, env);
    CreatedOk(w, provider, watch, manager, env);
    hide Valid, Reached, Sound, Inv, Execute;
    assert StaysOver(w, first) && Accountable(first, true);
    RunsStayOver(w, first, ys);
    StaysAccountable(w, first, ys);
    RunsStayOver(w, s, xs);
  }

  lemma {:induction false} StaysAccountable(w: Workflow, s: Run, xs: seq<Input>)
    requires Accountable(s, true)
    ensures Accountable(Execute(w, s, xs), true)
    decreases |xs|
  {
    if xs != [] {
      NextIsAccountable(w, s, xs[0], true);
      hide Accountable;
      StaysAccountable(w, Apply(w, s, xs[0]), xs[1..]);
    }
  }

  // ---------------------------------------------------------------------------------------
  // What a creation comes to
  // ---------------------------------------------------------------------------------------

  /** Whom a new hold invites: an event its guests, a hold the person the first approve step names, or the
      manager when it names none, and nobody when nothing is to be approved. */
  lemma CreationInvites(w: Workflow, id: string, subject: string, manager: string, guests: seq<Calendar.Attendee>)
    requires Valid(w)
    ensures var h, first := NewHold(w, id, subject, manager, guests), w.steps[0].verb;
            && h.id == id && h.subject == subject
            && (first == Event ==> h.attendees == guests) && (first == Away ==> h.attendees == [])
            && ((forall i :: 0 <= i < |w.steps| ==> w.steps[i].verb != Approve) && first != Event ==> h.attendees == [])
            && forall a :: 0 <= a < |w.steps| && w.steps[a].verb == Approve
                           && (forall i :: 0 <= i < a ==> w.steps[i].verb != Approve) ==>
                 && |h.attendees| == 1 && h.attendees[0].role == Calendar.Required
                 && h.attendees[0].response == Calendar.Blank
                 && h.attendees[0].email == if w.steps[a].approver != "" then w.steps[a].approver else manager
  {
    hide StepProblem, Cyclic, BranchesResolve, NextResolves;
    forall a | 0 <= a < |w.steps| && w.steps[a].verb == Approve && forall i :: 0 <= i < a ==> w.steps[i].verb != Approve
      ensures Has(w, Approve) && FirstApprove(w) == a
    {
      assert w.steps[FirstApprove(w)].verb == Approve;
    }
  }

  /** The first walk comes to the path from the step after the first, with the hold as it was created. */
  lemma CreationComesTo(w: Workflow, provider: string, watch: bool, manager: string, env: Env)
    requires Valid(w) && Sound(w)
    ensures var s := Created(w, provider, watch, manager, env);
            var hold := NewHold(w, env.hold.id, env.hold.subject, manager, env.hold.attendees);
            var walk := env.(hold := hold);
            && s.entry.None? && s.alive && s.log == [] && s.commits == []
            && Came(w, s, Settle(w, s), FirstWalk(provider, watch), walk, PathFrom(w, walk, Next(w, 0, "")))
            && Reached(w, Settle(w, s))
  {
    var s := Created(w, provider, watch, manager, env);
    CreatedOk(w, provider, watch, manager, env);
    hide Valid, Inv, Sound, Settle, PathFrom, Came, Next;
    WalkComesTo(w, s);
    var acts := SettleIsExecute(w, s);
    hide NewHold, Execute;
  }

  lemma {:induction false} SettleIsExecute(w: Workflow, s: Run) returns (xs: seq<Input>)
    ensures Settle(w, s) == Execute(w, s, xs) && forall k :: 0 <= k < |xs| ==> xs[k].Act?
    decreases Remaining(w, s.pc)
  {
    if s.pc.Idle? {
      xs := [];
    } else {
      TickProgresses(w, s);
      SettleTick(w, s);
      hide Settle, Tick, Remaining;
      var rest := SettleIsExecute(w, Tick(w, s));
      xs := [Act] + rest;
      assert xs[1..] == rest && Apply(w, s, Act) == Tick(w, s);
    }
  }
}
