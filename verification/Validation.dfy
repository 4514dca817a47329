/** Validate: the loop of checks, against what an accepted definition is and what each reported
    fault means (internal/workflow/workflow.go). */
module Validation {
  import opened Base
  import opened Guards
  import opened Workflows
  import opened CycleCheck
  import Calendar

  ghost predicate StepsClean(w: Workflow) {
    forall i :: 0 <= i < |w.steps| ==> StepProblem(w, i).None?
  }

  ghost predicate ShapeClean(w: Workflow) {
    && w.name != "" && w.steps != []
    && StepsClean(w)
    && Creates(w.steps[0].verb)
    && (Has(w, Approve) ==> w.steps[0].verb == Hold)
  }

  ghost predicate TargetsClean(w: Workflow, n: nat)
    requires n <= |w.steps|
  {
    forall i :: 0 <= i < n ==> BranchesResolve(w, w.steps[i]) && NextResolves(w, w.steps[i])
  }

  ghost predicate EarlyNotify(w: Workflow) {
    Has(w, Approve) && Has(w, Notify) && FirstOf(w, Notify, 0) < FirstApprove(w)
  }

  /** A fault tells the truth: it is the first check, in the order they run, that fails. */
  ghost predicate Reports(w: Workflow, f: Fault) {
    match f
    case MissingName => w.name == ""
    case NoSteps => w.name != "" && w.steps == []
    case AtStep(i, p) =>
      && w.name != "" && i < |w.steps|
      && (forall j :: 0 <= j < i ==> StepProblem(w, j).None?)
      && StepProblem(w, i) == Some(p)
    case CreatorCount => w.name != "" && w.steps != [] && StepsClean(w) && !Creates(w.steps[0].verb)
    case ApprovalNeedsHold =>
      && w.name != "" && w.steps != [] && StepsClean(w) && Creates(w.steps[0].verb)
      && Has(w, Approve) && w.steps[0].verb != Hold
    case NotifiesBeforeApproval => ShapeClean(w) && EarlyNotify(w)
    case UnknownBranchTarget(i) =>
      && ShapeClean(w) && !EarlyNotify(w) && i < |w.steps| && TargetsClean(w, i)
      && !BranchesResolve(w, w.steps[i])
    case UnknownNextTarget(i) =>
      && ShapeClean(w) && !EarlyNotify(w) && i < |w.steps| && TargetsClean(w, i)
      && BranchesResolve(w, w.steps[i]) && !NextResolves(w, w.steps[i])
    case Loops => ShapeClean(w) && !EarlyNotify(w) && TargetsClean(w, |w.steps|) && Cyclic(w)
  }

  ghost predicate IdsBefore(w: Workflow, i: nat, ids: set<string>)
    requires i <= |w.steps|
  {
    forall id :: id in ids <==> id != "" && IdBefore(w, i, id)
  }

  ghost predicate IdBefore(w: Workflow, i: nat, id: string)
    requires i <= |w.steps|
  {
    exists j :: 0 <= j < i && w.steps[j].id == id
  }

  ghost predicate FirstBefore(w: Workflow, v: Verb, i: nat, first: int)
    requires i <= |w.steps|
  {
    && -1 <= first < i
    && (first >= 0 ==> w.steps[first].verb == v)
    && forall j :: 0 <= j < i && w.steps[j].verb == v ==> 0 <= first <= j
  }

  /** One turn of the step loop, with the ids and the number of approve steps seen so far. */
  method CheckStep(w: Workflow, i: nat, ids: set<string>, approves: nat)
    returns (problem: Option<Problem>, ids': set<string>, approves': nat)
    requires i < |w.steps|
    requires IdsBefore(w, i, ids)
    requires approves > 0 <==> HasVerbBefore(w, Approve, i)
    ensures problem == StepProblem(w, i)
    ensures problem.None? ==> IdsBefore(w, i + 1, ids')
    ensures approves' == if problem.None? && w.steps[i].verb == Approve then approves + 1 else approves
  {
    var s := w.steps[i];
    ids', approves' := ids, approves;
    problem := ProblemBeforeId(s);
    if problem.Some? { return; }
    if s.id != "" {
      assert s.id in ids <==> IdBefore(w, i, s.id);
      if s.id in ids { return Some(DuplicateId), ids', approves'; }
      ids' := ids + {s.id};
    }
    problem := ProblemAfterId(s);
    if problem.Some? { return; }
    if Creates(s.verb) && i != 0 { return Some(LateCreator), ids', approves'; }
    if s.verb == Approve {
      if approves + 1 > 1 {
        if s.approver == "" { return Some(LaterApproveUnnamed), ids', approves'; }
        if s.manager { return Some(LaterApproveUsesManager), ids', approves'; }
      }
      approves' := approves + 1;
    }
  }

  lemma OnlyTheFirstCreates(w: Workflow, i: nat)
    requires i < |w.steps| && StepProblem(w, i).None?
    ensures Creates(w.steps[i].verb) ==> i == 0
  {}

  lemma NoneBefore(w: Workflow, v: Verb)
    ensures !HasVerbBefore(w, v, 0) && FirstBefore(w, v, 0, -1)
  {}

  lemma OneMoreStep(w: Workflow, v: Verb, i: nat, first: int)
    requires i < |w.steps|
    ensures HasVerbBefore(w, v, i + 1) <==> HasVerbBefore(w, v, i) || w.steps[i].verb == v
    ensures FirstBefore(w, v, i, first) ==>
              FirstBefore(w, v, i + 1, if w.steps[i].verb == v && first < 0 then i else first)
  {}

  /** The loop over the steps. */
  method CheckSteps(w: Workflow)
    returns (fault: Option<Fault>, creators: nat, firstApprove: int, firstNotify: int)
    requires w.name != ""
    ensures fault.Some? ==> fault.value.AtStep? && Reports(w, fault.value)
    ensures fault.None? ==> StepsClean(w)
    ensures fault.None? && w.steps != [] ==> creators == if Creates(w.steps[0].verb) then 1 else 0
    ensures fault.None? ==> FirstBefore(w, Approve, |w.steps|, firstApprove)
    ensures fault.None? ==> FirstBefore(w, Notify, |w.steps|, firstNotify)
  {
    hide StepProblem, HasVerbBefore, FirstBefore;
    var ids: set<string> := {};
    var approves: nat := 0;
    NoneBefore(w, Approve);
    NoneBefore(w, Notify);
    creators, firstApprove, firstNotify := 0, -1, -1;
    for i := 0 to |w.steps|
      invariant forall j :: 0 <= j < i ==> StepProblem(w, j).None?
      invariant IdsBefore(w, i, ids)
      invariant creators == if i > 0 && Creates(w.steps[0].verb) then 1 else 0
      invariant approves > 0 <==> HasVerbBefore(w, Approve, i)
      invariant FirstBefore(w, Approve, i, firstApprove)
      invariant FirstBefore(w, Notify, i, firstNotify)
    {
      var problem: Option<Problem>;
      problem, ids, approves := CheckStep(w, i, ids, approves);
      if problem.Some? {
        return Some(AtStep(i, problem.value)), creators, firstApprove, firstNotify;
      }
      OnlyTheFirstCreates(w, i);
      OneMoreStep(w, Approve, i, firstApprove);
      OneMoreStep(w, Notify, i, firstNotify);
      if Creates(w.steps[i].verb) { creators := creators + 1; }
      if w.steps[i].verb == Approve && firstApprove < 0 { firstApprove := i; }
      if w.steps[i].verb == Notify && firstNotify < 0 { firstNotify := i; }
    }
    fault := None;
  }

  /** The loop over the branch and next targets. */
  method CheckTargets(w: Workflow) returns (fault: Option<Fault>)
    requires ShapeClean(w) && !EarlyNotify(w)
    ensures fault.None? ==> TargetsClean(w, |w.steps|)
    ensures fault.Some? ==> (fault.value.UnknownBranchTarget? || fault.value.UnknownNextTarget?)
    ensures fault.Some? ==> Reports(w, fault.value)
  {
    for i := 0 to |w.steps|
      invariant TargetsClean(w, i)
    {
      var s := w.steps[i];
      var outcomes := s.on.Keys;
      while outcomes != {}
        invariant outcomes <= s.on.Keys
        invariant forall o :: o in s.on.Keys - outcomes ==> KnownTarget(w, s.on[o])
        decreases outcomes
      {
        var o :| o in outcomes;
        if !KnownTarget(w, s.on[o]) { return Some(UnknownBranchTarget(i)); }
        outcomes := outcomes - {o};
      }
      assert BranchesResolve(w, s);
      if !NextResolves(w, s) { return Some(UnknownNextTarget(i)); }
    }
    fault := None;
  }

  /** What acceptance guarantees of each step: creators come first and only there; waits have a positive
      delay and nothing else has one; only approvals branch, time out or name approvers, an expired branch
      comes with a readable timeout and the other way round, and a later approval names its approver; only
      messages have a channel and all do; the team is never required; ids are unique; guards are well
      formed, can hold, and never sit on a creator or a gate. */
  lemma AcceptedStepsAreWellFormed(w: Workflow, i: nat)
    requires Valid(w) && i < |w.steps|
    ensures var s := w.steps[i];
            && s.verb != UnknownVerb && (Creates(s.verb) <==> i == 0)
            && (s.verb == Wait <==> s.delay != NoDuration) && (s.verb == Wait ==> Parsed(s.delay) > 0)
            && (s.on != map[] || s.timeout != NoDuration || s.approver != "" ==> s.verb == Approve)
            && (forall o :: o in s.on ==> o == ACCEPTED || o == DECLINED || o == EXPIRED)
            && (EXPIRED in s.on <==> s.timeout.Units?)
            && (s.verb == Approve && HasVerbBefore(w, Approve, i) ==> s.approver != "" && !s.manager)
            && (s.verb == Message <==> s.channel != "")
            && (s.verb == Notify ==> s.team != Known(Calendar.Required))
            && (s.id != "" ==> forall j :: 0 <= j < |w.steps| && w.steps[j].id == s.id ==> j == i)
            && (Creates(s.verb) || Waits(s.verb) ==> s.guard == UNGUARDED)
            && exists d: Weekday, n: nat :: Allows(s.guard, d, n)
  {
    assert StepProblem(w, i).None?;
    var s := w.steps[i];
    NoProblem(w, i);
    if s.id != "" { IdsAreUnique(w, i); }
    var d, n := WellFormedCanHold(s.guard);
    assert Allows(s.guard, d, n);
    hide Valid, Allows, WellFormed, StepProblem, HasVerbBefore;
  }

  lemma NoProblem(w: Workflow, i: nat)
    requires Valid(w) && i < |w.steps|
    ensures var s := w.steps[i];
            && ProblemBeforeId(s).None? && ProblemAfterId(s).None? && (Creates(s.verb) <==> i == 0)
            && (s.verb == Approve && HasVerbBefore(w, Approve, i) ==> s.approver != "" && !s.manager)
  {
    hide ProblemBeforeId, ProblemAfterId, HasVerbBefore;
    assert StepProblem(w, i).None?;
  }

  lemma IdsAreUnique(w: Workflow, i: nat)
    requires Valid(w) && i < |w.steps| && w.steps[i].id != ""
    ensures forall j :: 0 <= j < |w.steps| && w.steps[j].id == w.steps[i].id ==> j == i
  {
    hide ProblemBeforeId, ProblemAfterId;
    assert StepProblem(w, i).None?;
    forall j | 0 <= j < |w.steps| && w.steps[j].id == w.steps[i].id
      ensures j == i
    {
      assert StepProblem(w, j).None?;
    }
  }

  // ---------------------------------------------------------------------------------------
  // What is accepted, in the fields of the steps
  // ---------------------------------------------------------------------------------------

  ghost predicate KnownOutcomes(s: Step) {
    forall o :: o in s.on ==> o == "accepted" || o == "declined" || o == "expired"
  }

  /** What each verb asks of the other fields of a step, and what the fields ask of each other. */
  ghost predicate FieldsFit(s: Step) {
    && s.verb != UnknownVerb && s.showAs != Misspelled && s.team != Misspelled
    && (s.verb == Notify ==> s.team != Known(Calendar.Required))
    && (s.verb == Message <==> s.channel != "")
    && (if s.verb == Wait then s.delay.Units? && s.delay.n > 0 else s.delay == NoDuration)
    && (s.verb != Approve ==> s.approver == "" && s.on == map[] && s.timeout == NoDuration)
    && KnownOutcomes(s)
    && s.timeout != BadDuration && (s.timeout != NoDuration <==> "expired" in s.on)
  }

  /** Its bounds are not negative and it allows some weekday with some number of attendees. */
  ghost predicate CanHold(g: When) {
    g.minAttendees >= 0 && g.maxAttendees >= 0 && exists d: Weekday, n: nat :: Allows(g, d, n)
  }

  /** A guard can hold, and stands only on steps that the walk performs. */
  ghost predicate GuardFits(s: Step) {
    && CanHold(s.guard)
    && (s.verb in {Hold, Away, Event, Approve, Wait} ==> s.guard == When("", 0, 0))
  }

  /** Only the first step creates, ids are unique, and a later approval names its own approver. */
  ghost predicate PlaceFits(w: Workflow, i: nat)
    requires i < |w.steps|
  {
    var s := w.steps[i];
    && (s.verb in {Hold, Away, Event} <==> i == 0)
    && (s.id != "" ==> forall j :: 0 <= j < i ==> w.steps[j].id != s.id)
    && (s.verb == Approve && (exists j :: 0 <= j < i && w.steps[j].verb == Approve) ==> s.approver != "" && !s.manager)
  }

  /** The target is a step's id or the end. */
  ghost predicate LandsSomewhere(w: Workflow, target: string) {
    target == "end" || (target != "" && exists k :: 0 <= k < |w.steps| && w.steps[k].id == target)
  }

  ghost predicate TargetsFit(w: Workflow, s: Step) {
    && (forall o :: o in s.on ==> LandsSomewhere(w, s.on[o]))
    && (s.next != "" ==> LandsSomewhere(w, s.next))
  }

  /** An approval needs a hold, and with one no notify step comes before the first. */
  ghost predicate OrderFits(w: Workflow) {
    (exists a :: 0 <= a < |w.steps| && w.steps[a].verb == Approve) ==>
      && |w.steps| > 0 && w.steps[0].verb == Hold
      && forall i :: 0 <= i < |w.steps| && w.steps[i].verb == Notify ==>
           exists a :: 0 <= a < i && w.steps[a].verb == Approve
  }

  /** The definitions to accept. */
  ghost predicate Fits(w: Workflow) {
    && w.name != "" && w.steps != []
    && (forall i :: 0 <= i < |w.steps| ==>
          FieldsFit(w.steps[i]) && GuardFits(w.steps[i]) && PlaceFits(w, i) && TargetsFit(w, w.steps[i]))
    && OrderFits(w) && !Cyclic(w)
  }

  lemma CleanBeforeId(s: Step)
    ensures ProblemBeforeId(s).None?
            <==> && s.verb != UnknownVerb && s.showAs != Misspelled && s.team != Misspelled
                 && (s.verb == Notify ==> s.team != Known(Calendar.Required))
                 && (s.verb == Message <==> s.channel != "") && (s.verb != Approve ==> s.approver == "")
                 && (if s.verb == Wait then s.delay.Units? && s.delay.n > 0 else s.delay == NoDuration)
  {}

  lemma OutcomesExactly(s: Step)
    ensures KnownOutcomes(s) <==> !(exists o :: o in s.on && o != ACCEPTED && o != DECLINED && o != EXPIRED)
  {}

  lemma CleanAfterId(s: Step)
    ensures ProblemAfterId(s).None?
            <==> && (s.verb != Approve ==> s.on == map[] && s.timeout == NoDuration)
                 && KnownOutcomes(s)
                 && s.timeout != BadDuration && (s.timeout != NoDuration <==> "expired" in s.on)
                 && WellFormed(s.guard) && (Creates(s.verb) || Waits(s.verb) ==> s.guard == UNGUARDED)
  {
    OutcomesExactly(s);
    hide WellFormed, KnownOutcomes;
  }

  lemma CanHoldExactly(g: When)
    ensures CanHold(g) <==> WellFormed(g)
  {
    if g.minAttendees >= 0 && g.maxAttendees >= 0 { WellFormedExactly(g); }
    hide ReadableDays, DaySet, Tokens, Allows;
  }

  lemma GuardFitsExactly(s: Step)
    ensures GuardFits(s) <==> WellFormed(s.guard) && (Creates(s.verb) || Waits(s.verb) ==> s.guard == UNGUARDED)
  {
    CanHoldExactly(s.guard);
    hide CanHold, WellFormed;
  }

  lemma StepFitsExactly(w: Workflow, i: nat)
    requires i < |w.steps|
    ensures FieldsFit(w.steps[i]) && GuardFits(w.steps[i]) && PlaceFits(w, i)
            <==> StepProblem(w, i).None? && (i == 0 ==> Creates(w.steps[0].verb))
  {
    var s := w.steps[i];
    CleanBeforeId(s);
    CleanAfterId(s);
    GuardFitsExactly(s);
    hide ProblemBeforeId, ProblemAfterId, GuardFits, WellFormed;
  }

  lemma LandsExactly(w: Workflow, target: string)
    ensures LandsSomewhere(w, target) <==> KnownTarget(w, target)
  {}

  lemma TargetsFitExactly(w: Workflow, s: Step)
    ensures TargetsFit(w, s) <==> BranchesResolve(w, s) && NextResolves(w, s)
  {
    hide KnownTarget, LandsSomewhere;
    forall target: string
      ensures LandsSomewhere(w, target) <==> KnownTarget(w, target)
    {
      LandsExactly(w, target);
    }
  }

  lemma OrderFitsExactly(w: Workflow)
    requires w.steps != []
    ensures OrderFits(w)
            <==> && (Has(w, Approve) ==> w.steps[0].verb == Hold)
                 && (Has(w, Approve) && Has(w, Notify) ==> FirstApprove(w) < FirstOf(w, Notify, 0))
  {
    if OrderFits(w) && Has(w, Approve) && Has(w, Notify) {
      var n := FirstOf(w, Notify, 0);
      assert w.steps[n].verb == Notify;
      var a :| 0 <= a < n && w.steps[a].verb == Approve;
    }
  }

  /** Main result. Validate accepts exactly the definitions whose fields fit: each step by itself, its guard, its
      place and its targets, approvals on a hold and before the team is told, and no cycle. */
  lemma AcceptedExactly(w: Workflow)
    ensures Valid(w) <==> Fits(w)
  {
    hide StepProblem, FieldsFit, GuardFits, PlaceFits, TargetsFit, BranchesResolve, NextResolves, OrderFits, Has;
    hide FirstApprove, FirstOf;
    if w.steps != [] {
      OrderFitsExactly(w);
      forall i | 0 <= i < |w.steps|
        ensures FieldsFit(w.steps[i]) && GuardFits(w.steps[i]) && PlaceFits(w, i)
                <==> StepProblem(w, i).None? && (i == 0 ==> Creates(w.steps[0].verb))
        ensures TargetsFit(w, w.steps[i]) <==> BranchesResolve(w, w.steps[i]) && NextResolves(w, w.steps[i])
      {
        StepFitsExactly(w, i);
        TargetsFitExactly(w, w.steps[i]);
      }
    }
  }

  /** What a problem says of a step by itself. */
  ghost predicate Shows(s: Step, p: Problem) {
    match p
    case UnrecognizedVerb => s.verb == UnknownVerb
    case InvalidShowAs => s.showAs == Misspelled
    case InvalidTeam => s.team == Misspelled
    case NotifyTeamRequired => s.verb == Notify && s.team == Known(Calendar.Required)
    case MessageNeedsChannel => s.verb == Message && s.channel == ""
    case StrayChannel => s.verb != Message && s.channel != ""
    case StrayApprover => s.verb != Approve && s.approver != ""
    case WaitNeedsDelay => s.verb == Wait && !(s.delay.Units? && s.delay.n > 0)
    case StrayDelay => s.verb != Wait && s.delay != NoDuration
    case StrayBranch => s.verb != Approve && s.on != map[]
    case InvalidOutcome => !KnownOutcomes(s)
    case StrayTimeout => s.verb != Approve && s.timeout != NoDuration
    case InvalidTimeout => s.timeout == BadDuration
    case TimeoutNeedsExpired => s.timeout != NoDuration && "expired" !in s.on
    case ExpiredNeedsTimeout => s.timeout == NoDuration && "expired" in s.on
    case InvalidGuard => !CanHold(s.guard)
    case GuardedCreator => (s.verb == Hold || s.verb == Away || s.verb == Event) && s.guard != When("", 0, 0)
    case GuardedGate => (s.verb == Approve || s.verb == Wait) && s.guard != When("", 0, 0)
    case _ => false
  }

  /** What a problem says of step `i`. */
  ghost predicate Describes(w: Workflow, i: nat, p: Problem)
    requires i < |w.steps|
  {
    var s := w.steps[i];
    match p
    case DuplicateId => s.id != "" && exists j :: 0 <= j < i && w.steps[j].id == s.id
    case LateCreator => (s.verb == Hold || s.verb == Away || s.verb == Event) && i != 0
    case LaterApproveUnnamed => LaterApprove(w, i) && s.approver == ""
    case LaterApproveUsesManager => LaterApprove(w, i) && s.manager
    case _ => Shows(s, p)
  }

  ghost predicate LaterApprove(w: Workflow, i: nat)
    requires i < |w.steps|
  {
    w.steps[i].verb == Approve && exists j :: 0 <= j < i && w.steps[j].verb == Approve
  }

  /** The order of the checks of one step. */
  function Rank(p: Problem): nat {
    match p
    case UnrecognizedVerb => 0 case InvalidShowAs => 1 case InvalidTeam => 2 case NotifyTeamRequired => 3
    case MessageNeedsChannel => 4 case StrayChannel => 5 case StrayApprover => 6 case WaitNeedsDelay => 7
    case StrayDelay => 8 case DuplicateId => 9 case StrayBranch => 10 case InvalidOutcome => 11
    case StrayTimeout => 12 case InvalidTimeout => 13 case TimeoutNeedsExpired => 14
    case ExpiredNeedsTimeout => 15 case InvalidGuard => 16 case GuardedCreator => 17 case GuardedGate => 18
    case LateCreator => 19 case LaterApproveUnnamed => 20 case LaterApproveUsesManager => 21
  }

  lemma FirstBeforeId(s: Step, q: Problem)
    requires Rank(q) <= 8
    ensures match ProblemBeforeId(s)
            case Some(p) => Rank(p) <= 8 && Shows(s, p) && (Rank(q) < Rank(p) ==> !Shows(s, q))
            case None => !Shows(s, q)
  {
    hide CanHold, KnownOutcomes;
  }

  lemma AfterIdTells(s: Step)
    ensures var p := ProblemAfterId(s);
            p.Some? ==> 10 <= Rank(p.value) <= 18 && Shows(s, p.value)
  {
    CanHoldExactly(s.guard);
    OutcomesExactly(s);
    hide WellFormed, CanHold, KnownOutcomes;
  }

  lemma AfterIdPasses(s: Step, q: Problem)
    requires 10 <= Rank(q) <= 18
    ensures var p := ProblemAfterId(s);
            (p.Some? ==> Rank(q) < Rank(p.value)) ==> !Shows(s, q)
  {
    CanHoldExactly(s.guard);
    OutcomesExactly(s);
    hide WellFormed, CanHold, KnownOutcomes;
  }

  lemma ReportedTells(w: Workflow, i: nat)
    requires i < |w.steps| && StepProblem(w, i).Some?
    ensures Describes(w, i, StepProblem(w, i).value)
  {
    FirstBeforeId(w.steps[i], UnrecognizedVerb);
    AfterIdTells(w.steps[i]);
    hide ProblemBeforeId, ProblemAfterId, Shows;
  }

  lemma ReportedPasses(w: Workflow, i: nat, q: Problem)
    requires i < |w.steps| && (StepProblem(w, i).Some? ==> Rank(q) < Rank(StepProblem(w, i).value))
    ensures !Describes(w, i, q)
  {
    FirstBeforeId(w.steps[i], if Rank(q) <= 8 then q else UnrecognizedVerb);
    AfterIdTells(w.steps[i]);
    if 10 <= Rank(q) <= 18 { AfterIdPasses(w.steps[i], q); }
    hide ProblemBeforeId, ProblemAfterId, Shows;
  }

  lemma RanksDiffer(p: Problem, q: Problem)
    ensures Rank(p) == Rank(q) ==> p == q
  {}

  /** The problem reported of a step is the first in that order that describes it, and none is reported when
      none does. */
  lemma FirstProblemExactly(w: Workflow, i: nat, p: Problem)
    requires i < |w.steps|
    ensures StepProblem(w, i) == Some(p)
            <==> Describes(w, i, p) && forall q :: Rank(q) < Rank(p) ==> !Describes(w, i, q)
  {
    hide StepProblem, Describes, Rank;
    if StepProblem(w, i).Some? {
      var r := StepProblem(w, i).value;
      ReportedTells(w, i);
      RanksDiffer(p, r);
      forall q | Rank(q) < Rank(r)
        ensures !Describes(w, i, q)
      {
        ReportedPasses(w, i, q);
      }
    } else {
      ReportedPasses(w, i, p);
    }
  }

  /** Validate accepts exactly the valid definitions, and otherwise reports the first failing check. */
  method Validate(w: Workflow) returns (fault: Option<Fault>)
    ensures fault.None? <==> Valid(w)
    ensures fault.None? <==> Fits(w)
    ensures fault.Some? ==> Reports(w, fault.value)
  {
    AcceptedExactly(w);
    hide Fits;
    if w.name == "" { return Some(MissingName); }
    if w.steps == [] { return Some(NoSteps); }
    var creators: nat, firstApprove: int, firstNotify: int;
    fault, creators, firstApprove, firstNotify := CheckSteps(w);
    if fault.Some? { return; }
    assert firstApprove == FirstApprove(w) && firstNotify == FirstOf(w, Notify, 0);
    assert (firstApprove >= 0 <==> Has(w, Approve)) && (firstNotify >= 0 <==> Has(w, Notify));
    if creators != 1 { return Some(CreatorCount); }
    if firstApprove >= 0 && w.steps[0].verb != Hold { return Some(ApprovalNeedsHold); }
    if firstApprove >= 0 && firstNotify >= 0 && firstNotify < firstApprove {
      return Some(NotifiesBeforeApproval);
    }
    fault := CheckTargets(w);
    if fault.Some? { return; }
    var cycle, _ := HasCycle(w);
    if cycle { return Some(Loops); }
  }
}
