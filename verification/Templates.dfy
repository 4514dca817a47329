/** Four of the bundled templates, in full, and what a run of each does at its first poll: which steps follow the
    manager's acceptance, which the refusal and which the silence, and that the run is then over or still waits
    as it was. The definitions are those of the files; that they are accepted is proved on their steps
    (internal/workflow/templates). */
module Templates {
  import opened Base
  import opened Workflows
  import opened Protocol
  import opened Forward
  import opened Clocks
  import opened Polls
  import opened Witnesses
  import Calendar
  import Guards

  /** The hold all these templates begin with, shown free. */
  function FreeHold(): Step {
    Plain(Hold, "hold", "", "").(showAs := Known(Calendar.ShowFree))
  }

  /** The approval by the manager, with its branches. */
  function ManagerDecides(on: map<string, string>): Step {
    Plain(Approve, "approval", "", "").(manager := true, on := on)
  }

  function TellTeam(): Step {
    Plain(Notify, "notify", "end", "").(team := Known(Calendar.Role.Optional))
  }

  /** pto-notify-on-decline: tell the team, or note the refusal. */
  function NotifyOnDecline(): Workflow {
    var approval := ManagerDecides(map["accepted" := "notify", "declined" := "denied"]);
    Workflow("pto-notify-on-decline", [FreeHold(), approval, TellTeam(), Plain(Note, "denied", "end", "")])
  }

  /** pto-announce: a message to a channel, then the team. */
  function Announce(): Workflow {
    var announce := Plain(Message, "announce", "notify", "").(channel := "#out-of-office");
    Workflow("pto-announce", [FreeHold(), ManagerDecides(map["accepted" := "announce"]), announce, TellTeam()])
  }

  /** pto-file-leave: leave is filed, then the team is told. */
  function FileLeave(): Workflow {
    var file := Plain(Leave, "file", "notify", "");
    Workflow("pto-file-leave", [FreeHold(), ManagerDecides(map["accepted" := "file"]), file, TellTeam()])
  }

  /** pto-cancel-on-timeout: without a reply in 72 hours the hold is cancelled. */
  function CancelOnTimeout(): Workflow {
    var approval := ManagerDecides(map["accepted" := "notify", "expired" := "expired"]).(timeout := Units(3 * DAY));
    Workflow("pto-cancel-on-timeout", [FreeHold(), approval, TellTeam(), Plain(Cancel, "expired", "end", "")])
  }

  /** A workflow whose hold waits for an approval by the manager at step 1. */
  ghost predicate AsksTheManager(w: Workflow) {
    && Valid(w) && |w.steps| == 4 && w.steps[0].verb == Hold && w.steps[0].next == ""
    && w.steps[1].verb == Approve && w.steps[1].approver == ""
  }

  /** Where its run waits once the hold is created and watched. */
  function AtApproval(w: Workflow, manager: string, env: Env): Run
    requires w.steps != []
  {
    Settle(w, Created(w, "", true, manager, env))
  }

  lemma WaitsForTheManager(w: Workflow, manager: string, env: Env)
    requires AsksTheManager(w)
    ensures var s := AtApproval(w, manager, env);
            && Sound(w) && Reached(w, s) && s.pc.Idle? && s.alive && s.log == [] && s.commits == []
            && s.entry.Some? && CursorOf(s) == Waiting(1) && s.entry.value.step == 1
            && s.entry.value.approver == manager && s.entry.value.createdAt == Some(env.later)
  {
    ValidIsSound(w);
    CreationComesTo(w, "", true, manager, env);
    CreationInvites(w, env.hold.id, env.hold.subject, manager, env.hold.attendees);
    var hold := NewHold(w, env.hold.id, env.hold.subject, manager, env.hold.attendees);
    assert Next(w, 0, "") == 1;
    assert PathFrom(w, env.(hold := hold), 1) == Path([], GateMet(1));
    assert Calendar.FirstRequired(hold.attendees) == 0;
    hide Valid, Sound, Reached, Settle, NewHold, PathFrom, Next;
  }

  /** A poll that finds the workflow and the hold, and in which no step fails. */
  ghost predicate Smooth(env: Env) {
    env.loads && env.fetch.Fetched? && forall i: nat :: !env.fails(i)
  }

  /** The run after such a poll. */
  function Polled(w: Workflow, s: Run, poll: Env): Run {
    Settle(w, Poll(w, s, poll))
  }

  /** A poll that reads an outcome performs the path of its branch. */
  lemma OutcomeRuns(w: Workflow, manager: string, env: Env, poll: Env, o: GateOutcome, j: int)
    requires AsksTheManager(w) && Sound(w) && Smooth(poll) && Branches(w, 1, o, j)
    requires var s := AtApproval(w, manager, env);
             s.entry.Some? && s.entry.value.step == 1 && Reads(w, s.entry.value, poll.hold, poll.now, o)
    ensures var t, p := Polled(w, AtApproval(w, manager, env), poll), PathFrom(w, poll, j);
            && t.log == p.effects && t.alive == (p.halt != Cancelled)
            && (t.entry.None? <==> p.halt == RanOut || p.halt == Cancelled)
  {
    WaitsForTheManager(w, manager, env);
    var s := AtApproval(w, manager, env);
    AnswerIsWalked(w, s, poll);
    hide AsksTheManager, Sound, Reached, Reads, Branches, PathFrom, AtApproval, Settle, Poll, CursorOf;
  }

  /** Step `i` is performed, and the flow then ends. */
  lemma LastStep(w: Workflow, env: Env, i: nat)
    requires Sound(w) && i < |w.steps| && Smooth(env) && w.steps[i].guard == Guards.UNGUARDED
    requires w.steps[i].verb in [Notify, Note, Message, Leave] && w.steps[i].next == "end"
    ensures PathFrom(w, env, i) == Path([i], RanOut)
  {
    assert Next(w, i, "") == -1;
    assert Performs(w, env, i);
    PathStep(w, env, i);
    hide Sound, Performs;
  }

  /** Step `i` is performed, and the flow goes on to step `j`. */
  lemma StepThen(w: Workflow, env: Env, i: nat, j: nat)
    requires Sound(w) && i < |w.steps| && Smooth(env) && w.steps[i].guard == Guards.UNGUARDED
    requires w.steps[i].verb in [Notify, Note, Message, Leave] && Next(w, i, "") == j
    ensures var rest := PathFrom(w, env, j);
            PathFrom(w, env, i) == Path([i] + rest.effects, rest.halt)
  {
    assert Performs(w, env, i);
    PathStep(w, env, i);
    hide Sound, Performs, PathFrom;
  }

  lemma CancelStep(w: Workflow, env: Env, i: nat)
    requires Sound(w) && i < |w.steps| && Smooth(env) && w.steps[i].guard == Guards.UNGUARDED
    requires w.steps[i].verb == Cancel
    ensures PathFrom(w, env, i) == Path([i], Cancelled)
  {
    assert Performs(w, env, i);
    PathStep(w, env, i);
    hide Sound, Performs;
  }

  // ---------------------------------------------------------------------------------------
  // Why they are accepted
  // ---------------------------------------------------------------------------------------

  /** A step that nothing is wrong with by itself and that neither creates nor waits. */
  predicate Harmless(s: Step) {
    && ProblemBeforeId(s).None? && ProblemAfterId(s).None? && !Creates(s.verb) && !Waits(s.verb)
    && s.id != "" && s.id != "hold" && s.id != "approval" && s.id != "end"
  }

  /** The hold, the manager's approval, and two more steps that its branches lead to. */
  ghost predicate IsTemplate(w: Workflow, on: map<string, string>, timeout: Duration, a: Step, b: Step) {
    && w.name != "" && w.steps == [FreeHold(), ManagerDecides(on).(timeout := timeout), a, b]
    && Harmless(a) && Harmless(b) && a.id != b.id && (a.next == "end" || a.next == b.id) && b.next == "end"
    && (forall o :: o in on ==> o == ACCEPTED || o == DECLINED || o == EXPIRED)
    && (forall o :: o in on ==> on[o] == a.id || on[o] == b.id)
    && timeout != BadDuration && (timeout != NoDuration <==> EXPIRED in on)
  }

  lemma OnlyIndex(w: Workflow, i: nat, id: string)
    requires id != "" && IsOnlyStepNamed(w, i, id)
    ensures StepIndex(w, id) == i
  {
    assert w.steps[i].id == id;
  }

  lemma TemplateIndexes(w: Workflow, on: map<string, string>, timeout: Duration, a: Step, b: Step)
    requires IsTemplate(w, on, timeout, a, b)
    ensures StepIndex(w, a.id) == 2 && StepIndex(w, b.id) == 3
    ensures Next(w, 0, "") == 1 && Next(w, 2, "") == (if a.next == "end" then -1 else 3) && Next(w, 3, "") == -1
    ensures IsOnlyStepNamed(w, 2, a.id) && IsOnlyStepNamed(w, 3, b.id)
  {
    ShowsIds(a);
    ShowsIds(b);
    hide Harmless;
    OnlyIndex(w, 2, a.id);
    OnlyIndex(w, 3, b.id);
    hide StepIndex;
  }

  lemma ShowsIds(s: Step)
    requires Harmless(s)
    ensures s.id != "" && s.id != "hold" && s.id != "approval" && s.id != "end"
  {}

  lemma FirstTwoAreClean(on: map<string, string>, timeout: Duration)
    requires forall o :: o in on ==> o == ACCEPTED || o == DECLINED || o == EXPIRED
    requires timeout != BadDuration && (timeout != NoDuration <==> EXPIRED in on)
    ensures ProblemBeforeId(FreeHold()).None? && ProblemAfterId(FreeHold()).None?
    ensures var s := ManagerDecides(on).(timeout := timeout);
            ProblemBeforeId(s).None? && ProblemAfterId(s).None?
  {
    UnguardedIsFine();
    hide Guards.WellFormed;
  }

  lemma TemplateIsClean(w: Workflow, on: map<string, string>, timeout: Duration, a: Step, b: Step)
    requires IsTemplate(w, on, timeout, a, b)
    ensures forall i :: 0 <= i < |w.steps| ==> StepProblem(w, i).None?
  {
    FirstTwoAreClean(on, timeout);
    hide ProblemBeforeId, ProblemAfterId;
    assert !HasVerbBefore(w, Approve, 1);
    hide HasVerbBefore;
    assert StepProblem(w, 0).None?;
    assert StepProblem(w, 1).None?;
    assert StepProblem(w, 2).None?;
    assert StepProblem(w, 3).None?;
  }

  lemma UnguardedIsFine()
    ensures Guards.WellFormed(Guards.UNGUARDED)
  {}

  lemma TemplateGoesDown(w: Workflow, on: map<string, string>, timeout: Duration, a: Step, b: Step)
    requires IsTemplate(w, on, timeout, a, b)
    ensures !Cyclic(w)
  {
    TemplateIndexes(w, on, timeout, a, b);
    hide StepIndex, Harmless;
    MovingDownExcludesCycles(w);
  }

  lemma TemplateIsValid(w: Workflow, on: map<string, string>, timeout: Duration, a: Step, b: Step)
    requires IsTemplate(w, on, timeout, a, b)
    ensures Valid(w) && AsksTheManager(w)
  {
    TemplateIndexes(w, on, timeout, a, b);
    TemplateIsClean(w, on, timeout, a, b);
    TemplateGoesDown(w, on, timeout, a, b);
    ApprovesFirst(w);
    ShowsIds(a);
    ShowsIds(b);
    hide StepProblem, Cyclic, StepIndex, Harmless, FirstApprove, FirstOf, Has, Next;
    TemplateTargets(w, on, timeout, a, b);
    hide BranchesResolve, NextResolves;
  }

  lemma ApprovesFirst(w: Workflow)
    requires |w.steps| == 4 && w.steps[0].verb == Hold && w.steps[1].verb == Approve
    ensures FirstApprove(w) == 1 && (Has(w, Notify) ==> 1 < FirstOf(w, Notify, 0))
  {}

  lemma TemplateTargets(w: Workflow, on: map<string, string>, timeout: Duration, a: Step, b: Step)
    requires IsTemplate(w, on, timeout, a, b) && StepIndex(w, a.id) == 2 && StepIndex(w, b.id) == 3
    ensures forall i :: 0 <= i < |w.steps| ==> BranchesResolve(w, w.steps[i]) && NextResolves(w, w.steps[i])
  {
    NoBranches(a);
    NoBranches(b);
    hide Harmless, StepIndex;
  }

  lemma NoBranches(s: Step)
    requires Harmless(s)
    ensures s.on == map[]
  {}

  // ---------------------------------------------------------------------------------------
  // What their runs do
  // ---------------------------------------------------------------------------------------

  /** The poll changes nothing: the run goes on waiting. */
  lemma SilenceWaits(w: Workflow, manager: string, env: Env, poll: Env)
    requires AsksTheManager(w) && Sound(w) && Smooth(poll)
    requires !Hears(poll.hold, manager, Calendar.Accepted) && !Hears(poll.hold, manager, Calendar.Declined)
    requires w.steps[1].timeout.Units? ==> poll.now <= env.later + w.steps[1].timeout.n
    ensures Polled(w, AtApproval(w, manager, env), poll) == AtApproval(w, manager, env)
  {
    WaitsForTheManager(w, manager, env);
    var s := AtApproval(w, manager, env);
    AnswerIsWalked(w, s, poll);
    assert forall o :: !Reads(w, s.entry.value, poll.hold, poll.now, o);
    hide Valid, Sound, Reached, Hears, PathFrom, AtApproval, Settle, Poll;
  }

  /** What the poll reads of the manager. */
  lemma ManagerIsRead(w: Workflow, manager: string, env: Env, poll: Env)
    requires AsksTheManager(w)
    ensures var s := AtApproval(w, manager, env);
            && s.entry.Some? && s.entry.value.step == 1 && Sound(w)
            && (Accepts(poll, manager) ==> Reads(w, s.entry.value, poll.hold, poll.now, GateOutcome.Approval))
            && (Declines(poll, manager) ==> Reads(w, s.entry.value, poll.hold, poll.now, Refusal))
            && (TooLate(w, env, poll, manager) ==> Reads(w, s.entry.value, poll.hold, poll.now, TimedOut))
  {
    WaitsForTheManager(w, manager, env);
    hide Hears, AtApproval, Sound, Reached;
    assert w.steps[1].verb == Approve;
  }

  ghost predicate Accepts(poll: Env, manager: string) {
    Hears(poll.hold, manager, Calendar.Accepted)
  }

  ghost predicate Declines(poll: Env, manager: string) {
    Hears(poll.hold, manager, Calendar.Declined)
  }

  /** The manager has not answered, and the approval has been waiting longer than its timeout. */
  ghost predicate TooLate(w: Workflow, env: Env, poll: Env, manager: string)
    requires |w.steps| > 1
  {
    && !Accepts(poll, manager) && !Declines(poll, manager)
    && w.steps[1].timeout.Units? && w.steps[1].timeout.n > 0 && poll.now > env.later + w.steps[1].timeout.n
  }

  /** `t` has performed the path, which runs to the end, and is off the watch file. */
  predicate Ends(t: Run, p: Path) {
    t.log == p.effects && t.alive == (p.halt != Cancelled) && t.entry.None?
  }

  /** The run of a template after one poll: the branch of the manager's answer, of the timeout, or nothing. */
  lemma OnePoll(w: Workflow, manager: string, env: Env, poll: Env, yes: int, no: int, late: int)
    requires AsksTheManager(w) && Sound(w) && Smooth(poll)
    requires Branches(w, 1, GateOutcome.Approval, yes) && Branches(w, 1, Refusal, no)
    requires w.steps[1].timeout.Units? ==> w.steps[1].timeout.n > 0 && Branches(w, 1, TimedOut, late)
    requires forall j :: j == yes || j == no || j == late ==> PathFrom(w, poll, j).halt in {RanOut, Cancelled}
    ensures var s := AtApproval(w, manager, env);
            var t := Polled(w, s, poll);
            && (Accepts(poll, manager) ==> Ends(t, PathFrom(w, poll, yes)))
            && (Declines(poll, manager) ==> Ends(t, PathFrom(w, poll, no)))
            && (TooLate(w, env, poll, manager) ==> Ends(t, PathFrom(w, poll, late)))
            && (!Accepts(poll, manager) && !Declines(poll, manager) && !TooLate(w, env, poll, manager) ==> t == s)
  {
    ManagerIsRead(w, manager, env, poll);
    hide AsksTheManager, Sound, Hears, Reads, Branches, PathFrom, AtApproval, Polled;
    if Accepts(poll, manager) { OutcomeRuns(w, manager, env, poll, GateOutcome.Approval, yes); }
    if Declines(poll, manager) { OutcomeRuns(w, manager, env, poll, Refusal, no); }
    if TooLate(w, env, poll, manager) {
      OutcomeRuns(w, manager, env, poll, TimedOut, late);
    } else if !Accepts(poll, manager) && !Declines(poll, manager) {
      SilenceWaits(w, manager, env, poll);
    }
  }

  lemma NoStep(w: Workflow, env: Env)
    requires Sound(w)
    ensures PathFrom(w, env, -1) == Path([], RanOut)
  {}

  lemma NotifyOnDeclineIsTemplate()
    ensures var on, a, b := map["accepted" := "notify", "declined" := "denied"], TellTeam(),
                            Plain(Note, "denied", "end", "");
            IsTemplate(NotifyOnDecline(), on, NoDuration, a, b)
  {
    hide Guards.WellFormed;
    UnguardedIsFine();
  }

  lemma NotifyOnDeclineFlow(poll: Env)
    requires Smooth(poll)
    ensures var w := NotifyOnDecline();
            && Valid(w) && Sound(w) && AsksTheManager(w) && w.steps[1].timeout == NoDuration
            && Branches(w, 1, GateOutcome.Approval, 2) && Branches(w, 1, Refusal, 3)
            && PathFrom(w, poll, 2) == Path([2], RanOut) && PathFrom(w, poll, 3) == Path([3], RanOut)
  {
    var w, on := NotifyOnDecline(), map["accepted" := "notify", "declined" := "denied"];
    var a, b := TellTeam(), Plain(Note, "denied", "end", "");
    NotifyOnDeclineIsTemplate();
    hide Harmless, ProblemBeforeId, ProblemAfterId;
    TemplateIsValid(w, on, NoDuration, a, b);
    TemplateIndexes(w, on, NoDuration, a, b);
    hide StepIndex, IsTemplate;
    ValidIsSound(w);
    LastStep(w, poll, 2);
    LastStep(w, poll, 3);
    hide Valid, Sound, PathFrom, AsksTheManager;
  }

  /** pto-notify-on-decline: the manager's acceptance tells the team, step 2; the refusal writes the note, step
      3; and without an answer the run waits. */
  lemma RefusalIsNoted(manager: string, env: Env, poll: Env)
    requires Smooth(poll)
    ensures Valid(NotifyOnDecline())
    ensures var w := NotifyOnDecline();
            var s := AtApproval(w, manager, env);
            var t := Polled(w, s, poll);
            if Accepts(poll, manager) then t.log == [2] && t.entry.None? && t.alive
            else if Declines(poll, manager) then t.log == [3] && t.entry.None? && t.alive
            else t == s
  {
    NotifyOnDeclineFlow(poll);
    hide NotifyOnDecline, Valid, AsksTheManager, Sound, Accepts, Declines, AtApproval, Polled, PathFrom, Branches;
    OnePoll(NotifyOnDecline(), manager, env, poll, 2, 3, 2);
  }

  lemma AnnounceIsTemplate()
    ensures var on := map["accepted" := "announce"];
            var a, b := Plain(Message, "announce", "notify", "").(channel := "#out-of-office"), TellTeam();
            IsTemplate(Announce(), on, NoDuration, a, b)
  {
    hide Guards.WellFormed;
    UnguardedIsFine();
  }

  lemma AnnounceFlow(poll: Env)
    requires Smooth(poll)
    ensures var w := Announce();
            && Valid(w) && Sound(w) && AsksTheManager(w) && w.steps[1].timeout == NoDuration
            && Branches(w, 1, GateOutcome.Approval, 2) && Branches(w, 1, Refusal, -1)
            && PathFrom(w, poll, 2) == Path([2, 3], RanOut) && PathFrom(w, poll, -1) == Path([], RanOut)
  {
    var w, on := Announce(), map["accepted" := "announce"];
    var a, b := Plain(Message, "announce", "notify", "").(channel := "#out-of-office"), TellTeam();
    AnnounceIsTemplate();
    hide Harmless, ProblemBeforeId, ProblemAfterId;
    TemplateIsValid(w, on, NoDuration, a, b);
    TemplateIndexes(w, on, NoDuration, a, b);
    hide StepIndex, IsTemplate;
    ValidIsSound(w);
    StepThen(w, poll, 2, 3);
    LastStep(w, poll, 3);
    NoStep(w, poll);
    hide Valid, Sound, PathFrom, AsksTheManager;
  }

  /** pto-announce: an acceptance posts the message and then tells the team; a refusal just ends the run. */
  lemma AcceptanceIsAnnounced(manager: string, env: Env, poll: Env)
    requires Smooth(poll)
    ensures Valid(Announce())
    ensures var w := Announce();
            var s := AtApproval(w, manager, env);
            var t := Polled(w, s, poll);
            if Accepts(poll, manager) then t.log == [2, 3] && t.entry.None? && t.alive
            else if Declines(poll, manager) then t.log == [] && t.entry.None? && t.alive
            else t == s
  {
    AnnounceFlow(poll);
    hide Announce, Valid, AsksTheManager, Sound, Accepts, Declines, AtApproval, Polled, PathFrom, Branches;
    OnePoll(Announce(), manager, env, poll, 2, -1, -1);
  }

  lemma FileLeaveIsTemplate()
    ensures var on, a, b := map["accepted" := "file"], Plain(Leave, "file", "notify", ""),
                            TellTeam();
            IsTemplate(FileLeave(), on, NoDuration, a, b)
  {
    hide Guards.WellFormed;
    UnguardedIsFine();
  }

  lemma FileLeaveFlow(poll: Env)
    requires Smooth(poll)
    ensures var w := FileLeave();
            && Valid(w) && Sound(w) && AsksTheManager(w) && w.steps[1].timeout == NoDuration
            && Branches(w, 1, GateOutcome.Approval, 2) && Branches(w, 1, Refusal, -1)
            && PathFrom(w, poll, 2) == Path([2, 3], RanOut) && PathFrom(w, poll, -1) == Path([], RanOut)
  {
    var w, on := FileLeave(), map["accepted" := "file"];
    var a, b := Plain(Leave, "file", "notify", ""), TellTeam();
    FileLeaveIsTemplate();
    hide Harmless, ProblemBeforeId, ProblemAfterId;
    TemplateIsValid(w, on, NoDuration, a, b);
    TemplateIndexes(w, on, NoDuration, a, b);
    hide StepIndex, IsTemplate;
    ValidIsSound(w);
    StepThen(w, poll, 2, 3);
    LastStep(w, poll, 3);
    NoStep(w, poll);
    hide Valid, Sound, PathFrom, AsksTheManager;
  }

  /** pto-file-leave: an acceptance files the leave and then tells the team; a refusal just ends the run. */
  lemma AcceptanceFilesLeave(manager: string, env: Env, poll: Env)
    requires Smooth(poll)
    ensures Valid(FileLeave())
    ensures var w := FileLeave();
            var s := AtApproval(w, manager, env);
            var t := Polled(w, s, poll);
            if Accepts(poll, manager) then t.log == [2, 3] && t.entry.None? && t.alive
            else if Declines(poll, manager) then t.log == [] && t.entry.None? && t.alive
            else t == s
  {
    FileLeaveFlow(poll);
    hide FileLeave, Valid, AsksTheManager, Sound, Accepts, Declines, AtApproval, Polled, PathFrom, Branches;
    OnePoll(FileLeave(), manager, env, poll, 2, -1, -1);
  }

  lemma CancelOnTimeoutIsTemplate()
    ensures var on, a, b := map["accepted" := "notify", "expired" := "expired"], TellTeam(),
                            Plain(Cancel, "expired", "end", "");
            IsTemplate(CancelOnTimeout(), on, Units(3 * DAY), a, b)
  {
    hide Guards.WellFormed;
    UnguardedIsFine();
  }

  lemma CancelOnTimeoutFlow(poll: Env)
    requires Smooth(poll)
    ensures var w := CancelOnTimeout();
            && Valid(w) && Sound(w) && AsksTheManager(w) && w.steps[1].timeout == Units(3 * DAY)
            && Branches(w, 1, GateOutcome.Approval, 2) && Branches(w, 1, Refusal, -1) && Branches(w, 1, TimedOut, 3)
            && PathFrom(w, poll, 2) == Path([2], RanOut) && PathFrom(w, poll, -1) == Path([], RanOut)
            && PathFrom(w, poll, 3) == Path([3], Cancelled)
  {
    var w, on := CancelOnTimeout(), map["accepted" := "notify", "expired" := "expired"];
    var a, b := TellTeam(), Plain(Cancel, "expired", "end", "");
    CancelOnTimeoutIsTemplate();
    hide Harmless, ProblemBeforeId, ProblemAfterId;
    TemplateIsValid(w, on, Units(3 * DAY), a, b);
    TemplateIndexes(w, on, Units(3 * DAY), a, b);
    hide StepIndex, IsTemplate;
    ValidIsSound(w);
    LastStep(w, poll, 2);
    CancelStep(w, poll, 3);
    NoStep(w, poll);
    hide Valid, Sound, PathFrom, AsksTheManager;
  }

  /** pto-cancel-on-timeout: an acceptance tells the team, a refusal just ends the run, and silence for more than
      72 hours cancels the hold. */
  lemma SilenceCancels(manager: string, env: Env, poll: Env)
    requires Smooth(poll)
    ensures Valid(CancelOnTimeout())
    ensures var w := CancelOnTimeout();
            var s := AtApproval(w, manager, env);
            var t := Polled(w, s, poll);
            if Accepts(poll, manager) then t.log == [2] && t.entry.None? && t.alive
            else if Declines(poll, manager) then t.log == [] && t.entry.None? && t.alive
            else if poll.now - env.later > 72 * 3_600_000_000_000 then t.log == [3] && t.entry.None? && !t.alive
            else t == s
  {
    CancelOnTimeoutFlow(poll);
    hide CancelOnTimeout, Valid, AsksTheManager, Sound, Accepts, Declines, AtApproval, Polled, PathFrom, Branches;
    OnePoll(CancelOnTimeout(), manager, env, poll, 2, -1, 3);
  }
}
