/** Accepted definitions that the exact conditions tell apart: why gate safety, the order of the fan-out and
    the order of effects need more than Validate checks. Each is a whole definition, accepted as it
    stands, with runs of it from creation, whose polls read a clock that never runs back, or with what holds of
    all such runs (internal/workflow/workflow.go, cmd/run.go, cmd/daemon.go). */
module Witnesses {
  import opened Base
  import opened Workflows
  import opened Protocol
  import opened Clocks
  import opened Routes
  import opened RouteRuns
  import opened NotifyOrder
  import Calendar
  import EffectOrder
  import ExactGates
  import Gates
  import Guards

  function Plain(verb: Verb, id: string, next: string, approver: string): Step {
    Step(verb, id, map[], next, NoDuration, Guards.UNGUARDED, Unset, false, approver, Unset, "", NoDuration)
  }

  /** The hold jumps over its approval to the fan-out. */
  function JumpsToTeam(): Workflow {
    var hold := Plain(Hold, "", "team", "");
    var approve := Plain(Approve, "ok", "", "");
    var notify := Plain(Notify, "team", "", "");
    Workflow("jumps", [hold, approve, notify])
  }

  /** The hold jumps over the first approval to the second. */
  function JumpsToSecond(): Workflow {
    var hold := Plain(Hold, "", "second", "");
    var approve := Plain(Approve, "first", "", "amy");
    var other := Plain(Approve, "second", "", "bob");
    Workflow("second", [hold, approve, other])
  }

  lemma {:induction false} PathsRise(w: Workflow, p: seq<int>, k: nat)
    requires (forall i, j :: Edge(w, i, j) ==> i < j) && IsPath(w, p) && 0 < k < |p|
    ensures p[0] < p[k]
  {
    assert Edge(w, p[k - 1], p[k - 1 + 1]);
    if k > 1 { PathsRise(w, p, k - 1); }
  }

  /** A definition that only moves down the file has no cycle. */
  lemma MovingDownExcludesCycles(w: Workflow)
    requires forall i, j :: Edge(w, i, j) ==> i < j
    ensures !Cyclic(w)
  {
    if i :| Precedes(w, i, i) {
      var p :| IsPathBetween(w, p, i, i);
      PathsRise(w, p, |p| - 1);
    }
  }

  lemma JumpsToTeamStepsAreClean()
    ensures forall i :: 0 <= i < |JumpsToTeam().steps| ==> StepProblem(JumpsToTeam(), i).None?
  {
    var w := JumpsToTeam();
    assert StepProblem(w, 0).None?;
    assert StepProblem(w, 1).None?;
    assert StepProblem(w, 2).None?;
  }

  lemma JumpsToTeamGoesDown()
    ensures !Cyclic(JumpsToTeam())
  {
    var w := JumpsToTeam();
    assert StepIndex(w, "team") == 2;
    MovingDownExcludesCycles(w);
  }

  lemma JumpsToTeamIsValid()
    ensures Valid(JumpsToTeam())
  {
    var w := JumpsToTeam();
    JumpsToTeamStepsAreClean();
    JumpsToTeamGoesDown();
    hide StepProblem, Cyclic;
    assert StepIndex(w, "team") == 2;
  }

  lemma JumpsToSecondStepsAreClean()
    ensures forall i :: 0 <= i < |JumpsToSecond().steps| ==> StepProblem(JumpsToSecond(), i).None?
  {
    var w := JumpsToSecond();
    assert StepProblem(w, 0).None?;
    assert StepProblem(w, 1).None?;
    assert StepProblem(w, 2).None?;
  }

  lemma JumpsToSecondGoesDown()
    ensures !Cyclic(JumpsToSecond())
  {
    var w := JumpsToSecond();
    assert StepIndex(w, "second") == 2;
    MovingDownExcludesCycles(w);
  }

  lemma JumpsToSecondIsValid()
    ensures Valid(JumpsToSecond())
  {
    var w := JumpsToSecond();
    JumpsToSecondStepsAreClean();
    JumpsToSecondGoesDown();
    hide StepProblem, Cyclic;
    assert StepIndex(w, "second") == 2;
  }

  /** Any weekday can be that of a whole walk. */
  lemma OneWeekdaySpans(w: Workflow, span: Span, d: Guards.Weekday)
    ensures Spans(w, span, _ => d)
  {
    assert Dated(w, _ => d, _ => d, d, d);
  }

  /** An accepted workflow that notifies the team with no approval read, in walks within a day. */
  lemma AcceptedWorkflowNotifiesEarly(manager: string) returns (env: Env, xs: seq<Input>)
    ensures Valid(JumpsToTeam()) && Real(JumpsToTeam(), AtMost(0), env, xs)
    ensures NotifiedUnread(JumpsToTeam(), Execute(JumpsToTeam(), CreatedIn(JumpsToTeam(), manager, env), xs))
  {
    var w := JumpsToTeam();
    JumpsToTeamIsValid();
    ValidIsSound(w);
    var x := Place(Next(w, 0, ""), 1, _ => 0, false, "");
    OneWeekdaySpans(w, AtMost(0), 0);
    assert Spans(w, AtMost(0), x.day);
    StartReaches(w, Unapproved(w, manager, AtMost(0)), x);
    assert Guards.Allows(Guards.UNGUARDED, 0, 1);
    assert NotifiesAt(w, x) by { assert StepIndex(w, "team") == 2; }
    env, xs := EarlyRouteNotifiesEarly(w, manager, AtMost(0));
  }

  /** An accepted workflow whose second approver's gate opens on the first approver's word. */
  lemma AcceptedWorkflowAsksTheWrongPerson(provider: string, manager: string) returns (env: Env, xs: seq<Input>)
    ensures Valid(JumpsToSecond()) && Gates.InvitesWork(xs) && Real(JumpsToSecond(), AtMost(0), env, xs)
    ensures var s := Execute(JumpsToSecond(), Created(JumpsToSecond(), provider, true, manager, env), xs);
            s.commits != [] && !Gates.OwnReply(JumpsToSecond(), s.commits[|s.commits| - 1])
  {
    var w := JumpsToSecond();
    JumpsToSecondIsValid();
    ValidIsSound(w);
    OneWeekdaySpans(w, AtMost(0), 0);
    SecondIsNotInvited(manager);
    hide Valid, Sound, JumpsToSecond, Gates.GateInvited, Gates.FirstGate, Execute, Created, Real, Gates.OwnReply;
    assert !Gates.FirstGateInvited(w, manager, AtMost(0));
    env, xs := ExactGates.WrongFirstGate(w, provider, manager, AtMost(0));
  }

  lemma SecondIsNotInvited(manager: string)
    ensures var w := JumpsToSecond();
            Sound(w) && !Gates.GateInvited(w, manager, Gates.FirstGate(w, _ => 0))
  {
    var w := JumpsToSecond();
    JumpsToSecondIsValid();
    ValidIsSound(w);
    assert Gates.FirstGate(w, _ => 0) == 2 by { assert StepIndex(w, "second") == 2; }
    assert FirstApprove(w) == 1;
    assert !Calendar.SameEmail("amy", "bob") by { assert Calendar.Lower("amy")[0] != Calendar.Lower("bob")[0]; }
  }

  // ---------------------------------------------------------------------------------------
  // A failed invite
  // ---------------------------------------------------------------------------------------

  /** The bundled template pto-two-level: the manager, then a named director, before the team is told
      (internal/workflow/templates/pto-two-level.json). */
  function TwoLevel(): Workflow {
    var hold := Plain(Hold, "hold", "", "").(showAs := Known(Calendar.ShowFree));
    var manager := Plain(Approve, "manager", "", "").(manager := true);
    var director := Plain(Approve, "director", "", "director@example.com");
    var notify := Plain(Notify, "notify", "end", "").(team := Known(Calendar.Role.Optional));
    Workflow("pto-two-level", [hold, manager, director, notify])
  }

  lemma TwoLevelFirstStepsAreClean()
    ensures StepProblem(TwoLevel(), 0).None? && StepProblem(TwoLevel(), 1).None?
  {}

  lemma TwoLevelLastStepsAreClean()
    ensures StepProblem(TwoLevel(), 2).None? && StepProblem(TwoLevel(), 3).None?
  {}

  lemma TwoLevelStepsAreClean()
    ensures forall i :: 0 <= i < |TwoLevel().steps| ==> StepProblem(TwoLevel(), i).None?
  {
    TwoLevelFirstStepsAreClean();
    TwoLevelLastStepsAreClean();
    hide StepProblem;
  }

  lemma TwoLevelGoesDown()
    ensures !Cyclic(TwoLevel())
  {
    var w := TwoLevel();
    MovingDownExcludesCycles(w);
  }

  lemma TwoLevelIsValid()
    ensures Valid(TwoLevel())
  {
    var w := TwoLevel();
    TwoLevelStepsAreClean();
    TwoLevelGoesDown();
    hide StepProblem, Cyclic;
  }

  lemma TwoLevelShape(manager: string)
    ensures var w := TwoLevel();
            && |w.steps| == 4 && w.steps[0].verb == Hold && w.steps[1].verb == Approve && w.steps[1].approver == ""
            && NamesApprover(w, 2) && w.steps[2].approver == "director@example.com"
            && Next(w, 0, "") == 1 && Next(w, 1, ACCEPTED) == 2
            && Has(w, Approve) && FirstInvitee(w, manager) == manager
  {
    var w := TwoLevel();
    assert w.steps[1].verb == Approve && FirstApprove(w) == 1;
  }

  lemma TwoLevelStrays(manager: string)
    requires !Calendar.SameEmail("director@example.com", manager)
    ensures ExactGates.Strays(TwoLevel(), Conditions(manager, AtMost(0), -1))
  {
    TwoLevelShape(manager);
    hide TwoLevel, Has, FirstInvitee, Calendar.SameEmail;
    var w, c := TwoLevel(), Conditions(manager, AtMost(0), -1);
    var first, second := Place(1, 1, _ => 0, false, ""), Place(2, 1, _ => 0, true, manager);
    OneWeekdaySpans(w, AtMost(0), 0);
    assert Spans(w, AtMost(0), first.day) && Spans(w, AtMost(0), second.day);
    StartReaches(w, c, first);
    HopReaches(w, c, first, second);
    assert ExactGates.CarriesOther(w, manager, second, manager);
  }

  /** Some run of the bundled template, from the creation of its hold, crosses the director's gate without
      the director's word: unless manager and director are the same, a failed invite is enough. */
  lemma TwoLevelCrossesOnTheManagersWord(manager: string) returns (env: Env, xs: seq<Input>)
    requires !Calendar.SameEmail("director@example.com", manager)
    ensures Valid(TwoLevel()) && Real(TwoLevel(), AtMost(0), env, xs)
    ensures var s := Execute(TwoLevel(), CreatedIn(TwoLevel(), manager, env), xs);
            exists k :: 0 <= k < |s.commits| && s.commits[k].gate == 2 && !Gates.OwnReply(TwoLevel(), s.commits[k])
  {
    TwoLevelIsValid();
    ValidIsSound(TwoLevel());
    TwoLevelStrays(manager);
    OnlyTheDirectorIsNamed();
    hide Valid, ExactGates.Strays, TwoLevel, Execute, CreatedIn, NamesApprover, Gates.OwnReply, Real;
    env, xs := ExactGates.StrayRouteCrosses(TwoLevel(), Conditions(manager, AtMost(0), -1));
  }

  lemma OnlyTheDirectorIsNamed()
    ensures forall c: Commit :: !Gates.OwnReply(TwoLevel(), c) ==> c.gate == 2
  {
    hide Calendar.ApprovedBy, Calendar.DeclinedBy;
  }

  // ---------------------------------------------------------------------------------------
  // A timeout of zero
  // ---------------------------------------------------------------------------------------

  /** An approval with a timeout of zero and an expired branch. */
  function ZeroTimeout(): Workflow {
    var hold := Plain(Hold, "", "", "");
    var approve := Plain(Approve, "", "", "").(timeout := Units(0), on := map[EXPIRED := END]);
    Workflow("zero", [hold, approve])
  }

  lemma ZeroTimeoutStepsAreClean()
    ensures forall i :: 0 <= i < |ZeroTimeout().steps| ==> StepProblem(ZeroTimeout(), i).None?
  {
    var w := ZeroTimeout();
    assert StepProblem(w, 0).None?;
    assert StepProblem(w, 1).None?;
  }

  lemma ZeroTimeoutGoesDown()
    ensures !Cyclic(ZeroTimeout())
  {
    var w := ZeroTimeout();
    MovingDownExcludesCycles(w);
  }

  lemma ZeroTimeoutIsValid()
    ensures Valid(ZeroTimeout())
  {
    var w := ZeroTimeout();
    ZeroTimeoutStepsAreClean();
    ZeroTimeoutGoesDown();
    hide StepProblem, Cyclic;
  }

  /** Validate accepts it, and its runs never expire: a created run waits at the gate, and over any polls and
      crashes without a reply nothing opens it and nothing is performed. */
  lemma {:induction false} AcceptedTimeoutNeverExpires(manager: string, env: Env, xs: seq<Input>)
    ensures Valid(ZeroTimeout())
    ensures var s := Execute(ZeroTimeout(), CreatedIn(ZeroTimeout(), manager, env), [Act, Act]);
            && s.entry.Some? && EntryCursor(s.entry.value) == Waiting(1)
            && (Gates.Unanswered(s.entry.value, xs) ==>
                  var t := Execute(ZeroTimeout(), s, xs);
                  t.commits == [] && t.log == [] && !t.completed && (t.entry == s.entry || t.entry.None?))
  {
    ZeroTimeoutIsValid();
    var w := ZeroTimeout();
    var created := CreatedIn(w, manager, env);
    var arrived := WalkTurn(w, created);
    assert arrived.pc == Arrived(created.pc.mode, created.pc.env, 1);
    var s := AtArrival(w, arrived);
    assert [Act, Act][1..] == [Act] && [Act][1..] == [];
    assert Execute(w, created, [Act, Act]) == s;
    if Gates.Unanswered(s.entry.value, xs) { Gates.NeverExpires(w, s, s.entry.value, xs); }
  }

  // ---------------------------------------------------------------------------------------
  // A guard that changes its answer
  // ---------------------------------------------------------------------------------------

  /** After a wait, a note for holds with at least two attendees, and another for all. */
  function Flips(): Workflow {
    var away := Plain(Away, "", "", "");
    var wait := Plain(Wait, "", "", "").(delay := Units(2 * DAY));
    var guarded := Plain(Note, "", "", "").(guard := Guards.When("", 2, 0));
    var note := Plain(Note, "", "", "");
    Workflow("flips", [away, wait, guarded, note])
  }

  lemma FlipsStepsAreClean()
    ensures forall i :: 0 <= i < |Flips().steps| ==> StepProblem(Flips(), i).None?
  {
    var w := Flips();
    assert StepProblem(w, 0).None?;
    assert StepProblem(w, 1).None?;
    assert StepProblem(w, 2).None?;
    assert StepProblem(w, 3).None?;
  }

  lemma FlipsGoesDown()
    ensures !Cyclic(Flips())
  {
    var w := Flips();
    MovingDownExcludesCycles(w);
  }

  lemma FlipsIsValid()
    ensures Valid(Flips())
  {
    var w := Flips();
    FlipsStepsAreClean();
    FlipsGoesDown();
    hide StepProblem, Cyclic;
  }

  /** A poll of this many attendees, nothing failing. */
  function Attended(n: nat, now: int): Env {
    Reading(SomeHold(n), now)
  }

  /** Idle, the branch after the wait committed at the guarded note. */
  predicate Committed(s: Run) {
    && s.pc.Idle? && s.alive && s.entry.Some?
    && !s.entry.value.done && s.entry.value.resume == 2 && s.entry.value.step == 1
  }

  /** With one attendee the guarded note is skipped, the other performed, and a crash hits before its
      checkpoint. */
  lemma FlipsSkips(s: Run)
    requires Committed(s)
    ensures var t := Execute(Flips(), s, [Begin(Attended(1, 2 * DAY)), Act, Act, Input.Crash]);
            Committed(t) && t.log == s.log + [3]
  {
    var w, env := Flips(), Attended(1, 2 * DAY);
    var found := Poll(w, s, env);
    var skipped := WalkTurn(w, found);
    assert skipped.pc.Walking? && skipped.pc.at == 3;
    var acted := WalkTurn(w, skipped);
    assert acted.log == s.log + [3];
    FourInputs(w, s, Begin(env), Act, Act, Input.Crash);
  }

  /** With two attendees both notes are performed. */
  lemma FlipsActs(s: Run)
    requires Committed(s)
    ensures Execute(Flips(), s, [Begin(Attended(2, 2 * DAY)), Act, Act, Act]).log == s.log + [2, 3]
  {
    var w, env := Flips(), Attended(2, 2 * DAY);
    var found := Poll(w, s, env);
    var acted := WalkTurn(w, found);
    assert acted.log == s.log + [2];
    var stored := AfterEffect(w, acted);
    assert stored.pc.Walking? && stored.pc.at == 3;
    assert WalkTurn(w, stored).log == s.log + [2] + [3];
    FourInputs(w, s, Begin(env), Act, Act, Act);
  }

  /** A daemon that dies right after the write ahead of the branch. */
  lemma FlipsReads(s: Run)
    requires s.pc.Idle? && s.alive && s.log == [] && s.entry.Some?
    requires EntryCursor(s.entry.value) == Waiting(1) && s.entry.value.createdAt == Some(0)
    ensures var t := Execute(Flips(), s, [Begin(Attended(1, 2 * DAY)), Act, Input.Crash]);
            Committed(t) && t.log == []
  {
    var w := Flips();
    var read := Poll(w, s, Attended(1, 2 * DAY));
    assert read.pc.Committing? && read.pc.commit.from == 2;
    var xs := [Begin(Attended(1, 2 * DAY)), Act, Input.Crash];
    assert xs[1..] == [Act, Input.Crash] && [Act, Input.Crash][1..] == [Input.Crash] && [Input.Crash][1..] == [];
    assert Execute(w, s, xs) == Tick(w, read).(pc := Idle);
  }

  /** The hold waits. */
  lemma FlipsWaits(manager: string)
    ensures var s := Execute(Flips(), CreatedIn(Flips(), manager, Attended(0, 0)), [Act, Act]);
            && s.pc.Idle? && s.alive && s.log == [] && s.entry.Some?
            && EntryCursor(s.entry.value) == Waiting(1) && s.entry.value.createdAt == Some(0)
  {
    var w := Flips();
    var s := CreatedIn(w, manager, Attended(0, 0));
    ActsInTurn(w, s);
    var arrived := WalkTurn(w, s);
    assert arrived.pc.Arrived? && arrived.pc.gate == 1;
    assert Tick(w, arrived) == AtArrival(w, arrived);
  }

  /** Its branch is committed at the guarded note. */
  lemma FlipsCommits(manager: string) returns (xs: seq<Input>)
    ensures Clocked(Flips(), AtMost(0), 0, xs) && LastRead(0, xs) == 2 * DAY
    ensures var s := Execute(Flips(), CreatedIn(Flips(), manager, Attended(0, 0)), xs);
            Committed(s) && s.log == []
  {
    var w := Flips();
    var s := CreatedIn(w, manager, Attended(0, 0));
    FlipsWaits(manager);
    FlipsReads(Execute(w, s, [Act, Act]));
    hide Committed, Clocked, OnTime, Execute, Flips, CreatedIn;
    xs := [Begin(Attended(1, 2 * DAY)), Act, Input.Crash];
    ExecuteJoin(w, s, [Act, Act], xs);
    ActsTakeNoTime(w, AtMost(0), 0, [Act, Act]);
    PolledOnce(w, 0, Attended(1, 2 * DAY), [Act, Input.Crash]);
    assert [Begin(Attended(1, 2 * DAY))] + [Act, Input.Crash] == xs;
    ClockedJoin(w, AtMost(0), 0, [Act, Act], xs);
    xs := [Act, Act] + xs;
  }

  /** An accepted workflow whose guard answers differently after a crash: step 3 is performed, then step 2
      before it in the flow, then step 3 again. Every walk takes place within one day. */
  lemma AcceptedWorkflowRepeatsOutOfOrder(manager: string) returns (env: Env, xs: seq<Input>)
    ensures Valid(Flips()) && Real(Flips(), AtMost(0), env, xs)
    ensures Execute(Flips(), CreatedIn(Flips(), manager, env), xs).log == [3, 2, 3]
  {
    FlipsIsValid();
    hide Valid, Clocked, OnTime, Committed, Execute;
    env := Attended(0, 0);
    var s := CreatedIn(Flips(), manager, env);
    xs := FlipsCommits(manager);
    var t := Execute(Flips(), s, xs);
    FlipsSkips(t);
    var ys := [Begin(Attended(1, 2 * DAY)), Act, Act, Input.Crash];
    var u := Execute(Flips(), t, ys);
    FlipsActs(u);
    var zs := [Begin(Attended(2, 2 * DAY)), Act, Act, Act];
    ExecuteJoin(Flips(), t, ys, zs);
    ExecuteJoin(Flips(), s, xs, ys + zs);
    OneDayIsOnTime(Flips(), AtMost(0), 0);
    PolledOnce(Flips(), 2 * DAY, Attended(1, 2 * DAY), [Act, Act, Input.Crash]);
    PolledOnce(Flips(), 2 * DAY, Attended(2, 2 * DAY), [Act, Act, Act]);
    assert [Begin(Attended(1, 2 * DAY))] + [Act, Act, Input.Crash] == ys;
    assert [Begin(Attended(2, 2 * DAY))] + [Act, Act, Act] == zs;
    ClockedJoin(Flips(), AtMost(0), 2 * DAY, ys, zs);
    ClockedJoin(Flips(), AtMost(0), 0, xs, ys + zs);
    xs := xs + (ys + zs);
  }

  /** One poll that takes no time, and what follows it, read one clock. */
  lemma PolledOnce(w: Workflow, t: int, env: Env, rest: seq<Input>)
    requires env == Reading(env.hold, env.now) && t <= env.now && forall k :: 0 <= k < |rest| ==> !rest[k].Begin?
    ensures Clocked(w, AtMost(0), t, [Begin(env)] + rest) && LastRead(t, [Begin(env)] + rest) == env.now
  {
    OneDayIsOnTime(w, AtMost(0), env.now);
    assert ([Begin(env)] + rest)[1..] == rest;
    ActsTakeNoTime(w, AtMost(0), env.now, rest);
  }

  // ---------------------------------------------------------------------------------------
  // Guards on weekdays
  // ---------------------------------------------------------------------------------------

  /** After a wait, a note on working days, and another on Fridays. */
  function Fridays(): Workflow {
    var away := Plain(Away, "", "", "");
    var wait := Plain(Wait, "", "", "").(delay := Units(2 * DAY));
    var daily := Plain(Note, "", "", "").(guard := Guards.When("mon-fri", 0, 0));
    var weekly := Plain(Note, "", "", "").(guard := Guards.When("fri", 0, 0));
    Workflow("fridays", [away, wait, daily, weekly])
  }

  lemma OnePiece(spec: string)
    requires ',' !in spec && spec != "" && !Guards.IsSpace(spec[0]) && !Guards.IsSpace(spec[|spec| - 1])
    ensures Guards.Tokens(spec) == [Guards.Token(spec)] && Guards.Trim(spec) == spec
  {
    assert Guards.Trim(spec) == spec;
    hide Guards.Trim, Guards.Token, Guards.IsSpace;
    assert Guards.Split(spec) == [spec];
    hide Guards.Split, Guards.IndexOf;
  }

  lemma WorkingDaysAreRead()
    ensures Guards.Tokens("mon-fri") == [Guards.Range("mon", "fri")]
  {
    hide Guards.Tokens, Guards.Split, Guards.Trim;
    OnePiece("mon-fri");
    hide Guards.IsSpace;
    assert "mon-fri"[3] == '-' && "mon-fri"[..3] == "mon" && "mon-fri"[4..] == "fri";
    var i := Guards.IndexOf("mon-fri", '-');
    hide Guards.IndexOf;
    assert i == 3;
  }

  lemma WorkingDaysAreNamed()
    ensures Guards.Readable(Guards.Range("mon", "fri"))
    ensures forall d: Guards.Weekday :: d in Guards.Named(Guards.Range("mon", "fri")) <==> 1 <= d <= 5
  {
    assert Calendar.Lower("mon") == "mon" && Calendar.Lower("fri") == "fri";
    hide Calendar.Lower;
  }

  lemma OneToken(spec: string, t: Guards.DayToken, d: Guards.Weekday, n: nat)
    requires spec != "" && Guards.Tokens(spec) == [t] && Guards.Readable(t) && t != Guards.Blank
    ensures Guards.WellFormed(Guards.When(spec, 0, 0))
    ensures Guards.Allows(Guards.When(spec, 0, 0), d, n) <==> d in Guards.Named(t)
  {
    hide Guards.Tokens, Guards.Readable, Guards.Named;
    assert [t][..0] == [] && Guards.DaySet([]) == {};
    assert Guards.DaySet([t]) == Guards.Named(t);
    assert [t][0] == t;
  }

  lemma WorkingDays(d: Guards.Weekday, n: nat)
    ensures Guards.WellFormed(Guards.When("mon-fri", 0, 0))
    ensures Guards.Allows(Guards.When("mon-fri", 0, 0), d, n) <==> 1 <= d <= 5
  {
    hide Guards.Tokens, Guards.Readable, Guards.Named, Guards.Allows, Guards.WellFormed;
    WorkingDaysAreRead();
    WorkingDaysAreNamed();
    OneToken("mon-fri", Guards.Range("mon", "fri"), d, n);
  }

  lemma OnlyFridays(d: Guards.Weekday, n: nat)
    ensures Guards.WellFormed(Guards.When("fri", 0, 0))
    ensures Guards.Allows(Guards.When("fri", 0, 0), d, n) <==> d == 5
  {
    var t := Guards.Day("fri");
    OnePiece("fri");
    assert Guards.Token("fri") == t;
    assert Calendar.Lower("fri") == "fri";
    assert Guards.Readable(t) && (d in Guards.Named(t) <==> d == 5);
    hide Guards.Tokens, Guards.Readable, Guards.Named, Guards.Allows, Guards.WellFormed;
    OneToken("fri", t, d, n);
  }

  lemma FridaysShape()
    ensures var w := Fridays();
            && |w.steps| == 4 && w.steps[2].verb == Note && w.steps[3].verb == Note && Next(w, 2, "") == 3
            && w.steps[2].guard == Guards.When("mon-fri", 0, 0) && w.steps[3].guard == Guards.When("fri", 0, 0)
            && forall i: nat :: i < |w.steps| && Next(w, i, "") >= 0 ==> i <= Next(w, i, "")
  {}

  lemma FridaysStepsAreClean()
    ensures forall i :: 0 <= i < |Fridays().steps| ==> StepProblem(Fridays(), i).None?
  {
    hide Guards.Tokens, Guards.ReadableDays, Guards.Allows;
    WorkingDays(0, 0);
    OnlyFridays(0, 0);
    var w := Fridays();
    assert StepProblem(w, 0).None?;
    assert StepProblem(w, 1).None?;
    assert StepProblem(w, 2).None?;
    assert StepProblem(w, 3).None?;
  }

  lemma FridaysIsValid()
    ensures Valid(Fridays())
  {
    var w := Fridays();
    FridaysStepsAreClean();
    assert !Cyclic(w) by { MovingDownExcludesCycles(w); }
    hide StepProblem, Cyclic;
  }

  /** A walk that starts on a Sunday and gets to the last step on the Friday. */
  function SlowWalk(i: nat): Guards.Weekday {
    if i <= 2 then 0 else 5
  }

  lemma SlowWalkSpans(w: Workflow, midnights: nat, day: nat -> Guards.Weekday)
    requires midnights >= 5 && forall i: nat :: day(i) == SlowWalk(i)
    requires forall i: nat :: i < |w.steps| && Next(w, i, "") >= 0 ==> i <= Next(w, i, "")
    ensures Spans(w, AtMost(midnights), day)
  {
    var dates: nat -> int := (i: nat) => SlowWalk(i);
    assert Dated(w, day, dates, 0, 5);
  }

  /** The daily note, in a walk that takes place on a Monday. */
  ghost predicate DailyOnMonday(x: Place) {
    x.step == 2 && x.count == 0 && x.polled && x.approver == "" && forall i :: x.day(i) == 1
  }

  /** It is reached. */
  lemma FridaysReachDaily(c: Conditions, x: Place)
    requires DailyOnMonday(x) && c.avoid != 1
    ensures Reachable(Fridays(), c, x)
  {
    var w := Fridays();
    var first := Place(1, 0, x.day, false, "");
    assert Spans(w, c.span, x.day) by { assert Dated(w, x.day, _ => 1, 1, 1); }
    hide Spans;
    StartReaches(w, c, first);
    assert Opens(w, 1, 2) && MayCarry(w, c.manager, first, "");
    HopReaches(w, c, first, x);
  }

  /** A step is overtaken when another walk skips it and performs the next. */
  lemma NextStepOvertakes(w: Workflow, span: Span, x: Place, n: nat, day: nat -> Guards.Weekday, j: nat)
    requires Sound(w) && x.polled && 0 <= x.step < |w.steps| && Next(w, x.step, "") == j && Spans(w, span, day)
    requires Acts(w.steps[x.step].verb) && Acts(w.steps[j].verb) && w.steps[j].verb != Cancel
    requires Permits(w, x.step, x.count, x.day) && !Permits(w, x.step, n, day) && Permits(w, j, n, day)
    ensures EffectOrder.Overtaken(w, span, x, n, day, j)
  {
    hide Sound, Permits, Spans;
    assert EffectOrder.SkipsTo(w, n, day, j, j);
  }

  /** On a Monday the daily note acts; on a Sunday it is skipped, by a walk that goes on to the Friday. */
  lemma FridaysPermit(x: Place, day: nat -> Guards.Weekday)
    requires x.step == 2 && x.count == 0 && x.day(2) == 1 && day(2) == 0 && day(3) == 5
    ensures Permits(Fridays(), 2, 0, x.day) && !Permits(Fridays(), 2, 0, day) && Permits(Fridays(), 3, 0, day)
  {
    hide Guards.Allows, Fridays;
    FridaysShape();
    WorkingDays(1, 0);
    WorkingDays(0, 0);
    OnlyFridays(5, 0);
  }

  lemma FridaysCanOvertake(manager: string, midnights: nat)
    requires Sound(Fridays()) && midnights >= 5
    ensures EffectOrder.Overtakes(Fridays(), Conditions(manager, AtMost(midnights), -1))
  {
    hide Fridays, Reachable, Spans, EffectOrder.Overtaken, Sound, Permits, Next;
    var w, day := Fridays(), (i: nat) => SlowWalk(i);
    var c, x := Conditions(manager, AtMost(midnights), -1), Place(2, 0, _ => 1, true, "");
    FridaysShape();
    SlowWalkSpans(w, midnights, day);
    FridaysReachDaily(c, x);
    FridaysPermit(x, day);
    NextStepOvertakes(w, c.span, x, 0, day, 3);
  }

  /** A walk that skips the daily note and performs the weekly one goes from a weekend to a Friday. */
  lemma OvertakingDays(span: Span, x: Place, n: nat, day: nat -> Guards.Weekday, j: int)
    requires Sound(Fridays()) && EffectOrder.Overtaken(Fridays(), span, x, n, day, j)
    ensures (day(2) == 0 || day(2) == 6) && day(3) == 5
  {
    hide Guards.Allows, Spans;
    assert x.step == 2 && j == 3;
    FridaysShape();
    hide Fridays;
    WorkingDays(day(2), n);
    OnlyFridays(day(3), n);
  }

  /** So a walk that lasts over fewer than five midnights does not. */
  lemma ShortWalksDoNotOvertake(manager: string, midnights: nat)
    requires Sound(Fridays()) && midnights < 5
    ensures !EffectOrder.Overtakes(Fridays(), Conditions(manager, AtMost(midnights), -1))
  {
    hide Guards.Allows, Reachable;
    var w, span := Fridays(), AtMost(midnights);
    forall x: Place, n, day, j
      ensures !EffectOrder.Overtaken(w, span, x, n, day, j)
    {
      if EffectOrder.Overtaken(w, span, x, n, day, j) {
        OvertakingDays(span, x, n, day, j);
        TooFewMidnights(w, midnights, day);
      }
    }
  }

  lemma TooFewMidnights(w: Workflow, midnights: nat, day: nat -> Guards.Weekday)
    requires Spans(w, AtMost(midnights), day) && midnights < 5
    requires |w.steps| > 2 && !Waits(w.steps[2].verb) && Next(w, 2, "") == 3
    ensures !((day(2) == 0 || day(2) == 6) && day(3) == 5)
  {
    var dates: nat -> int, first: int, last: int :| Dated(w, day, dates, first, last) && last - first <= midnights;
    assert day(2) == dates(2) % 7 && day(3) == dates(3) % 7;
    assert first <= dates(2) <= dates(3) <= last;
  }

  /** So this accepted definition keeps its effects in order in all runs if and only if no walk of it lasts from
      a weekend into the Friday after it: a process asleep for five midnights between two steps. */
  lemma OnlyLongWalksRepeatFridays(manager: string, midnights: nat)
    ensures Valid(Fridays())
    ensures (forall env, xs :: Real(Fridays(), AtMost(midnights), env, xs) ==>
               EffectOrder.InOrder(Fridays(), Execute(Fridays(), CreatedIn(Fridays(), manager, env), xs)))
            <==> midnights < 5
  {
    FridaysIsValid();
    ValidIsSound(Fridays());
    if midnights < 5 { ShortWalksDoNotOvertake(manager, midnights); } else { FridaysCanOvertake(manager, midnights); }
    hide Valid, EffectOrder.Overtakes;
    EffectOrder.EffectOrderExactly(Fridays(), manager, AtMost(midnights));
  }
}
