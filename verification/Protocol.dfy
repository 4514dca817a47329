/** The gate-to-gate protocol of one watched hold as a state machine over its atomic actions: an
    effect on the outside world, a write of the watch file, an invite, the end-of-pass save. A
    crash may fall between any two of them and keeps only the file, the calendar and the history.
    What a poll reads from outside comes with the input that begins it, so a run is a function of
    its inputs (cmd/daemon.go, cmd/run.go, cmd/watch.go). */
module Protocol {
  import opened Base
  import opened Workflows
  import Guards
  import Calendar

  /** A stored run: the gate it waits at (`step`), and how far the branch that gate opened has
      been committed (`resume`, where 0 means the gate is still closed) or finished (`done`). */
  datatype WatchItem = WatchItem(
    provider: string, holdID: string, workflow: string, step: int, resume: int, done: bool,
    approver: string, subject: string, createdAt: Option<int>)

  datatype Fetch = Fetched | NotFound | Unreachable

  /** Everything one poll reads from outside: whether the workflow loads and the hold can be
      fetched, the hold with its replies, the clock when the gate is read and when the branch
      arrives somewhere, the weekday and the failure each step meets, and whether an invite goes
      through. */
  datatype Env = Env(
    loads: bool, fetch: Fetch, hold: Calendar.Hold, now: int, later: int,
    day: nat -> Guards.Weekday, fails: nat -> bool, invites: bool)

  datatype PollResult =
    | PollPending | PollApproved | PollAdvanced | PollDeclined | PollExpired | PollFailed | PollGone

  /** Whether the pass keeps a hold with this result in the list. */
  predicate Keeps(r: PollResult) {
    r == PollAdvanced || r == PollPending || r == PollFailed
  }

  /** Whether a hold with this result is dropped because its branch ran to the end. */
  predicate RanToItsEnd(r: PollResult) {
    r == PollApproved || r == PollDeclined || r == PollExpired
  }

  datatype GateOutcome = Elapsed | Approval | Refusal | TimedOut

  function OnEnd(o: GateOutcome): PollResult {
    match o
    case Elapsed => PollApproved
    case Approval => PollApproved
    case Refusal => PollDeclined
    case TimedOut => PollExpired
  }

  /** The record of a branch being committed: which gate opened, how, on whose replies, when, and
      at which step its branch starts. */
  datatype Commit = Commit(gate: nat, outcome: GateOutcome, from: int, hold: Calendar.Hold, at: int)

  // ---------------------------------------------------------------------------------------
  // Reading a gate
  // ---------------------------------------------------------------------------------------

  function GateResponse(hold: Calendar.Hold, item: WatchItem): Calendar.Response {
    if item.approver == "" then Calendar.ManagerAttendee(hold).response
    else if Calendar.ApprovedBy(hold, item.approver) then Calendar.Accepted
    else if Calendar.DeclinedBy(hold, item.approver) then Calendar.Declined
    else Calendar.NotResponded
  }

  datatype Plan = StillWaiting | Open(from: int, outcome: GateOutcome)

  function BranchPlan(w: Workflow, item: WatchItem, hold: Calendar.Hold, now: int): Plan
    requires 0 <= item.step < |w.steps|
  {
    var pending := w.steps[item.step];
    if pending.verb == Wait then
      var d := Parsed(pending.delay);
      if d <= 0 || item.createdAt.None? || now - item.createdAt.value < d then StillWaiting
      else Open(Next(w, item.step, ""), Elapsed)
    else
      match GateResponse(hold, item)
      case Accepted => Open(Next(w, item.step, ACCEPTED), Approval)
      case Declined => Open(BranchStart(w, pending, DECLINED), Refusal)
      case _ =>
        var d := Parsed(pending.timeout);
        if d > 0 && item.createdAt.Some? && now - item.createdAt.value > d then
          Open(BranchStart(w, pending, EXPIRED), TimedOut)
        else StillWaiting
  }

  /** What a checkpoint stores: the next step to run, or that the branch is finished. */
  function Checkpoint(item: WatchItem, resume: int): WatchItem {
    if resume < 0 then item.(done := true, resume := 0) else item.(resume := resume)
  }

  predicate GuardAllows(w: Workflow, env: Env, i: nat)
    requires i < |w.steps|
  {
    Guards.Allows(w.steps[i].guard, env.day(i), |env.hold.attendees|)
  }

  predicate NamesApprover(w: Workflow, g: int) {
    0 <= g < |w.steps| && w.steps[g].verb == Approve && w.steps[g].approver != ""
  }

  /** The item after its branch arrived at a gate. */
  function AtGate(w: Workflow, item: WatchItem, env: Env, gate: nat): WatchItem {
    var moved := item.(resume := 0, step := gate, createdAt := Some(env.later));
    if !NamesApprover(w, gate) then moved.(approver := "")
    else if env.invites then moved.(approver := w.steps[gate].approver)
    else moved
  }

  /** The item the first walk enqueues at its gate. */
  function Enqueued(w: Workflow, provider: string, env: Env, gate: nat): WatchItem
    requires gate < |w.steps|
  {
    WatchItem(provider, env.hold.id, w.name, gate, 0, false,
              if w.steps[gate].verb == Wait then "" else Calendar.ManagerAttendee(env.hold).email,
              env.hold.subject, Some(env.later))
  }

  // ---------------------------------------------------------------------------------------
  // The machine
  // ---------------------------------------------------------------------------------------

  /** Who walks: the command that created the hold, or the daemon in a committed branch. */
  datatype Mode =
    | FirstWalk(provider: string, watch: bool)
    | Branch(item: WatchItem, onEnd: PollResult)

  /** Where the process stands between two atomic actions. */
  datatype Pc =
    | Idle
    | Committing(item: WatchItem, env: Env, commit: Commit)
    | Walking(mode: Mode, env: Env, at: int, visited: set<int>)
    | Performed(mode: Mode, env: Env, step: nat, visited: set<int>)
    | Forgotten(mode: Mode)
    | Arrived(mode: Mode, env: Env, gate: nat)
    | Finishing(result: PollResult, item: WatchItem)

  /** One hold's run. `entry` is its place in the watch file and `alive` the hold on the calendar;
      `log` lists the effects by step, `acked` those whose following checkpoint was written,
      `commits` the branches committed, `invited` the approvers invited; `completed` tells that
      the run came to its end rather than being lost. */
  datatype Run = Run(
    entry: Option<WatchItem>, alive: bool, log: seq<nat>, acked: seq<nat>, commits: seq<Commit>,
    invited: set<string>, completed: bool, pc: Pc)

  /** A poll of an idle run up to its first atomic action. */
  function Poll(w: Workflow, s: Run, env: Env): Run {
    if !s.pc.Idle? || s.entry.None? then s
    else
      var item := s.entry.value;
      if !env.loads then s.(pc := Finishing(PollFailed, item))
      else if item.done then s.(pc := Finishing(PollApproved, item))
      else if env.fetch.NotFound? || (env.fetch.Fetched? && !s.alive) then
        s.(pc := Finishing(PollGone, item))
      else if env.fetch.Unreachable? then s.(pc := Finishing(PollFailed, item))
      else if item.step < 0 || item.step >= |w.steps| then s.(pc := Finishing(PollPending, item))
      else if item.resume > 0 then
        s.(pc := Walking(Branch(item, PollApproved), env, item.resume, {}))
      else
        match BranchPlan(w, item, env.hold, env.now)
        case StillWaiting => s.(pc := Finishing(PollPending, item))
        case Open(from, outcome) =>
          s.(pc := Committing(item, env, Commit(item.step, outcome, from, env.hold, env.now)))
  }

  function EndWalk(s: Run, mode: Mode): Run {
    match mode
    case FirstWalk(_, _) => s.(completed := true, pc := Idle)
    case Branch(item, onEnd) => s.(pc := Finishing(onEnd, item.(resume := 0)))
  }

  /** One turn of the walk loop, up to its first atomic action. */
  function WalkTurn(w: Workflow, s: Run): Run
    requires s.pc.Walking?
  {
    var Walking(mode, env, i, visited) := s.pc;
    if !(0 <= i < |w.steps|) || i in visited then EndWalk(s, mode)
    else
      var verb := w.steps[i].verb;
      if !GuardAllows(w, env, i) then
        s.(pc := Walking(mode, env, Next(w, i, ""), visited + {i}))
      else if Waits(verb) then s.(pc := Arrived(mode, env, i))
      else if !Acts(verb) then s.(pc := Walking(mode, env, Next(w, i, ""), visited + {i}))
      else if env.fails(i) then
        match mode
        case FirstWalk(_, _) => s.(pc := Idle)
        case Branch(item, _) => s.(pc := Finishing(PollFailed, item.(resume := i)))
      else
        s.(log := s.log + [i], alive := s.alive && verb != Cancel,
           pc := Performed(mode, env, i, visited + {i}))
  }

  /** The action after an effect: a checkpoint, or the removal of a cancelled hold's entry. */
  function AfterEffect(w: Workflow, s: Run): Run
    requires s.pc.Performed?
  {
    var Performed(mode, env, i, visited) := s.pc;
    if i < |w.steps| && w.steps[i].verb == Cancel then
      s.(entry := None, acked := s.acked + [i], completed := true, pc := Forgotten(mode))
    else
      var next := Next(w, i, "");
      var moved := s.(acked := s.acked + [i], pc := Walking(mode, env, next, visited));
      match mode
      case FirstWalk(_, _) => moved
      case Branch(item, _) => moved.(entry := Some(Checkpoint(item, next)))
  }

  /** Arriving at a gate: enqueue the run, or invite the gate's own approver. */
  function AtArrival(w: Workflow, s: Run): Run
    requires s.pc.Arrived?
  {
    var Arrived(mode, env, gate) := s.pc;
    match mode
    case FirstWalk(provider, watch) =>
      if watch && gate < |w.steps| then
        s.(entry := Some(Enqueued(w, provider, env, gate)), pc := Idle)
      else s.(pc := Idle)
    case Branch(item, _) =>
      var failed := NamesApprover(w, gate) && !env.invites;
      s.(invited := if NamesApprover(w, gate) && env.invites
                    then s.invited + {w.steps[gate].approver} else s.invited,
         pc := Finishing(if failed then PollFailed else PollAdvanced, AtGate(w, item, env, gate)))
  }

  /** The next action of a busy process. */
  function Tick(w: Workflow, s: Run): Run {
    match s.pc
    case Idle => s
    case Committing(item, env, commit) =>
      s.(entry := Some(Checkpoint(item, commit.from)), commits := s.commits + [commit],
         pc := Walking(Branch(item, OnEnd(commit.outcome)), env, commit.from, {}))
    case Walking(_, _, _, _) => WalkTurn(w, s)
    case Performed(_, _, _, _) => AfterEffect(w, s)
    case Forgotten(FirstWalk(_, _)) => s.(pc := Idle)
    case Forgotten(Branch(item, onEnd)) =>
      s.(entry := Some(Checkpoint(item, -1)), pc := Finishing(onEnd, item.(resume := 0)))
    case Arrived(_, _, _) => AtArrival(w, s)
    case Finishing(result, item) =>
      s.(entry := if Keeps(result) then Some(item) else None,
         completed := s.completed || RanToItsEnd(result), pc := Idle)
  }

  /** What can happen next. `Unavailable` is a pass in which the hold's provider cannot be built,
      and which drops the hold when pruning. */
  datatype Input = Begin(env: Env) | Act | Crash | Unavailable(prune: bool)

  function Apply(w: Workflow, s: Run, x: Input): Run {
    match x
    case Begin(env) => Poll(w, s, env)
    case Act => Tick(w, s)
    case Crash => s.(pc := Idle)
    case Unavailable(prune) => if s.pc.Idle? && prune then s.(entry := None) else s
  }

  function Execute(w: Workflow, s: Run, xs: seq<Input>): Run
    decreases |xs|
  {
    if xs == [] then s else Execute(w, Apply(w, s, xs[0]), xs[1..])
  }

  lemma {:induction false} ExecuteAppend(w: Workflow, s: Run, xs: seq<Input>, x: Input)
    ensures Execute(w, s, xs + [x]) == Apply(w, Execute(w, s, xs), x)
    decreases |xs|
  {
    if xs != [] {
      assert (xs + [x])[1..] == xs[1..] + [x];
      ExecuteAppend(w, Apply(w, s, xs[0]), xs[1..], x);
    }
  }

  lemma {:induction false} ExecuteJoin(w: Workflow, s: Run, xs: seq<Input>, ys: seq<Input>)
    ensures Execute(w, s, xs + ys) == Execute(w, Execute(w, s, xs), ys)
    decreases |xs|
  {
    if xs == [] {
      assert xs + ys == ys;
    } else {
      assert (xs + ys)[1..] == xs[1..] + ys;
      ExecuteJoin(w, Apply(w, s, xs[0]), xs[1..], ys);
    }
  }

  lemma FourInputs(w: Workflow, s: Run, a: Input, b: Input, c: Input, d: Input)
    ensures Execute(w, s, [a, b, c, d]) == Apply(w, Apply(w, Apply(w, Apply(w, s, a), b), c), d)
  {
    hide Apply;
    assert [a, b, c, d][1..] == [b, c, d] && [b, c, d][1..] == [c, d] && [c, d][1..] == [d] && [d][1..] == [];
    var t := Apply(w, Apply(w, s, a), b);
    assert Execute(w, Apply(w, t, c), [d]) == Apply(w, Apply(w, t, c), d);
    assert Execute(w, t, [c, d]) == Apply(w, Apply(w, t, c), d);
    assert Execute(w, Apply(w, s, a), [b, c, d]) == Execute(w, t, [c, d]);
  }

  /** The hold the first step creates: a hold with an approve step invites the first approve step's
      own approver, or the manager when it names none. */
  function NewHold(w: Workflow, id: string, subject: string, manager: string,
                   guests: seq<Calendar.Attendee>): Calendar.Hold
    requires w.steps != []
  {
    var attendees :=
      match w.steps[0].verb
      case Hold =>
        if Has(w, Approve) then
          [Calendar.Attendee("", FirstInvitee(w, manager), Calendar.Required, Calendar.Blank)]
        else []
      case Event => guests
      case _ => [];
    Calendar.Hold(id, subject, attendees)
  }

  function FirstInvitee(w: Workflow, manager: string): string {
    var a := FirstApprove(w);
    if a >= 0 && w.steps[a].approver != "" then w.steps[a].approver else manager
  }

  /** The run right after its hold was created, about to walk from the step after the first. */
  function Created(w: Workflow, provider: string, watch: bool, manager: string, env: Env): Run
    requires w.steps != []
  {
    var hold := NewHold(w, env.hold.id, env.hold.subject, manager, env.hold.attendees);
    Run(None, true, [], [], [], set a | a in hold.attendees :: a.email, false,
        Walking(FirstWalk(provider, watch), env.(hold := hold), Next(w, 0, ""), {}))
  }

  // ---------------------------------------------------------------------------------------
  // The cursor a file entry stands for
  // ---------------------------------------------------------------------------------------

  datatype Cursor = Unwatched | Waiting(gate: int) | Running(step: int) | Ended

  function EntryCursor(item: WatchItem): Cursor {
    if item.done then Ended
    else if item.resume > 0 then Running(item.resume)
    else Waiting(item.step)
  }

  predicate FirstWalking(pc: Pc) {
    (pc.Walking? || pc.Performed? || pc.Forgotten? || pc.Arrived?) && pc.mode.FirstWalk?
  }

  function CursorOf(s: Run): Cursor {
    if s.entry.Some? then EntryCursor(s.entry.value)
    else if FirstWalking(s.pc) then Unwatched
    else Ended
  }
}
