/** Workflows as small step graphs: where a step leads, and which definitions are accepted
    (internal/workflow/workflow.go). */
module Workflows {
  import opened Base
  import opened Guards
  import Calendar

  datatype Verb =
    | Hold | Approve | Notify | Note | Away | Event | Cancel | Message | Wait | Leave
    | UnknownVerb

  predicate Creates(v: Verb) {
    v == Hold || v == Away || v == Event
  }

  predicate Waits(v: Verb) {
    v == Approve || v == Wait
  }

  /** Verbs whose step takes effect on the outside world when the executor walks over it. */
  predicate Acts(v: Verb) {
    v == Notify || v == Note || v == Message || v == Leave || v == Cancel
  }

  /** A duration field as written: left out, unreadable, or a number of time units. */
  datatype Duration = NoDuration | BadDuration | Units(n: int)

  function Parsed(d: Duration): int {
    if d.Units? then d.n else 0
  }

  /** A field limited to a fixed list of spellings. */
  datatype Setting<T> = Unset | Known(value: T) | Misspelled

  datatype Step = Step(
    verb: Verb, id: string, on: map<string, string>, next: string, timeout: Duration,
    guard: When, showAs: Setting<Calendar.ShowAs>, manager: bool, approver: string,
    team: Setting<Calendar.Role>, channel: string, delay: Duration)

  datatype Workflow = Workflow(name: string, steps: seq<Step>)

  const ACCEPTED := "accepted"
  const DECLINED := "declined"
  const EXPIRED := "expired"
  const END := "end"

  /** The first step from `k` on with the given id. */
  function IndexFrom(w: Workflow, id: string, k: nat): (r: int)
    requires k <= |w.steps|
    ensures r == -1 || (k <= r < |w.steps| && w.steps[r].id == id)
    ensures forall j :: k <= j < |w.steps| && w.steps[j].id == id ==> 0 <= r <= j
    decreases |w.steps| - k
  {
    if k == |w.steps| then -1
    else if w.steps[k].id == id then k
    else IndexFrom(w, id, k + 1)
  }

  function StepIndex(w: Workflow, id: string): int {
    if id == "" then -1 else IndexFrom(w, id, 0)
  }

  function Resolve(w: Workflow, target: string): int {
    if target == END then -1 else StepIndex(w, target)
  }

  /** The step to run after step `i`: a matching branch, else an explicit next, else the
      following step; -1 stops. */
  function Next(w: Workflow, i: int, outcome: string): (r: int)
    ensures -1 <= r < |w.steps|
  {
    if i < 0 || i >= |w.steps| then -1
    else
      var s := w.steps[i];
      if outcome != "" && outcome in s.on then Resolve(w, s.on[outcome])
      else if s.next != "" then Resolve(w, s.next)
      else if i + 1 < |w.steps| then i + 1
      else -1
  }

  /** The first step of a declined or expired branch, which never falls through. */
  function BranchStart(w: Workflow, s: Step, outcome: string): (r: int)
    ensures -1 <= r < |w.steps|
  {
    if outcome !in s.on || s.on[outcome] == END then -1 else StepIndex(w, s.on[outcome])
  }

  /** The moves of step `i`, stops included. */
  function Moves(w: Workflow, i: nat): set<int>
    requires i < |w.steps|
  {
    var s := w.steps[i];
    if s.verb == Approve then
      {Next(w, i, ACCEPTED), Next(w, i, DECLINED)}
      + if s.timeout != NoDuration then {Next(w, i, EXPIRED)} else {}
    else {Next(w, i, "")}
  }

  /** Step `i` can move to step `j`: an edge of the step graph. */
  predicate Edge(w: Workflow, i: int, j: int) {
    0 <= i < |w.steps| && 0 <= j < |w.steps| && j in Moves(w, i)
  }

  /** Step `j` is the first one with the given name. */
  ghost predicate IsFirstNamed(w: Workflow, j: int, id: string) {
    id != "" && 0 <= j < |w.steps| && w.steps[j].id == id && forall k :: 0 <= k < j ==> w.steps[k].id != id
  }

  /** The flow of step `i` without a branch goes on to step `j`. */
  ghost predicate FlowsOn(w: Workflow, i: nat, j: int)
    requires i < |w.steps|
  {
    var next := w.steps[i].next;
    if next != "" then next != "end" && IsFirstNamed(w, j, next) else j == i + 1 < |w.steps|
  }

  /** The flow of step `i` with this outcome goes on to step `j`; without a branch for it, it just goes on. */
  ghost predicate FlowsVia(w: Workflow, i: nat, outcome: string, j: int)
    requires i < |w.steps|
  {
    var on := w.steps[i].on;
    if outcome in on then on[outcome] != "end" && IsFirstNamed(w, j, on[outcome]) else FlowsOn(w, i, j)
  }

  /** The edges, told by the names: an approve step leads where an acceptance, a refusal or, with a timeout, an
      expiry would go on, any other step where the flow goes on. */
  lemma EdgeExactly(w: Workflow, i: nat, j: int)
    requires i < |w.steps|
    ensures Edge(w, i, j)
            <==> if w.steps[i].verb == Approve then
                   || FlowsVia(w, i, "accepted", j) || FlowsVia(w, i, "declined", j)
                   || (w.steps[i].timeout != NoDuration && FlowsVia(w, i, "expired", j))
                 else FlowsOn(w, i, j)
  {
    NextFlows(w, i, "", j);
    NextFlows(w, i, "accepted", j);
    NextFlows(w, i, "declined", j);
    NextFlows(w, i, "expired", j);
    hide Next, FlowsOn;
  }

  lemma NextFlows(w: Workflow, i: nat, outcome: string, j: int)
    requires i < |w.steps|
    ensures 0 <= j && Next(w, i, outcome) == j
            <==> if outcome == "" then FlowsOn(w, i, j) else FlowsVia(w, i, outcome, j)
  {}

  /** jumpTargets: the distinct targets of step `i`, grown one by one. */
  method JumpTargets(w: Workflow, i: nat) returns (out: seq<nat>)
    requires i < |w.steps|
    ensures Distinct(out)
    ensures forall j :: j in out <==> Edge(w, i, j)
  {
    out := [];
    var s := w.steps[i];
    if s.verb == Approve {
      out := AddTarget(out, Next(w, i, ACCEPTED));
      out := AddTarget(out, Next(w, i, DECLINED));
      if s.timeout != NoDuration {
        out := AddTarget(out, Next(w, i, EXPIRED));
      }
      return;
    }
    out := AddTarget(out, Next(w, i, ""));
  }

  method AddTarget(out: seq<nat>, n: int) returns (r: seq<nat>)
    requires Distinct(out)
    ensures Distinct(r)
    ensures forall j :: j in r <==> j in out || (j == n && n >= 0)
  {
    r := out;
    if n >= 0 && n !in out {
      r := out + [n];
    }
  }

  // ---------------------------------------------------------------------------------------
  // Paths
  // ---------------------------------------------------------------------------------------

  ghost predicate IsPath(w: Workflow, p: seq<int>) {
    forall k :: 0 <= k < |p| - 1 ==> Edge(w, p[k], p[k + 1])
  }

  /** A path of at least one edge leads from `i` to `j`. */
  ghost predicate Precedes(w: Workflow, i: int, j: int) {
    exists p :: IsPathBetween(w, p, i, j)
  }

  ghost predicate IsPathBetween(w: Workflow, p: seq<int>, i: int, j: int) {
    |p| >= 2 && p[0] == i && p[|p| - 1] == j && IsPath(w, p)
  }

  ghost predicate Cyclic(w: Workflow) {
    exists i :: Precedes(w, i, i)
  }

  lemma EdgePrecedes(w: Workflow, i: int, j: int)
    requires Edge(w, i, j)
    ensures Precedes(w, i, j)
  {
    assert IsPathBetween(w, [i, j], i, j);
  }

  lemma PrecedesInRange(w: Workflow, i: int, j: int)
    requires Precedes(w, i, j)
    ensures 0 <= i < |w.steps| && 0 <= j < |w.steps|
  {
    var p :| IsPathBetween(w, p, i, j);
    assert Edge(w, p[0], p[1]);
    assert Edge(w, p[|p| - 2], p[|p| - 2 + 1]);
  }

  lemma PrecedesTransitive(w: Workflow, i: int, j: int, k: int)
    requires Precedes(w, i, j) && Precedes(w, j, k)
    ensures Precedes(w, i, k)
  {
    var p :| IsPathBetween(w, p, i, j);
    var q :| IsPathBetween(w, q, j, k);
    var r := p + q[1..];
    forall m | 0 <= m < |r| - 1
      ensures Edge(w, r[m], r[m + 1])
    {
      if m >= |p| - 1 {
        assert r[m] == q[m - |p| + 1];
        assert r[m + 1] == q[m - |p| + 1 + 1];
      }
    }
    assert IsPathBetween(w, r, i, k);
  }

  // ---------------------------------------------------------------------------------------
  // Which definitions are accepted
  // ---------------------------------------------------------------------------------------

  datatype Fault =
    | MissingName | NoSteps
    | AtStep(step: nat, problem: Problem)
    | CreatorCount | ApprovalNeedsHold | NotifiesBeforeApproval
    | UnknownBranchTarget(step: nat) | UnknownNextTarget(step: nat)
    | Loops

  datatype Problem =
    | UnrecognizedVerb | InvalidShowAs | InvalidTeam | NotifyTeamRequired
    | MessageNeedsChannel | StrayChannel | StrayApprover | WaitNeedsDelay | StrayDelay
    | DuplicateId
    | StrayBranch | InvalidOutcome | StrayTimeout | InvalidTimeout | TimeoutNeedsExpired
    | ExpiredNeedsTimeout | InvalidGuard | GuardedCreator | GuardedGate
    | LateCreator | LaterApproveUnnamed | LaterApproveUsesManager

  /** The first problem of a step that shows before its id is looked at. */
  function ProblemBeforeId(s: Step): Option<Problem> {
    if s.verb == UnknownVerb then Some(UnrecognizedVerb)
    else if s.showAs == Misspelled then Some(InvalidShowAs)
    else if s.team == Misspelled then Some(InvalidTeam)
    else if s.verb == Notify && s.team == Known(Calendar.Required) then Some(NotifyTeamRequired)
    else if s.verb == Message && s.channel == "" then Some(MessageNeedsChannel)
    else if s.channel != "" && s.verb != Message then Some(StrayChannel)
    else if s.approver != "" && s.verb != Approve then Some(StrayApprover)
    else if s.verb == Wait && !(s.delay.Units? && s.delay.n > 0) then Some(WaitNeedsDelay)
    else if s.delay != NoDuration && s.verb != Wait then Some(StrayDelay)
    else None
  }

  /** The first problem of a step, looking at the step alone, that shows after its id. */
  function ProblemAfterId(s: Step): Option<Problem> {
    if s.on != map[] && s.verb != Approve then Some(StrayBranch)
    else if exists o :: o in s.on && o != ACCEPTED && o != DECLINED && o != EXPIRED then
      Some(InvalidOutcome)
    else if s.timeout != NoDuration && s.verb != Approve then Some(StrayTimeout)
    else if s.timeout == BadDuration then Some(InvalidTimeout)
    else if s.timeout != NoDuration && EXPIRED !in s.on then Some(TimeoutNeedsExpired)
    else if EXPIRED in s.on && s.timeout == NoDuration then Some(ExpiredNeedsTimeout)
    else if !WellFormed(s.guard) then Some(InvalidGuard)
    else if Creates(s.verb) && s.guard != UNGUARDED then Some(GuardedCreator)
    else if Waits(s.verb) && s.guard != UNGUARDED then Some(GuardedGate)
    else None
  }

  predicate HasVerbBefore(w: Workflow, v: Verb, i: nat)
    requires i <= |w.steps|
  {
    exists j :: 0 <= j < i && w.steps[j].verb == v
  }

  predicate Has(w: Workflow, v: Verb) {
    HasVerbBefore(w, v, |w.steps|)
  }

  /** The first problem of step `i` in the order the checks run. */
  function StepProblem(w: Workflow, i: nat): Option<Problem>
    requires i < |w.steps|
  {
    var s := w.steps[i];
    if ProblemBeforeId(s).Some? then ProblemBeforeId(s)
    else if s.id != "" && exists j :: 0 <= j < i && w.steps[j].id == s.id then Some(DuplicateId)
    else if ProblemAfterId(s).Some? then ProblemAfterId(s)
    else if Creates(s.verb) && i != 0 then Some(LateCreator)
    else if s.verb == Approve && HasVerbBefore(w, Approve, i) && s.approver == "" then
      Some(LaterApproveUnnamed)
    else if s.verb == Approve && HasVerbBefore(w, Approve, i) && s.manager then
      Some(LaterApproveUsesManager)
    else None
  }

  predicate KnownTarget(w: Workflow, target: string) {
    target == END || StepIndex(w, target) >= 0
  }

  predicate BranchesResolve(w: Workflow, s: Step) {
    forall o :: o in s.on ==> KnownTarget(w, s.on[o])
  }

  predicate NextResolves(w: Workflow, s: Step) {
    s.next == "" || KnownTarget(w, s.next)
  }

  function FirstOf(w: Workflow, v: Verb, k: nat): (r: int)
    requires k <= |w.steps|
    ensures r == -1 || (k <= r < |w.steps| && w.steps[r].verb == v)
    ensures forall j :: k <= j < |w.steps| && w.steps[j].verb == v ==> 0 <= r <= j
    decreases |w.steps| - k
  {
    if k == |w.steps| then -1
    else if w.steps[k].verb == v then k
    else FirstOf(w, v, k + 1)
  }

  function FirstApprove(w: Workflow): int {
    FirstOf(w, Approve, 0)
  }

  /** No step before the first approve step sets an explicit next. */
  predicate FlowsToFirstApprove(w: Workflow) {
    forall i :: 0 <= i < FirstApprove(w) ==> w.steps[i].next == ""
  }

  /** The accepted definitions. */
  ghost predicate Valid(w: Workflow) {
    && w.name != ""
    && w.steps != []
    && (forall i :: 0 <= i < |w.steps| ==> StepProblem(w, i).None?)
    && Creates(w.steps[0].verb)
    && (Has(w, Approve) ==> w.steps[0].verb == Hold)
    && (Has(w, Approve) && Has(w, Notify) ==> FirstApprove(w) < FirstOf(w, Notify, 0))
    && (forall i :: 0 <= i < |w.steps| ==> BranchesResolve(w, w.steps[i]) && NextResolves(w, w.steps[i]))
    && !Cyclic(w)
  }

  ghost predicate IsOnlyStepNamed(w: Workflow, r: int, id: string) {
    && 0 <= r < |w.steps| && w.steps[r].id == id
    && forall k :: 0 <= k < |w.steps| && w.steps[k].id == id ==> k == r
  }

  /** In an accepted definition every branch and every explicit next lands on the one step of that name
      or ends the flow; only a step without them falls through. */
  lemma TargetsLand(w: Workflow, i: nat, outcome: string)
    requires Valid(w) && i < |w.steps|
    ensures var s, r := w.steps[i], Next(w, i, outcome);
            var branches := outcome != "" && outcome in s.on;
            var target := if branches then s.on[outcome] else s.next;
            if branches || s.next != "" then
              if target == END then r == -1 else IsOnlyStepNamed(w, r, target)
            else r == if i + 1 < |w.steps| then i + 1 else -1
  {
    var s := w.steps[i];
    assert BranchesResolve(w, s) && NextResolves(w, s);
    forall k, r | 0 <= k < r < |w.steps| && w.steps[k].id == w.steps[r].id
      ensures w.steps[r].id == ""
    {
      assert StepProblem(w, r).None?;
    }
  }

  /** What the engine relies on in an accepted definition. */
  ghost predicate Sound(w: Workflow) {
    && w.steps != []
    && !Waits(w.steps[0].verb)
    && (forall i :: 0 <= i < |w.steps| && Waits(w.steps[i].verb) ==> w.steps[i].guard == UNGUARDED)
    && !Cyclic(w)
  }

  lemma ValidIsSound(w: Workflow)
    requires Valid(w)
    ensures Sound(w)
  {
    forall i | 0 <= i < |w.steps| && Waits(w.steps[i].verb)
      ensures w.steps[i].guard == UNGUARDED
    {
      assert StepProblem(w, i).None?;
    }
  }
}
