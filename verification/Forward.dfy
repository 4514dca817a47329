/** The cursor only moves forward. Whatever the guards, replies, failures and crashes are, every
    write of a hold's (step, resume, done) stays put or moves along the step graph, so a step
    behind the stored cursor never runs again (cmd/daemon.go, cmd/run.go). */
module Forward {
  import opened Base
  import opened Workflows
  import opened Protocol

  ghost predicate AtOrBefore(w: Workflow, i: int, j: int) {
    i == j || Precedes(w, i, j)
  }

  /** The order of cursors in the step graph. */
  ghost predicate Leads(w: Workflow, c: Cursor, d: Cursor) {
    c == d || c.Unwatched? || d.Ended?
    || match (c, d)
       case (Waiting(g), Waiting(h)) => Precedes(w, g, h)
       case (Waiting(g), Running(j)) => Precedes(w, g, j)
       case (Running(i), Running(j)) => Precedes(w, i, j)
       case (Running(i), Waiting(h)) => AtOrBefore(w, i, h)
       case _ => false
  }

  lemma LeadsIsTransitive(w: Workflow, a: Cursor, b: Cursor, c: Cursor)
    requires Leads(w, a, b) && Leads(w, b, c)
    ensures Leads(w, a, c)
  {
    if a != b && b != c && !a.Unwatched? && !c.Ended? {
      var x := if a.Waiting? then a.gate else a.step;
      var y := if b.Waiting? then b.gate else b.step;
      var z := if c.Waiting? then c.gate else c.step;
      if x != y && y != z { PrecedesTransitive(w, x, y, z); }
    }
  }

  /** In an acyclic graph the order is antisymmetric, so a cursor that moved never comes back. */
  lemma LeadsIsAntisymmetric(w: Workflow, a: Cursor, b: Cursor)
    requires Sound(w)
    requires Leads(w, a, b) && Leads(w, b, a)
    ensures a == b
  {
    if a != b && !a.Unwatched? && !a.Ended? && !b.Unwatched? && !b.Ended? {
      var x := if a.Waiting? then a.gate else a.step;
      var y := if b.Waiting? then b.gate else b.step;
      if x != y { PrecedesTransitive(w, x, y, x); }
    }
  }

  // ---------------------------------------------------------------------------------------
  // Moves of the machine are edges of the graph
  // ---------------------------------------------------------------------------------------

  lemma WalkMoveIsEdge(w: Workflow, i: nat)
    requires i < |w.steps| && w.steps[i].verb != Approve && Next(w, i, "") >= 0
    ensures Edge(w, i, Next(w, i, ""))
  {}

  /** Every branch a gate opens starts at a target the cycle check counted. */
  lemma PlanMoveIsEdge(w: Workflow, item: WatchItem, env: Env)
    requires 0 <= item.step < |w.steps| && Waits(w.steps[item.step].verb)
    ensures var plan := BranchPlan(w, item, env.hold, env.now);
            plan.Open? && plan.from >= 0 ==> Edge(w, item.step, plan.from)
  {}

  lemma GatesAreUnguarded(w: Workflow, i: nat, env: Env)
    requires Sound(w) && i < |w.steps| && Waits(w.steps[i].verb)
    ensures GuardAllows(w, env, i)
  {
  }

  /** No step reachable from the first one leads back to it: step 0 is free to mean "not open". */
  lemma NothingReturnsToStart(w: Workflow, i: int)
    requires Sound(w) && AtOrBefore(w, 0, i)
    ensures !Edge(w, i, 0)
  {
    if Edge(w, i, 0) {
      EdgePrecedes(w, i, 0);
      if i != 0 { PrecedesTransitive(w, 0, i, 0); }
    }
  }

  lemma StepAfter(w: Workflow, r: int, i: int, j: int)
    requires AtOrBefore(w, r, i) && Edge(w, i, j)
    ensures Precedes(w, r, j)
  {
    EdgePrecedes(w, i, j);
    if r != i { PrecedesTransitive(w, r, i, j); }
  }

  // ---------------------------------------------------------------------------------------
  // The invariant
  // ---------------------------------------------------------------------------------------

  /** A stored item: its gate is a real gate of the run, and a committed branch lies past it. */
  ghost predicate ItemOk(w: Workflow, it: WatchItem) {
    && 0 <= it.step < |w.steps| && Waits(w.steps[it.step].verb) && Precedes(w, 0, it.step)
    && it.resume >= 0
    && (it.done ==> it.resume == 0)
    && (it.resume > 0 ==> Precedes(w, it.step, it.resume))
  }

  predicate SameHold(a: WatchItem, b: WatchItem) {
    a.(resume := 0, done := false) == b.(resume := 0, done := false)
  }

  /** The walk stands at `at`: past what was visited, and at or past the stored cursor. */
  ghost predicate WalkOk(w: Workflow, s: Run, mode: Mode, at: int, visited: set<int>) {
    && (at >= 0 ==> Precedes(w, 0, at))
    && (at >= 0 ==> forall v :: v in visited ==> Precedes(w, v, at))
    && match mode
       case FirstWalk(_, _) =>
         && s.entry.None? && s.commits == []
         && (at >= 0 ==> forall a :: a in s.acked ==> Precedes(w, a, at))
       case Branch(item, onEnd) =>
         && !Keeps(onEnd)
         && ItemOk(w, item) && !item.done && s.entry.Some? && SameHold(s.entry.value, item)
         && (if s.entry.value.done then at < 0
             else s.entry.value.resume > 0 && (at >= 0 ==> AtOrBefore(w, s.entry.value.resume, at)))
  }

  ghost predicate PcOk(w: Workflow, s: Run) {
    match s.pc
    case Idle => true
    case Committing(item, env, commit) =>
      && s.entry == Some(item) && EntryCursor(item) == Waiting(item.step)
      && commit.gate == item.step
      && (commit.from >= 0 ==> Edge(w, item.step, commit.from))
    case Walking(mode, env, at, visited) => WalkOk(w, s, mode, at, visited)
    case Performed(mode, env, i, visited) =>
      && WalkOk(w, s, mode, i, visited - {i})
      && i < |w.steps| && Acts(w.steps[i].verb)
    case Forgotten(mode) =>
      s.entry.None? && (mode.Branch? ==> ItemOk(w, mode.item) && !Keeps(mode.onEnd))
    case Arrived(mode, env, gate) =>
      && WalkOk(w, s, mode, gate, {})
      && gate < |w.steps| && Waits(w.steps[gate].verb)
    case Finishing(result, item) =>
      && ItemOk(w, item)
      && (Keeps(result) ==> Leads(w, CursorOf(s), EntryCursor(item)))
  }

  /** Where the run's future begins, or -1 when it has none. */
  function Front(c: Cursor): int {
    match c
    case Waiting(g) => g
    case Running(i) => i
    case _ => -1
  }

  ghost predicate Ascending(w: Workflow, s: seq<nat>) {
    forall i, j :: 0 <= i < j < |s| ==> Precedes(w, s[i], s[j])
  }

  ghost predicate AllBefore(w: Workflow, s: seq<nat>, i: int) {
    forall a :: a in s ==> Precedes(w, a, i)
  }

  function Gates(commits: seq<Commit>): (gs: seq<nat>)
    ensures |gs| == |commits|
    ensures forall k :: 0 <= k < |gs| ==> gs[k] == commits[k].gate
  {
    seq(|commits|, k requires 0 <= k < |commits| => commits[k].gate)
  }

  /** What lies behind a run is in graph order and before its front. */
  ghost predicate HistoryOk(w: Workflow, s: Run) {
    && Ascending(w, s.acked) && Ascending(w, Gates(s.commits))
    && (Front(CursorOf(s)) >= 0 ==>
          AllBefore(w, s.acked, Front(CursorOf(s))) && AllBefore(w, Gates(s.commits), Front(CursorOf(s))))
  }

  ghost predicate Inv(w: Workflow, s: Run) {
    && (s.entry.Some? ==> ItemOk(w, s.entry.value))
    && PcOk(w, s)
    && HistoryOk(w, s)
  }

  // ---------------------------------------------------------------------------------------
  // Every step keeps it and moves the cursor forward
  // ---------------------------------------------------------------------------------------

  lemma AppendAscending(w: Workflow, s: seq<nat>, r: int, i: nat)
    requires Ascending(w, s) && AllBefore(w, s, r) && AtOrBefore(w, r, i)
    ensures Ascending(w, s + [i])
  {
    AllBeforeLater(w, s, r, i);
    var t := s + [i];
    forall a, b | 0 <= a < b < |t|
      ensures Precedes(w, t[a], t[b])
    {
      if b == |s| { assert s[a] in s; }
    }
  }

  lemma AllBeforeLater(w: Workflow, s: seq<nat>, r: int, i: int)
    requires AllBefore(w, s, r) && AtOrBefore(w, r, i)
    ensures AllBefore(w, s, i)
  {
    forall a | a in s
      ensures Precedes(w, a, i)
    {
      if r != i { PrecedesTransitive(w, a, r, i); }
    }
  }

  lemma AllBeforeAppend(w: Workflow, s: seq<nat>, r: int, i: nat, j: int)
    requires AllBefore(w, s, r) && AtOrBefore(w, r, i) && Precedes(w, i, j)
    ensures AllBefore(w, s + [i], j)
  {
    AllBeforeLater(w, s, r, i);
    forall a | a in s + [i]
      ensures Precedes(w, a, j)
    {
      if a != i { PrecedesTransitive(w, a, i, j); }
    }
  }

  lemma VisitedStaysBehind(w: Workflow, visited: set<int>, i: int, j: int)
    requires forall v :: v in visited ==> Precedes(w, v, i)
    requires Edge(w, i, j)
    ensures forall v :: v in visited + {i} ==> Precedes(w, v, j)
  {
    EdgePrecedes(w, i, j);
    forall v | v in visited + {i}
      ensures Precedes(w, v, j)
    {
      if v != i { PrecedesTransitive(w, v, i, j); }
    }
  }

  lemma SkipKeeps(w: Workflow, s: Run, mode: Mode, env: Env, i: nat, visited: set<int>)
    requires Sound(w) && WalkOk(w, s, mode, i, visited)
    requires i < |w.steps| && w.steps[i].verb != Approve
    ensures WalkOk(w, s, mode, Next(w, i, ""), visited + {i})
  {
    var j := Next(w, i, "");
    if j >= 0 {
      WalkMoveIsEdge(w, i);
      StepAfter(w, 0, i, j);
      VisitedStaysBehind(w, visited, i, j);
      match mode
      case FirstWalk(_, _) => AllBeforeStep(w, s.acked, i, j);
      case Branch(item, _) => StepAfter(w, s.entry.value.resume, i, j);
    }
  }

  lemma AllBeforeStep(w: Workflow, s: seq<nat>, i: int, j: int)
    requires AllBefore(w, s, i) && Edge(w, i, j)
    ensures AllBefore(w, s, j)
  {
    EdgePrecedes(w, i, j);
    AllBeforeLater(w, s, i, j);
  }

  /** A step that writes nothing leaves the history as it was. */
  lemma HistoryStays(w: Workflow, s: Run, t: Run)
    requires HistoryOk(w, s)
    requires t.entry == s.entry && t.acked == s.acked && t.commits == s.commits
    ensures HistoryOk(w, t)
  {
    assert CursorOf(t) == CursorOf(s) || Front(CursorOf(t)) == -1;
  }

  lemma EffectKeeps(w: Workflow, s: Run)
    requires Sound(w) && Inv(w, s) && s.pc.Walking?
    requires WalkTurn(w, s).pc.Performed?
    ensures PcOk(w, WalkTurn(w, s))
  {
    hide GuardAllows, Next, HistoryOk, ItemOk;
    var Walking(mode, env, i, visited) := s.pc;
    assert visited + {i} - {i} == visited - {i};
  }

  /** Where one turn of the walk leaves the process, and what it changes. */
  lemma WalkTurnLeads(w: Workflow, s: Run)
    requires Sound(w) && s.pc.Walking?
    ensures var t, mode, env, i := WalkTurn(w, s), s.pc.mode, s.pc.env, s.pc.at;
            && t.entry == s.entry && t.invited == s.invited && t.commits == s.commits
            && (!t.pc.Performed? ==> t.log == s.log)
            && match t.pc
               case Idle => mode.FirstWalk?
               case Walking(m, e, j, v) =>
                 && m == mode && e == env && 0 <= i < |w.steps| && !Waits(w.steps[i].verb)
                 && j == Next(w, i, "") && v == s.pc.visited + {i}
                 && (GuardAllows(w, env, i) ==> !Acts(w.steps[i].verb))
               case Performed(m, e, j, _) =>
                 && m == mode && e == env && j == i && i < |w.steps| && Acts(w.steps[i].verb)
                 && GuardAllows(w, env, i) && t.log == s.log + [j]
               case Arrived(m, e, g) => m == mode && e == env && g == i && g < |w.steps| && Waits(w.steps[g].verb)
               case Finishing(result, item) =>
                 && mode.Branch?
                 && ((result == mode.onEnd && item == mode.item.(resume := 0))
                     || (result == PollFailed && item == mode.item.(resume := i)
                         && 0 <= i < |w.steps| && Acts(w.steps[i].verb) && GuardAllows(w, env, i)))
               case _ => false
  {
    var i := s.pc.at;
    if 0 <= i < |w.steps| && Waits(w.steps[i].verb) { GatesAreUnguarded(w, i, s.pc.env); }
    hide GuardAllows, Next, Sound;
  }

  lemma WalkOnKeeps(w: Workflow, s: Run)
    requires Sound(w) && Inv(w, s) && s.pc.Walking?
    requires WalkTurn(w, s).pc.Walking?
    ensures PcOk(w, WalkTurn(w, s))
  {
    var Walking(mode, env, i, visited) := s.pc;
    WalkTurnLeads(w, s);
    WalkTurnWritesNothing(w, s);
    hide WalkTurn, Next, HistoryOk, ItemOk, Sound, CursorOf;
    SkipKeeps(w, s, mode, env, i, visited);
  }

  lemma WalkStopKeeps(w: Workflow, s: Run)
    requires Sound(w) && Inv(w, s) && s.pc.Walking?
    requires WalkTurn(w, s).pc.Finishing?
    ensures PcOk(w, WalkTurn(w, s))
  {
    WalkTurnLeads(w, s);
    WalkTurnWritesNothing(w, s);
    hide WalkTurn, Next, HistoryOk, Sound;
    if Keeps(WalkTurn(w, s).pc.result) { FailureKeeps(w, s); }
    hide CursorOf, EntryCursor;
  }

  lemma ArrivedOk(w: Workflow, s: Run)
    requires Inv(w, s) && s.pc.Walking? && WalkTurn(w, s).pc.Arrived?
    ensures PcOk(w, WalkTurn(w, s))
  {
    hide GuardAllows, Next, HistoryOk, ItemOk;
  }

  lemma WalkTurnPcOk(w: Workflow, s: Run)
    requires Sound(w) && Inv(w, s) && s.pc.Walking?
    ensures PcOk(w, WalkTurn(w, s))
  {
    hide GuardAllows, Next, Inv, Sound;
    match WalkTurn(w, s).pc
    case Walking(_, _, _, _) => WalkOnKeeps(w, s);
    case Performed(_, _, _, _) => EffectKeeps(w, s);
    case Finishing(_, _) => WalkStopKeeps(w, s);
    case Arrived(_, _, _) => ArrivedOk(w, s);
    case _ =>
  }

  lemma WalkTurnWritesNothing(w: Workflow, s: Run)
    requires s.pc.Walking?
    ensures var t := WalkTurn(w, s);
            t.entry == s.entry && t.acked == s.acked && t.commits == s.commits
    ensures CursorOf(WalkTurn(w, s)) == CursorOf(s) || CursorOf(WalkTurn(w, s)).Ended?
  {
    hide GuardAllows, Next;
  }

  lemma WalkTurnKeeps(w: Workflow, s: Run)
    requires Sound(w) && Inv(w, s) && s.pc.Walking?
    ensures Inv(w, WalkTurn(w, s))
    ensures CursorOf(WalkTurn(w, s)) == CursorOf(s) || CursorOf(WalkTurn(w, s)).Ended?
  {
    WalkTurnWritesNothing(w, s);
    WalkTurnPcOk(w, s);
    HistoryStays(w, s, WalkTurn(w, s));
    hide WalkTurn, PcOk, HistoryOk;
  }

  lemma FailureKeeps(w: Workflow, s: Run)
    requires Sound(w) && Inv(w, s) && s.pc.Walking? && s.pc.mode.Branch?
    requires 0 <= s.pc.at < |w.steps|
    ensures ItemOk(w, s.pc.mode.item.(resume := s.pc.at))
    ensures Leads(w, CursorOf(s), EntryCursor(s.pc.mode.item.(resume := s.pc.at)))
  {
    var i := s.pc.at;
    var it := s.entry.value;
    if it.resume != i { PrecedesTransitive(w, it.step, it.resume, i); }
  }

  lemma AfterEffectKeeps(w: Workflow, s: Run)
    requires Sound(w) && Inv(w, s) && s.pc.Performed?
    ensures Inv(w, AfterEffect(w, s))
    ensures Leads(w, CursorOf(s), CursorOf(AfterEffect(w, s)))
  {
    var Performed(mode, env, i, visited) := s.pc;
    var t := AfterEffect(w, s);
    var r := if mode.Branch? then s.entry.value.resume else i;
    assert AllBefore(w, s.acked, r);
    AppendAscending(w, s.acked, r, i);
    if w.steps[i].verb != Cancel {
      var j := Next(w, i, "");
      SkipKeeps(w, s, mode, env, i, visited - {i});
      assert visited <= visited - {i} + {i};
      if j >= 0 {
        WalkMoveIsEdge(w, i);
        EdgePrecedes(w, i, j);
        AllBeforeAppend(w, s.acked, r, i, j);
        if mode.Branch? {
          NothingReturnsToStart(w, i);
          StepAfter(w, r, i, j);
          AllBeforeLater(w, Gates(s.commits), r, j);
          PrecedesTransitive(w, s.entry.value.step, r, j);
        }
      }
    }
  }

  /** The action that commits a branch. */
  lemma CommitTick(w: Workflow, s: Run)
    requires s.pc.Committing?
    ensures var t, Committing(item, env, c) := Tick(w, s), s.pc;
            && t.entry == Some(Checkpoint(item, c.from))
            && t.pc == Walking(Branch(item, OnEnd(c.outcome)), env, c.from, {})
            && t.alive == s.alive && t.log == s.log && t.invited == s.invited
            && t.commits == s.commits + [c] && t.acked == s.acked
  {}

  lemma CommitKeeps(w: Workflow, s: Run)
    requires Sound(w) && Inv(w, s) && s.pc.Committing?
    ensures Inv(w, Tick(w, s))
    ensures Leads(w, CursorOf(s), CursorOf(Tick(w, s)))
  {
    var Committing(item, env, commit) := s.pc;
    var t := Tick(w, s);
    var g, j := commit.gate, commit.from;
    AppendAscending(w, Gates(s.commits), g, g);
    assert Gates(t.commits) == Gates(s.commits) + [g];
    if j >= 0 {
      NothingReturnsToStart(w, g);
      EdgePrecedes(w, g, j);
      StepAfter(w, 0, g, j);
      AllBeforeLater(w, s.acked, g, j);
      AllBeforeAppend(w, Gates(s.commits), g, g, j);
    }
  }

  lemma ArrivalKeeps(w: Workflow, s: Run)
    requires Sound(w) && Inv(w, s) && s.pc.Arrived?
    ensures Inv(w, AtArrival(w, s))
    ensures Leads(w, CursorOf(s), CursorOf(AtArrival(w, s)))
  {
    if s.pc.mode.Branch? {
      BranchArrivalKeeps(w, s);
      hide Inv, AtArrival, CursorOf;
    } else {
      hide NamesApprover;
    }
  }

  lemma BranchArrivalKeeps(w: Workflow, s: Run)
    requires Inv(w, s) && s.pc.Arrived? && s.pc.mode.Branch?
    ensures Inv(w, AtArrival(w, s))
    ensures Leads(w, CursorOf(s), CursorOf(AtArrival(w, s)))
  {
    hide NamesApprover;
    HistoryStays(w, s, AtArrival(w, s));
    hide HistoryOk;
  }

  lemma FinishKeeps(w: Workflow, s: Run)
    requires Sound(w) && Inv(w, s) && s.pc.Finishing?
    ensures Inv(w, Tick(w, s))
    ensures Leads(w, CursorOf(s), CursorOf(Tick(w, s)))
  {
    var Finishing(result, item) := s.pc;
    if Keeps(result) {
      var r, i := Front(CursorOf(s)), Front(EntryCursor(item));
      if r >= 0 && i >= 0 {
        AllBeforeLater(w, s.acked, r, i);
        AllBeforeLater(w, Gates(s.commits), r, i);
      }
    }
  }

  lemma PollKeeps(w: Workflow, s: Run, env: Env)
    requires Sound(w) && Inv(w, s)
    ensures Inv(w, Poll(w, s, env))
    ensures CursorOf(Poll(w, s, env)) == CursorOf(s)
  {
    hide BranchPlan;
    if s.pc.Idle? && s.entry.Some? {
      var item := s.entry.value;
      PlanMoveIsEdge(w, item, env);
      if item.resume > 0 { PrecedesTransitive(w, 0, item.step, item.resume); }
    }
  }

  /** One step, of any kind: the invariant holds after it and the cursor did not move back. */
  lemma NextKeeps(w: Workflow, s: Run, x: Input)
    requires Sound(w) && Inv(w, s)
    ensures Inv(w, Apply(w, s, x))
    ensures Leads(w, CursorOf(s), CursorOf(Apply(w, s, x)))
  {
    match x {
      case Begin(env) => PollKeeps(w, s, env);
      case Act => TickKeeps(w, s);
      case _ => LossKeeps(w, s, x);
    }
    hide Inv, Sound, Poll, Tick, CursorOf;
  }

  lemma TickKeeps(w: Workflow, s: Run)
    requires Sound(w) && Inv(w, s)
    ensures Inv(w, Tick(w, s))
    ensures Leads(w, CursorOf(s), CursorOf(Tick(w, s)))
  {
    hide Inv, Sound;
    match s.pc {
      case Idle =>
      case Committing(_, _, _) => CommitKeeps(w, s);
      case Walking(_, _, _, _) => WalkTurnKeeps(w, s);
      case Performed(_, _, _, _) => AfterEffectKeeps(w, s);
      case Forgotten(_) => ForgottenKeeps(w, s);
      case Arrived(_, _, _) => ArrivalKeeps(w, s);
      case Finishing(_, _) => FinishKeeps(w, s);
    }
    hide CursorOf, WalkTurn, AfterEffect, AtArrival;
  }

  lemma ForgottenKeeps(w: Workflow, s: Run)
    requires Inv(w, s) && s.pc.Forgotten?
    ensures Inv(w, Tick(w, s))
    ensures Leads(w, CursorOf(s), CursorOf(Tick(w, s)))
  {}

  /** A crash, or a pass without the hold's provider. */
  lemma LossKeeps(w: Workflow, s: Run, x: Input)
    requires Inv(w, s) && (x.Crash? || x.Unavailable?)
    ensures Inv(w, Apply(w, s, x))
    ensures Leads(w, CursorOf(s), CursorOf(Apply(w, s, x)))
  {
    hide Ascending, AllBefore, ItemOk;
  }

  lemma CreatedOk(w: Workflow, provider: string, watch: bool, manager: string, env: Env)
    requires Sound(w)
    ensures Inv(w, Created(w, provider, watch, manager, env))
  {
    if Next(w, 0, "") >= 0 {
      WalkMoveIsEdge(w, 0);
      EdgePrecedes(w, 0, Next(w, 0, ""));
    }
  }

  // ---------------------------------------------------------------------------------------
  // Whole runs
  // ---------------------------------------------------------------------------------------

  /** A state some run of the workflow can be in, whatever happened since its hold was created. */
  ghost predicate Reached(w: Workflow, s: Run)
    requires w.steps != []
  {
    exists provider, watch, manager, env, xs :: s == Execute(w, Created(w, provider, watch, manager, env), xs)
  }

  lemma {:induction false} ExecuteKeeps(w: Workflow, s: Run, xs: seq<Input>)
    requires Sound(w) && Inv(w, s)
    ensures Inv(w, Execute(w, s, xs))
    ensures Leads(w, CursorOf(s), CursorOf(Execute(w, s, xs)))
    decreases |xs|
  {
    if xs != [] {
      var t := Apply(w, s, xs[0]);
      NextKeeps(w, s, xs[0]);
      ExecuteKeeps(w, t, xs[1..]);
      LeadsIsTransitive(w, CursorOf(s), CursorOf(t), CursorOf(Execute(w, s, xs)));
    }
  }

  lemma ReachedOk(w: Workflow, s: Run)
    requires Valid(w) && Reached(w, s)
    ensures Sound(w) && Inv(w, s)
  {
    ValidIsSound(w);
    var provider, watch, manager, env, xs :| s == Execute(w, Created(w, provider, watch, manager, env), xs);
    CreatedOk(w, provider, watch, manager, env);
    ExecuteKeeps(w, Created(w, provider, watch, manager, env), xs);
  }

  /** The cursor of a run never moves back, over any number of polls, crashes and failures. */
  lemma CursorMovesForward(w: Workflow, s: Run, xs: seq<Input>)
    requires Valid(w) && Reached(w, s)
    ensures Leads(w, CursorOf(s), CursorOf(Execute(w, s, xs)))
  {
    ReachedOk(w, s);
    ExecuteKeeps(w, s, xs);
  }

  /** Step `i` lies behind a cursor. */
  ghost predicate Behind(w: Workflow, c: Cursor, i: int) {
    c.Ended? || (Front(c) >= 0 && Precedes(w, i, Front(c)))
  }

  lemma BehindStays(w: Workflow, c: Cursor, d: Cursor, i: int)
    requires Behind(w, c, i) && Leads(w, c, d)
    ensures Behind(w, d, i)
  {
    if !c.Ended? && !d.Ended? && c != d {
      var r, j := Front(c), Front(d);
      PrecedesInRange(w, i, r);
      if r != j {
        PrecedesInRange(w, r, j);
        PrecedesTransitive(w, i, r, j);
      }
    }
  }

  /** Only a turn of the walk performs an effect. */
  lemma OnlyWalksAppend(w: Workflow, s: Run, x: Input)
    requires !(x.Act? && s.pc.Walking?)
    ensures Apply(w, s, x).log == s.log
  {
    hide BranchPlan, Next;
  }

  /** One step never appends an effect that lies behind the cursor. */
  lemma NextAppends(w: Workflow, s: Run, x: Input, i: int)
    requires Sound(w) && Inv(w, s) && Behind(w, CursorOf(s), i)
    ensures var t := Apply(w, s, x);
            s.log <= t.log && i !in t.log[|s.log|..]
  {
    if x.Act? && s.pc.Walking? {
      WalkTurnLeads(w, s);
      WalkIsNotBehind(w, s, i);
      hide WalkTurn, Inv, Sound, Next, Behind, CursorOf;
    } else {
      OnlyWalksAppend(w, s, x);
      hide Apply;
    }
  }

  lemma WalkIsNotBehind(w: Workflow, s: Run, i: int)
    requires Sound(w) && Inv(w, s) && s.pc.Walking? && Behind(w, CursorOf(s), i)
    ensures 0 <= s.pc.at ==> s.pc.at != i
  {
    if s.pc.at == i >= 0 && s.pc.mode.Branch? {
      var r := s.entry.value.resume;
      if !s.entry.value.done && r != i { PrecedesTransitive(w, i, r, i); }
    }
  }

  lemma NeverAppended(a: seq<nat>, b: seq<nat>, c: seq<nat>, i: int)
    requires a <= b <= c && i !in b[|a|..] && i !in c[|b|..]
    ensures a <= c && i !in c[|a|..]
  {
    assert c[|a|..] == b[|a|..] + c[|b|..];
  }

  lemma {:induction false} BehindNeverRuns(w: Workflow, s: Run, xs: seq<Input>, i: int)
    requires Sound(w) && Inv(w, s) && Behind(w, CursorOf(s), i)
    ensures s.log <= Execute(w, s, xs).log
    ensures i !in Execute(w, s, xs).log[|s.log|..]
    decreases |xs|
  {
    if xs != [] {
      hide Inv, Apply, CursorOf, Behind, Leads, Sound;
      var t := Apply(w, s, xs[0]);
      NextAppends(w, s, xs[0], i);
      NextKeeps(w, s, xs[0]);
      BehindStays(w, CursorOf(s), CursorOf(t), i);
      BehindNeverRuns(w, t, xs[1..], i);
      NeverAppended(s.log, t.log, Execute(w, t, xs[1..]).log, i);
    }
  }

  /** Once the checkpoint after a step's effect is in the file, the step never runs again, whatever
      the guards, the replies, the failures and the crashes are. */
  lemma CheckpointedStepNeverRunsAgain(w: Workflow, s: Run, xs: seq<Input>)
    requires Valid(w) && Reached(w, s) && s.pc.Performed? && s.pc.mode.Branch?
    ensures var t := Apply(w, s, Act);
            t.log <= Execute(w, t, xs).log && s.pc.step !in Execute(w, t, xs).log[|t.log|..]
  {
    ReachedOk(w, s);
    var t := Apply(w, s, Act);
    var i := s.pc.step;
    NextKeeps(w, s, Act);
    var j := Next(w, i, "");
    if w.steps[i].verb != Cancel && j >= 0 {
      WalkMoveIsEdge(w, i);
      EdgePrecedes(w, i, j);
      NothingReturnsToStart(w, i);
    }
    BehindNeverRuns(w, t, xs, i);
  }

  /** The loop check of the walk never fires: a validated run never meets a step twice in a walk. */
  lemma VisitedCheckNeverFires(w: Workflow, s: Run)
    requires Valid(w) && Reached(w, s) && s.pc.Walking? && s.pc.at >= 0
    ensures s.pc.at !in s.pc.visited
  {
    ReachedOk(w, s);
  }

  lemma AscendingIsShort(w: Workflow, s: seq<nat>)
    requires Sound(w) && Ascending(w, s)
    requires forall a :: a in s ==> a < |w.steps|
    ensures Distinct(s) && |s| <= |w.steps|
  {
    forall i, j | 0 <= i < j < |s|
      ensures s[i] != s[j]
    {
      assert Precedes(w, s[i], s[j]);
    }
    assert forall i :: 0 <= i < |s| ==> s[i] in s;
    DistinctIsShort(s, |w.steps|);
  }

  /** A run opens each gate at most once, so it crosses at most as many gates as it has steps. */
  lemma GatesOpenOnce(w: Workflow, s: Run)
    requires Valid(w) && Reached(w, s)
    ensures Distinct(Gates(s.commits)) && |s.commits| <= |w.steps|
  {
    ReachedOk(w, s);
    ReachedCommitsInRange(w, s);
    AscendingIsShort(w, Gates(s.commits));
  }

  ghost predicate CommitsInRange(w: Workflow, s: Run) {
    forall k :: 0 <= k < |s.commits| ==> s.commits[k].gate < |w.steps|
  }

  lemma NextCommitsInRange(w: Workflow, s: Run, x: Input)
    requires PcOk(w, s) && (s.entry.Some? ==> ItemOk(w, s.entry.value)) && CommitsInRange(w, s)
    ensures CommitsInRange(w, Apply(w, s, x))
  {
    hide GuardAllows, Next, BranchPlan, Ascending, AllBefore;
    var t := Apply(w, s, x);
    assert t.commits == s.commits || (s.pc.Committing? && t.commits == s.commits + [s.pc.commit]);
  }

  lemma {:induction false} ExecuteCommitsInRange(w: Workflow, s: Run, xs: seq<Input>)
    requires Sound(w) && Inv(w, s) && CommitsInRange(w, s)
    ensures CommitsInRange(w, Execute(w, s, xs))
    decreases |xs|
  {
    if xs != [] {
      NextKeeps(w, s, xs[0]);
      NextCommitsInRange(w, s, xs[0]);
      ExecuteCommitsInRange(w, Apply(w, s, xs[0]), xs[1..]);
    }
  }

  lemma ReachedCommitsInRange(w: Workflow, s: Run)
    requires Valid(w) && Reached(w, s)
    ensures CommitsInRange(w, s)
  {
    ValidIsSound(w);
    var provider, watch, manager, env, xs :| s == Execute(w, Created(w, provider, watch, manager, env), xs);
    CreatedOk(w, provider, watch, manager, env);
    ExecuteCommitsInRange(w, Created(w, provider, watch, manager, env), xs);
  }

  predicate IsStep(w: Workflow, i: int) {
    0 <= i < |w.steps|
  }

  function AllSteps(w: Workflow): set<int> {
    set i: int | 0 <= i < |w.steps| && IsStep(w, i)
  }

  /** How many more actions a busy process can perform at most. */
  function Remaining(w: Workflow, pc: Pc): nat {
    match pc
    case Idle => 0
    case Finishing(_, _) => 1
    case Forgotten(_) => 2
    case Arrived(_, _, _) => 2
    case Walking(_, _, _, visited) => 2 * |AllSteps(w) - visited| + 3
    case Performed(_, _, _, visited) => 2 * |AllSteps(w) - visited| + 4
    case Committing(_, _, _) => 2 * |AllSteps(w)| + 4
  }

  lemma VisitingShrinks(w: Workflow, visited: set<int>, i: int)
    requires IsStep(w, i) && i !in visited
    ensures |AllSteps(w) - visited| == |AllSteps(w) - (visited + {i})| + 1
  {
    assert AllSteps(w) - visited == (AllSteps(w) - (visited + {i})) + {i};
  }

  lemma WalkVisitsOnce(w: Workflow, s: Run)
    requires s.pc.Walking?
    ensures var t := WalkTurn(w, s);
            if t.pc.Walking? || t.pc.Performed? then
              IsStep(w, s.pc.at) && s.pc.at !in s.pc.visited && t.pc.visited == s.pc.visited + {s.pc.at}
            else t.pc.Idle? || t.pc.Finishing? || t.pc.Arrived?
  {
    hide GuardAllows, Next;
  }

  lemma WalkProgresses(w: Workflow, s: Run)
    requires s.pc.Walking?
    ensures Remaining(w, WalkTurn(w, s).pc) < Remaining(w, s.pc)
  {
    WalkVisitsOnce(w, s);
    var t := WalkTurn(w, s).pc;
    if t.Walking? || t.Performed? {
      VisitingShrinks(w, s.pc.visited, s.pc.at);
    }
  }

  lemma TickProgresses(w: Workflow, s: Run)
    requires !s.pc.Idle?
    ensures Remaining(w, Tick(w, s).pc) < Remaining(w, s.pc)
  {
    hide Next, AllSteps;
    if s.pc.Walking? {
      WalkProgresses(w, s);
      hide WalkTurn;
    } else if s.pc.Committing? {
      assert AllSteps(w) - {} == AllSteps(w);
    }
  }

  /** The state a process comes to rest in when nothing crashes it. */
  function Settle(w: Workflow, s: Run): (t: Run)
    ensures t.pc.Idle?
    decreases Remaining(w, s.pc)
  {
    if s.pc.Idle? then s
    else (TickProgresses(w, s); Settle(w, Tick(w, s)))
  }

  lemma SettleTick(w: Workflow, s: Run)
    ensures Settle(w, Tick(w, s)) == Settle(w, s)
  {}

  /** Left alone, a process comes to rest: every poll and every first walk ends. */
  lemma {:induction false} EveryPollEnds(w: Workflow, s: Run, n: nat)
    requires n >= Remaining(w, s.pc)
    ensures Execute(w, s, seq(n, _ => Act)).pc.Idle?
    decreases n
  {
    if n > 0 {
      var xs: seq<Input> := seq(n, _ => Act);
      assert xs[1..] == seq(n - 1, _ => Act);
      if !s.pc.Idle? { TickProgresses(w, s); }
      EveryPollEnds(w, Apply(w, s, Act), n - 1);
    }
  }

  /** In a reachable run no checkpoint is ever written for step 0, so a committed branch is never
      mistaken for a gate that has not opened. */
  lemma CommittedBranchIsNeverUnopened(w: Workflow, s: Run)
    requires Valid(w) && Reached(w, s)
    ensures s.pc.Committing? ==>
              EntryCursor(Apply(w, s, Act).entry.value)
              == if s.pc.commit.from < 0 then Ended else Running(s.pc.commit.from)
    ensures s.pc.Performed? && s.pc.mode.Branch? && s.pc.step < |w.steps| && w.steps[s.pc.step].verb != Cancel ==>
              var j := Next(w, s.pc.step, "");
              EntryCursor(Apply(w, s, Act).entry.value) == if j < 0 then Ended else Running(j)
  {
    ReachedOk(w, s);
    hide Valid, Reached, Sound, HistoryOk;
    if s.pc.Committing? {
      CommittedMovesOn(w, s);
    } else if s.pc.Performed? && w.steps[s.pc.step].verb != Cancel {
      EffectMovesOn(w, s);
    }
  }

  lemma CommittedMovesOn(w: Workflow, s: Run)
    requires Sound(w) && PcOk(w, s) && s.pc.Committing? && ItemOk(w, s.pc.item)
    ensures s.pc.commit.from != 0
  {
    NothingReturnsToStart(w, s.pc.item.step);
  }

  lemma EffectMovesOn(w: Workflow, s: Run)
    requires Sound(w) && PcOk(w, s) && s.pc.Performed?
    ensures Next(w, s.pc.step, "") != 0
  {
    if Next(w, s.pc.step, "") >= 0 {
      WalkMoveIsEdge(w, s.pc.step);
      NothingReturnsToStart(w, s.pc.step);
    }
  }
}
