/** The order of effects when guards answer as they like, and which definitions keep it
    (cmd/daemon.go, cmd/run.go). */
module EffectOrder {
  import opened Workflows
  import opened Protocol
  import opened Forward
  import opened Clocks
  import opened Refinement
  import opened Routes
  import opened RouteRuns
  import Guards

  /** No effect recurs except right after itself, and effects follow the flow. */
  ghost predicate InOrder(w: Workflow, s: Run) {
    Ascending(w, Destutter(s.log))
  }

  // ---------------------------------------------------------------------------------------
  // Skipping ahead
  // ---------------------------------------------------------------------------------------

  /** A walk with `n` attendees may pass from step `i` on to step `j` and perform nothing. */
  ghost predicate SkipsTo(w: Workflow, n: nat, day: nat -> Guards.Weekday, i: int, j: int)
    requires Sound(w)
    decreases Past(w, i)
  {
    i == j
    || (0 <= i < |w.steps| && !Waits(w.steps[i].verb)
        && (Acts(w.steps[i].verb) ==> !Permits(w, i, n, day))
        && Next(w, i, "") >= 0 && (PastShrinks(w, i); SkipsTo(w, n, day, Next(w, i, ""), j)))
  }

  predicate MayAct(w: Workflow, i: int, n: nat, day: nat -> Guards.Weekday) {
    0 <= i < |w.steps| && Acts(w.steps[i].verb) && Permits(w, i, n, day)
  }

  /** A step that may act in the daemon's hands, and that another walk may skip on the way to performing
      step `j`. */
  ghost predicate Overtaken(w: Workflow, span: Span, x: Place, n: nat, day: nat -> Guards.Weekday, j: int)
    requires Sound(w)
  {
    && x.polled && MayAct(w, x.step, x.count, x.day) && Spans(w, span, day) && !Permits(w, x.step, n, day)
    && MayAct(w, j, n, day) && w.steps[j].verb != Cancel
    && Next(w, x.step, "") >= 0 && SkipsTo(w, n, day, Next(w, x.step, ""), j)
  }

  ghost predicate Overtakes(w: Workflow, c: Conditions)
    requires Sound(w)
  {
    exists x, n, day, j :: Reachable(w, c, x) && Overtaken(w, c.span, x, n, day, j)
  }

  /** No walk within the span lets step `i` act. */
  ghost predicate Shut(w: Workflow, span: Span, i: nat)
    requires i < |w.steps|
  {
    forall n, day :: Spans(w, span, day) ==> !Permits(w, i, n, day)
  }

  /** From step `i` to step `j` the flow passes only steps that never act. */
  ghost predicate ShutTo(w: Workflow, span: Span, i: int, j: int)
    requires Sound(w)
    decreases Past(w, i)
  {
    i == j
    || (0 <= i < |w.steps| && !Waits(w.steps[i].verb)
        && (Acts(w.steps[i].verb) ==> Shut(w, span, i))
        && Next(w, i, "") >= 0 && (PastShrinks(w, i); ShutTo(w, span, Next(w, i, ""), j)))
  }

  lemma {:induction false} SkipsForward(w: Workflow, n: nat, day: nat -> Guards.Weekday, i: int, j: int)
    requires Sound(w) && SkipsTo(w, n, day, i, j)
    ensures AtOrBefore(w, i, j)
    decreases Past(w, i)
  {
    if i != j {
      var k := Next(w, i, "");
      PastShrinks(w, i);
      WalkMoveIsEdge(w, i);
      EdgePrecedes(w, i, k);
      SkipsForward(w, n, day, k, j);
      if k != j { PrecedesTransitive(w, i, k, j); }
    }
  }

  lemma {:induction false} SkipsOn(w: Workflow, n: nat, day: nat -> Guards.Weekday, i: int, j: nat)
    requires Sound(w) && SkipsTo(w, n, day, i, j) && j < |w.steps| && !Waits(w.steps[j].verb)
    requires Acts(w.steps[j].verb) ==> !Permits(w, j, n, day)
    requires Next(w, j, "") >= 0
    ensures SkipsTo(w, n, day, i, Next(w, j, ""))
    decreases Past(w, i)
  {
    if i == j {
      PastShrinks(w, i);
    } else {
      PastShrinks(w, i);
      SkipsOn(w, n, day, Next(w, i, ""), j);
    }
  }

  /** The first step that may act from step `i` comes no later than any other met by skipping from there. */
  lemma {:induction false} FirstToAct(w: Workflow, span: Span, n: nat, day: nat -> Guards.Weekday, i: int, j: int,
                                      k: int)
    requires Sound(w) && ShutTo(w, span, i, j) && SkipsTo(w, n, day, i, k)
    requires 0 <= j < |w.steps| && Acts(w.steps[j].verb) && !Shut(w, span, j)
    requires MayAct(w, k, n, day) && Spans(w, span, day)
    ensures AtOrBefore(w, j, k)
    decreases Past(w, i)
  {
    if i == j {
      SkipsForward(w, n, day, i, k);
    } else if i != k {
      PastShrinks(w, i);
      FirstToAct(w, span, n, day, Next(w, i, ""), j, k);
    }
  }

  /** What may act, met first from step `i`, comes before any gate met by skipping from there. */
  lemma {:induction false} ActsBeforeGate(w: Workflow, span: Span, n: nat, day: nat -> Guards.Weekday, i: int, j: nat,
                                          g: nat)
    requires Sound(w) && ShutTo(w, span, i, j) && j < |w.steps| && !Waits(w.steps[j].verb)
    requires SkipsTo(w, n, day, i, g) && g < |w.steps| && Waits(w.steps[g].verb)
    ensures Precedes(w, j, g)
    decreases Past(w, i)
  {
    if i == j {
      SkipsForward(w, n, day, i, g);
    } else {
      PastShrinks(w, i);
      ActsBeforeGate(w, span, n, day, Next(w, i, ""), j, g);
    }
  }

  /** Where nothing can be overtaken, a daemon's walk performs the first step that may ever act. */
  lemma {:induction false} NothingOvertaken(w: Workflow, c: Conditions, a: string, n: nat,
                                            day: nat -> Guards.Weekday, i: int, j: int)
    requires Sound(w) && !Overtakes(w, c) && Spans(w, c.span, day)
    requires BranchReachable(w, c, i, a)
    requires SkipsTo(w, n, day, i, j) && MayAct(w, j, n, day) && w.steps[j].verb != Cancel
    ensures ShutTo(w, c.span, i, j)
    decreases Past(w, i)
  {
    if i != j {
      var k := Next(w, i, "");
      PastShrinks(w, i);
      if Acts(w.steps[i].verb) {
        forall m, days | Spans(w, c.span, days)
          ensures !Permits(w, i, m, days)
        {
          var x := Place(i, m, days, true, a);
          assert Reachable(w, c, x);
          if Permits(w, i, m, days) { assert Overtaken(w, c.span, x, n, day, j); }
        }
      }
      BranchGoesOn(w, c, a, i);
      NothingOvertaken(w, c, a, n, day, k, j);
    }
  }

  lemma BranchGoesOn(w: Workflow, c: Conditions, a: string, i: nat)
    requires Sound(w) && BranchReachable(w, c, i, a) && i < |w.steps| && !Waits(w.steps[i].verb)
    requires Acts(w.steps[i].verb) ==> Shut(w, c.span, i)
    requires Next(w, i, "") >= 0
    ensures BranchReachable(w, c, Next(w, i, ""), a)
  {
    forall n: nat, day | Spans(w, c.span, day)
      ensures Reachable(w, c, Place(Next(w, i, ""), n, day, true, a))
    {
      PastStepReaches(w, c, Place(i, n, day, true, a));
    }
  }

  // ---------------------------------------------------------------------------------------
  // Where the last effect lies
  // ---------------------------------------------------------------------------------------

  predicate LastIs(s: Run, i: nat) {
    s.log != [] && s.log[|s.log| - 1] == i
  }

  /** The last effect lies behind a cursor, or it is the first step that may act from there. */
  ghost predicate Placed(w: Workflow, span: Span, s: Run, at: Cursor)
    requires Sound(w)
  {
    s.log != [] ==>
      var last := s.log[|s.log| - 1];
      match at
      case Waiting(g) => Precedes(w, last, g)
      case Running(r) =>
        || Precedes(w, last, r)
        || (ShutTo(w, span, r, last) && last < |w.steps| && Acts(w.steps[last].verb) && !Shut(w, span, last))
      case _ => true
  }

  /** How a walk got from the stored cursor to where it stands. */
  ghost predicate Walked(w: Workflow, s: Run, mode: Mode, env: Env, at: int)
    requires Sound(w)
  {
    match mode
    case FirstWalk(_, _) => s.log == s.acked
    case Branch(_, _) =>
      at >= 0 && s.entry.Some? ==> SkipsTo(w, |env.hold.attendees|, env.day, s.entry.value.resume, at)
  }

  /** Once the hold is cancelled nothing is performed any more; until then the last effect is placed. */
  ghost predicate Tail(w: Workflow, span: Span, s: Run)
    requires Sound(w)
  {
    if !s.alive then
      && !s.pc.Walking? && !s.pc.Committing? && !s.pc.Arrived?
      && (s.pc.Performed? ==> s.pc.step < |w.steps| && w.steps[s.pc.step].verb == Cancel)
    else
    && (s.entry.Some? ==> Placed(w, span, s, EntryCursor(s.entry.value)))
    && match s.pc
       case Walking(mode, env, at, _) => Walked(w, s, mode, env, at)
       case Performed(mode, env, i, _) => LastIs(s, i) && (mode.FirstWalk? ==> s.log == s.acked + [i])
       case Arrived(mode, env, gate) => Walked(w, s, mode, env, gate)
       case Finishing(result, item) => Keeps(result) ==> Placed(w, span, s, EntryCursor(item))
       case _ => true
  }

  lemma InOrderGrows(w: Workflow, d: seq<nat>, i: nat)
    requires Ascending(w, d) && (d != [] ==> Precedes(w, d[|d| - 1], i))
    ensures Ascending(w, d + [i])
  {
    var r := d + [i];
    forall a, b | 0 <= a < b < |r|
      ensures Precedes(w, r[a], r[b])
    {
      if b == |d| && a < |d| - 1 { PrecedesTransitive(w, d[a], d[|d| - 1], i); }
    }
  }

  lemma EffectInOrder(w: Workflow, s: Run, t: Run, i: nat)
    requires InOrder(w, s) && t.log == s.log + [i]
    requires s.log != [] ==> LastIs(s, i) || Precedes(w, s.log[|s.log| - 1], i)
    ensures InOrder(w, t)
  {
    hide Ascending;
    DestutterAppend(s.log, i);
    if !LastIs(s, i) { InOrderGrows(w, Destutter(s.log), i); }
  }

  /** A daemon's walk that may perform step `i` finds the last effect behind it, or performs it again. */
  lemma LastIsBehind(w: Workflow, c: Conditions, s: Run, n: nat, day: nat -> Guards.Weekday, i: int)
    requires Sound(w) && !Overtakes(w, c) && s.entry.Some? && Spans(w, c.span, day)
    requires EntryCursor(s.entry.value).Running? && ItemReachable(w, c, s.entry.value)
    requires Placed(w, c.span, s, EntryCursor(s.entry.value))
    requires SkipsTo(w, n, day, s.entry.value.resume, i) && MayAct(w, i, n, day)
    ensures w.steps[i].verb != Cancel ==> ShutTo(w, c.span, s.entry.value.resume, i)
    ensures s.log != [] ==> LastIs(s, i) || Precedes(w, s.log[|s.log| - 1], i)
  {
    hide Overtakes, Permits, Guards.Allows, Spans, Shut;
    var r := s.entry.value.resume;
    if w.steps[i].verb != Cancel { NothingOvertaken(w, c, s.entry.value.approver, n, day, r, i); }
    SkipsForward(w, n, day, r, i);
    if s.log != [] {
      var last := s.log[|s.log| - 1];
      if Precedes(w, last, r) {
        if r != i { PrecedesTransitive(w, last, r, i); }
      } else {
        FirstToAct(w, c.span, n, day, r, last, i);
      }
    }
  }

  /** A stored run's walk stands past a committed branch. */
  lemma BranchIsRunning(w: Workflow, s: Run, mode: Mode, at: int, visited: set<int>)
    requires WalkOk(w, s, mode, at, visited) && mode.Branch? && at >= 0
    ensures s.entry.Some? && EntryCursor(s.entry.value) == Running(s.entry.value.resume)
  {}

  /** Whatever a walk performs comes after the last effect, or is that effect again. */
  lemma PerformedComesLast(w: Workflow, c: Conditions, s: Run)
    requires Sound(w) && !Overtakes(w, c) && PcOk(w, s) && Tracks(w, c, s)
    requires Tail(w, c.span, s) && s.pc.Walking? && WalkTurn(w, s).pc.Performed?
    ensures var i, t := s.pc.at, WalkTurn(w, s);
            && s.alive && 0 <= i < |w.steps| && (s.log != [] ==> LastIs(s, i) || Precedes(w, s.log[|s.log| - 1], i))
            && (s.entry.Some? && w.steps[i].verb != Cancel ==> Placed(w, c.span, t, EntryCursor(s.entry.value)))
  {
    var Walking(mode, env, i, visited) := s.pc;
    PerformedShape(w, s);
    assert Permits(w, i, |env.hold.attendees|, env.day);
    assert MayAct(w, i, |env.hold.attendees|, env.day);
    assert !Shut(w, c.span, i);
    hide Overtakes, Guards.Allows, Permits, WalkTurn, Spans, Shut;
    if mode.Branch? {
      BranchIsRunning(w, s, mode, i, visited);
      LastIsBehind(w, c, s, |env.hold.attendees|, env.day, i);
    } else if s.log != [] {
      assert s.log[|s.log| - 1] in s.acked;
    }
  }

  lemma PerformKeepsTail(w: Workflow, c: Conditions, s: Run)
    requires Sound(w) && !Overtakes(w, c) && PcOk(w, s) && Tracks(w, c, s)
    requires InOrder(w, s) && Tail(w, c.span, s) && s.pc.Walking? && WalkTurn(w, s).pc.Performed?
    ensures InOrder(w, WalkTurn(w, s)) && Tail(w, c.span, WalkTurn(w, s))
  {
    hide Overtakes, Tracks, Permits, GuardAllows, InOrder, Placed, SkipsTo;
    PerformedComesLast(w, c, s);
    PerformedShape(w, s);
    EffectInOrder(w, s, WalkTurn(w, s), s.pc.at);
  }

  /** A step that fails becomes the cursor, and the last effect lies behind it or is that step. */
  lemma FailedIsPlaced(w: Workflow, c: Conditions, s: Run, n: nat, day: nat -> Guards.Weekday, i: int)
    requires Sound(w) && !Overtakes(w, c) && s.entry.Some? && Spans(w, c.span, day)
    requires EntryCursor(s.entry.value).Running? && ItemReachable(w, c, s.entry.value)
    requires Placed(w, c.span, s, EntryCursor(s.entry.value))
    requires SkipsTo(w, n, day, s.entry.value.resume, i) && MayAct(w, i, n, day)
    ensures Placed(w, c.span, s, Running(i))
  {
    LastIsBehind(w, c, s, n, day, i);
    assert !Shut(w, c.span, i);
    hide Overtakes, MayAct, SkipsTo, Spans, Shut;
    assert ShutTo(w, c.span, i, i);
  }

  lemma FailKeepsTail(w: Workflow, c: Conditions, s: Run)
    requires Sound(w) && !Overtakes(w, c) && PcOk(w, s) && Tracks(w, c, s)
    requires Tail(w, c.span, s) && s.pc.Walking?
    requires WalkTurn(w, s).pc.Finishing? && WalkTurn(w, s).pc.result == PollFailed
    ensures Tail(w, c.span, WalkTurn(w, s))
  {
    var Walking(mode, env, i, visited) := s.pc;
    var t := WalkTurn(w, s);
    FailShape(w, s);
    BranchIsRunning(w, s, mode, i, visited);
    FailedIsPlaced(w, c, s, |env.hold.attendees|, env.day, i);
    hide Overtakes, Guards.Allows, Permits, Sound, PcOk, Tracks, WalkTurn, ShutTo, SkipsTo;
    SamePlaced(w, c.span, s, t, Running(i));
    if s.entry.Some? { SamePlaced(w, c.span, s, t, EntryCursor(s.entry.value)); }
  }

  lemma SamePlaced(w: Workflow, span: Span, s: Run, t: Run, at: Cursor)
    requires Sound(w) && Placed(w, span, s, at) && t.log == s.log
    ensures Placed(w, span, t, at)
  {}

  /** What a turn leaves at a step that fails. */
  lemma FailShape(w: Workflow, s: Run)
    requires Sound(w) && PcOk(w, s) && s.pc.Walking?
    requires WalkTurn(w, s).pc.Finishing? && WalkTurn(w, s).pc.result == PollFailed
    ensures var Walking(mode, env, i, visited) := s.pc;
            var t := WalkTurn(w, s);
            && mode.Branch? && 0 <= i < |w.steps| && MayAct(w, i, |env.hold.attendees|, env.day)
            && t.log == s.log && t.entry == s.entry && EntryCursor(t.pc.item) == Running(i)
  {
    hide Guards.Allows;
    var Walking(mode, env, i, visited) := s.pc;
    WalkTurnLeads(w, s);
    NothingReturnsToStart(w, 0);
  }

  lemma SkipKeepsTail(w: Workflow, c: Conditions, s: Run)
    requires Sound(w) && PcOk(w, s) && Tail(w, c.span, s) && s.pc.Walking?
    requires WalkTurn(w, s).pc.Walking? || WalkTurn(w, s).pc.Arrived? || WalkTurn(w, s).pc.Idle?
    ensures Tail(w, c.span, WalkTurn(w, s))
  {
    var Walking(mode, env, i, visited) := s.pc;
    var t := WalkTurn(w, s);
    WalkTurnLeads(w, s);
    if t.pc.Walking? {
      if !GuardAllows(w, env, i) { assert !Permits(w, i, |env.hold.attendees|, env.day); }
      hide Guards.Allows, Permits;
      if mode.Branch? && t.pc.at >= 0 {
        BranchIsRunning(w, s, mode, i, visited);
        SkipsOn(w, |env.hold.attendees|, env.day, s.entry.value.resume, i);
      }
    }
  }

  lemma WalkKeepsTail(w: Workflow, c: Conditions, s: Run)
    requires Sound(w) && !Overtakes(w, c) && Inv(w, s) && Tracks(w, c, s)
    requires InOrder(w, s) && Tail(w, c.span, s) && s.pc.Walking?
    ensures InOrder(w, WalkTurn(w, s)) && Tail(w, c.span, WalkTurn(w, s))
  {
    var t := WalkTurn(w, s);
    WalkTurnLeads(w, s);
    assert PcOk(w, s);
    hide Overtakes, Tracks, Guards.Allows, Sound, InOrder, Inv, Tail, WalkTurn, PcOk;
    if t.pc.Performed? {
      PerformKeepsTail(w, c, s);
    } else {
      SameLogInOrder(w, s, t);
      if t.pc.Finishing? && t.pc.result == PollFailed {
        FailKeepsTail(w, c, s);
      } else if t.pc.Finishing? {
        EndKeepsTail(w, c.span, s);
      } else {
        SkipKeepsTail(w, c, s);
      }
    }
  }

  lemma EndKeepsTail(w: Workflow, span: Span, s: Run)
    requires Sound(w) && PcOk(w, s) && Tail(w, span, s) && s.pc.Walking?
    requires WalkTurn(w, s).pc.Finishing? && WalkTurn(w, s).pc.result != PollFailed
    ensures Tail(w, span, WalkTurn(w, s))
  {
    hide ShutTo, SkipsTo, MayAct;
    WalkTurnLeads(w, s);
    hide WalkTurn, Sound;
  }

  lemma SameLogInOrder(w: Workflow, s: Run, t: Run)
    requires InOrder(w, s) && t.log == s.log
    ensures InOrder(w, t)
  {}

  lemma EffectKeepsTail(w: Workflow, span: Span, s: Run)
    requires Sound(w) && PcOk(w, s) && Tail(w, span, s) && s.pc.Performed?
    ensures Tail(w, span, AfterEffect(w, s)) && AfterEffect(w, s).log == s.log
  {
    hide Permits, ShutTo, Shut, MayAct;
    var i := s.pc.step;
    if w.steps[i].verb != Cancel && Next(w, i, "") >= 0 {
      WalkMoveIsEdge(w, i);
      EdgePrecedes(w, i, Next(w, i, ""));
      NothingReturnsToStart(w, i);
      hide Sound, Precedes, Edge, Next;
    }
  }

  lemma CommitKeepsTail(w: Workflow, span: Span, s: Run)
    requires Sound(w) && PcOk(w, s) && Tail(w, span, s) && s.pc.Committing? && ItemOk(w, s.pc.item)
    ensures Tail(w, span, Tick(w, s)) && Tick(w, s).log == s.log
  {
    hide ShutTo;
    var Committing(item, env, commit) := s.pc;
    if commit.from >= 0 {
      NothingReturnsToStart(w, item.step);
      EdgePrecedes(w, item.step, commit.from);
      if s.log != [] { PrecedesTransitive(w, s.log[|s.log| - 1], item.step, commit.from); }
    }
  }

  lemma ArrivalIsPlaced(w: Workflow, span: Span, s: Run)
    requires Sound(w) && PcOk(w, s) && Tail(w, span, s) && s.pc.Arrived?
    ensures Placed(w, span, s, Waiting(s.pc.gate))
  {
    var Arrived(mode, env, gate) := s.pc;
    if s.log != [] {
      var last := s.log[|s.log| - 1];
      if mode.FirstWalk? {
        assert last in s.acked;
      } else {
        BranchIsRunning(w, s, mode, gate, {});
        hide Permits;
        var r := s.entry.value.resume;
        if Precedes(w, last, r) {
          if r != gate { PrecedesTransitive(w, last, r, gate); }
        } else {
          hide Sound, WalkOk;
          ActsBeforeGate(w, span, |env.hold.attendees|, env.day, r, last, gate);
        }
      }
    }
  }

  lemma ArrivalShape(w: Workflow, s: Run)
    requires s.pc.Arrived?
    ensures var t, gate := AtArrival(w, s), s.pc.gate;
            && t.log == s.log && t.alive == s.alive
            && (t.entry == s.entry || (t.entry.Some? && EntryCursor(t.entry.value) == Waiting(gate)))
            && (t.pc.Idle? || (t.pc.Finishing? && EntryCursor(t.pc.item) in {Waiting(gate), Ended}))
  {
    hide NamesApprover;
  }

  lemma ArrivalKeepsTail(w: Workflow, span: Span, s: Run)
    requires Sound(w) && PcOk(w, s) && Tail(w, span, s) && s.pc.Arrived?
    ensures Tail(w, span, AtArrival(w, s)) && AtArrival(w, s).log == s.log
  {
    ArrivalIsPlaced(w, span, s);
    ArrivalShape(w, s);
    var t := AtArrival(w, s);
    hide ShutTo, SkipsTo, MayAct, Sound, AtArrival, PcOk, EntryCursor;
    SamePlaced(w, span, s, t, Waiting(s.pc.gate));
    if s.entry.Some? { SamePlaced(w, span, s, t, EntryCursor(s.entry.value)); }
    hide Placed;
  }

  lemma PollKeepsTail(w: Workflow, span: Span, s: Run, env: Env)
    requires Sound(w) && Tail(w, span, s)
    ensures Tail(w, span, Poll(w, s, env)) && Poll(w, s, env).log == s.log
  {
    hide ShutTo, BranchPlan, MayAct, Shut, Sound;
  }

  lemma TickKeepsTail(w: Workflow, c: Conditions, s: Run)
    requires Sound(w) && !Overtakes(w, c) && Inv(w, s) && Tracks(w, c, s)
    requires InOrder(w, s) && Tail(w, c.span, s)
    ensures InOrder(w, Tick(w, s)) && Tail(w, c.span, Tick(w, s))
  {
    var t := Tick(w, s);
    assert PcOk(w, s) && (s.pc.Committing? ==> ItemOk(w, s.pc.item));
    hide Overtakes, Tracks, Sound, Inv, PcOk, ItemOk, InOrder, Tail, WalkTurn, AfterEffect, AtArrival;
    match s.pc
    case Walking(_, _, _, _) => WalkKeepsTail(w, c, s);
    case Performed(_, _, _, _) =>
      EffectKeepsTail(w, c.span, s);
      SameLogInOrder(w, s, t);
    case Committing(_, _, _) =>
      CommitKeepsTail(w, c.span, s);
      SameLogInOrder(w, s, t);
    case Arrived(_, _, _) =>
      ArrivalKeepsTail(w, c.span, s);
      SameLogInOrder(w, s, t);
    case Idle =>
    case _ =>
      RestKeepsTail(w, c.span, s);
      SameLogInOrder(w, s, t);
  }

  lemma RestKeepsTail(w: Workflow, span: Span, s: Run)
    requires Sound(w) && PcOk(w, s) && Tail(w, span, s) && (s.pc.Finishing? || s.pc.Forgotten?)
    ensures Tail(w, span, Tick(w, s)) && Tick(w, s).log == s.log
  {
    hide ShutTo, SkipsTo, MayAct, Sound;
  }

  lemma ApplyKeepsTail(w: Workflow, c: Conditions, s: Run, x: Input)
    requires Sound(w) && !Overtakes(w, c) && Inv(w, s) && Tracks(w, c, s)
    requires InOrder(w, s) && Tail(w, c.span, s)
    ensures InOrder(w, Apply(w, s, x)) && Tail(w, c.span, Apply(w, s, x))
  {
    hide Overtakes, Tracks, Tick, Poll, ShutTo, SkipsTo, MayAct, Sound, Inv;
    match x
    case Act => TickKeepsTail(w, c, s);
    case Begin(env) => PollKeepsTail(w, c.span, s, env);
    case _ =>
  }

  lemma {:induction false} ExecuteKeepsOrder(w: Workflow, c: Conditions, s: Run, xs: seq<Input>)
    requires Sound(w) && !Overtakes(w, c) && Inv(w, s) && Tracks(w, c, s) && CommitsAsPlanned(w, s)
    requires InOrder(w, s) && Tail(w, c.span, s) && c.avoid < 0 && Spanned(w, c.span, xs)
    ensures InOrder(w, Execute(w, s, xs))
    decreases |xs|
  {
    if xs != [] {
      hide Overtakes, Sound, InOrder, Tail, Tracks, Inv;
      ApplyKeepsTail(w, c, s, xs[0]);
      ApplyFollows(w, c, s, xs[0]);
      NextKeeps(w, s, xs[0]);
      NextPlans(w, s, xs[0]);
      assert !HasRead(Apply(w, s, xs[0]), c.avoid);
      assert forall k :: 0 <= k < |xs[1..]| ==> xs[1..][k] == xs[k + 1];
      ExecuteKeepsOrder(w, c, Apply(w, s, xs[0]), xs[1..]);
    }
  }

  /** Where nothing can be overtaken, every run whose walks last no longer keeps its effects in order, whatever
      its guards answer. */
  lemma NothingOvertakenKeepsOrder(w: Workflow, c: Conditions, provider: string, watch: bool, env: Env,
                                   xs: seq<Input>)
    requires Valid(w) && Sound(w) && c.avoid < 0 && !Overtakes(w, c) && Spans(w, c.span, env.day)
    requires Spanned(w, c.span, xs)
    ensures InOrder(w, Execute(w, Created(w, provider, watch, c.manager, env), xs))
  {
    var s := Created(w, provider, watch, c.manager, env);
    CreatedOk(w, provider, watch, c.manager, env);
    CreatedFollows(w, c, provider, watch, env);
    hide Overtakes, Valid, Spanned;
    ExecuteKeepsOrder(w, c, s, xs);
  }

  /** Nothing is overtaken in a workflow whose acting steps have no guard. */
  lemma UnguardedIsNeverOvertaken(w: Workflow, c: Conditions)
    requires Sound(w)
    requires forall i :: 0 <= i < |w.steps| && Acts(w.steps[i].verb) ==> w.steps[i].guard == Guards.UNGUARDED
    ensures !Overtakes(w, c)
  {
    forall x: Place, n, day, j
      ensures !Overtaken(w, c.span, x, n, day, j)
    {
      if MayAct(w, x.step, x.count, x.day) { assert w.steps[x.step].guard == Guards.UNGUARDED; }
    }
  }

  /** So all its runs keep their effects in order: only guards can break the order. */
  lemma UnguardedKeepsOrder(w: Workflow, provider: string, watch: bool, manager: string, env: Env, xs: seq<Input>)
    requires Valid(w)
    requires forall i :: 0 <= i < |w.steps| && Acts(w.steps[i].verb) ==> w.steps[i].guard == Guards.UNGUARDED
    ensures InOrder(w, Execute(w, Created(w, provider, watch, manager, env), xs))
  {
    ValidIsSound(w);
    var c := Conditions(manager, Unbounded, -1);
    UnguardedIsNeverOvertaken(w, c);
    hide Valid, Overtakes;
    NothingOvertakenKeepsOrder(w, c, provider, watch, env, xs);
  }

  // ---------------------------------------------------------------------------------------
  // An overtaken step runs late
  // ---------------------------------------------------------------------------------------

  /** A walk that overtakes: committed to step `r`, nothing performed since. */
  ghost predicate OvertakesFrom(w: Workflow, s: Run, r: int, i: int, env: Env) {
    && Inv(w, s) && s.alive && s.pc.Walking? && s.pc.mode.Branch? && s.pc.at == i
    && s.entry.Some? && EntryCursor(s.entry.value) == Running(r) && s.pc.env == env
  }

  lemma FirstInput(w: Workflow, s: Run, x: Input, xs: seq<Input>)
    ensures Execute(w, s, [x] + xs) == Execute(w, Apply(w, s, x), xs)
  {
    hide Apply;
    assert ([x] + xs)[1..] == xs;
  }

  /** Such a walk skips on to step `j`, performing and storing nothing. */
  lemma {:induction false} OvertakeTo(w: Workflow, s: Run, r: int, i: int, env: Env, j: nat) returns (xs: seq<Input>)
    requires Sound(w) && OvertakesFrom(w, s, r, i, env)
    requires SkipsTo(w, |env.hold.attendees|, env.day, i, j)
    ensures OnlyActs(xs)
    ensures var t := Execute(w, s, xs);
            OvertakesFrom(w, t, r, j, env) && t.log == s.log
    decreases Past(w, i)
  {
    hide OvertakesFrom, Sound, Permits;
    if i == j {
      xs := [];
    } else {
      var t := SkipOnce(w, s, r, i, env);
      PastShrinks(w, i);
      hide SkipsTo, Past, Next;
      var ys := OvertakeTo(w, t, r, Next(w, i, ""), env, j);
      hide Apply;
      FirstInput(w, s, Act, ys);
      xs := [Act] + ys;
    }
  }

  lemma SkipOnce(w: Workflow, s: Run, r: int, i: nat, env: Env) returns (t: Run)
    requires Sound(w) && OvertakesFrom(w, s, r, i, env) && i < |w.steps| && !Waits(w.steps[i].verb)
    requires Acts(w.steps[i].verb) ==> !Permits(w, i, |env.hold.attendees|, env.day)
    ensures t == Apply(w, s, Act) && OvertakesFrom(w, t, r, Next(w, i, ""), env) && t.log == s.log
  {
    t := Apply(w, s, Act);
    Unvisited(w, s);
    NextKeeps(w, s, Act);
    if Acts(w.steps[i].verb) { assert !GuardAllows(w, s.pc.env, i); }
    hide Inv, Guards.Allows, Sound;
    WalkTurnWritesNothing(w, s);
  }

  /** There it performs step `j`. */
  lemma PerformsThere(w: Workflow, s: Run, i: nat, env: Env, j: nat) returns (t: Run)
    requires Sound(w) && OvertakesFrom(w, s, i, j, env) && !env.fails(j)
    requires MayAct(w, j, |env.hold.attendees|, env.day) && w.steps[j].verb != Cancel
    ensures t == WalkTurn(w, s) && t.log == s.log + [j] && t.alive && t.entry == s.entry
  {
    Unvisited(w, s);
    hide Guards.Allows, Inv, Sound;
    assert GuardAllows(w, s.pc.env, j);
    hide GuardAllows, Permits, Next;
    t := WalkTurn(w, s);
  }

  /** The next poll after a crash performs the step the run is stored at. */
  lemma PerformsStored(w: Workflow, s: Run, i: nat, h: Wish)
    requires s.alive && s.pc.Idle? && CursorOf(s) == Running(i) && i < |w.steps| && !h.fails
    requires s.entry.Some? && 0 <= s.entry.value.step < |w.steps|
    requires MayAct(w, i, |h.hold.attendees|, h.day)
    ensures var found := Poll(w, s, Granting(h));
            found.pc.Walking? && WalkTurn(w, found).log == s.log + [i]
  {
    hide Guards.Allows, BranchPlan, Next;
    var found := Poll(w, s, Granting(h));
    assert found.pc == Walking(Branch(s.entry.value, PollApproved), Granting(h), i, {});
    assert GuardAllows(w, found.pc.env, i);
  }

  /** There it performs step `j` and dies, and the next poll performs the overtaken step after it. */
  lemma ActsLate(w: Workflow, s: Run, i: nat, env: Env, j: nat, h: Wish) returns (xs: seq<Input>)
    requires Sound(w) && OvertakesFrom(w, s, i, j, env) && i > 0 && !env.fails(j) && !h.fails
    requires MayAct(w, j, |env.hold.attendees|, env.day) && w.steps[j].verb != Cancel
    requires MayAct(w, i, |h.hold.attendees|, h.day)
    ensures xs == [Act, Input.Crash, Begin(Granting(h)), Act]
    ensures Execute(w, s, xs).log == s.log + [j] + [i]
  {
    var acted := PerformsThere(w, s, i, env, j);
    hide Inv, Sound, WalkTurn, Permits;
    PerformsStored(w, acted.(pc := Idle), i, h);
    hide MayAct, Granting, Poll;
    xs := [Act, Input.Crash, Begin(Granting(h)), Act];
    FourInputs(w, s, Act, Input.Crash, Begin(Granting(h)), Act);
  }

  lemma LateIsOutOfOrder(w: Workflow, log: seq<nat>, i: nat, j: nat)
    requires Sound(w) && Precedes(w, i, j)
    ensures !Ascending(w, Destutter(log + [j] + [i]))
  {
    var d := Destutter(log + [j]);
    DestutterAppend(log + [j], i);
    assert i != j;
    var late := d + [i];
    assert late[|d| - 1] == j && late[|d|] == i;
    if Precedes(w, j, i) { PrecedesTransitive(w, i, j, i); }
  }

  /** An overtaken step comes before the step that overtakes it. */
  lemma OvertakenComesBefore(w: Workflow, span: Span, x: Place, n: nat, day: nat -> Guards.Weekday, j: int)
    requires Sound(w) && Overtaken(w, span, x, n, day, j)
    ensures j >= 0 && Precedes(w, x.step, j) && SkipsTo(w, n, day, x.step, j)
  {
    var i := x.step;
    PastShrinks(w, i);
    WalkMoveIsEdge(w, i);
    EdgePrecedes(w, i, Next(w, i, ""));
    SkipsForward(w, n, day, Next(w, i, ""), j);
    if Next(w, i, "") != j { PrecedesTransitive(w, i, Next(w, i, ""), j); }
  }

  /** Stored at a failed step, the run is polled by a walk that overtakes it, and once more. */
  lemma PolledLate(w: Workflow, s: Run, i: nat, env: Env, j: nat, again: Wish)
    returns (ys: seq<Input>, zs: seq<Input>)
    requires Sound(w) && Inv(w, s) && s.alive && s.pc.Idle? && s.entry.Some? && CursorOf(s) == Running(i)
    requires env.loads && env.fetch.Fetched? && !env.fails(j) && !again.fails && Precedes(w, i, j)
    requires MayAct(w, j, |env.hold.attendees|, env.day) && MayAct(w, i, |again.hold.attendees|, again.day)
    requires SkipsTo(w, |env.hold.attendees|, env.day, i, j) && w.steps[j].verb != Cancel
    ensures OnlyActs(ys) && zs == [Act, Input.Crash, Begin(Granting(again)), Act]
    ensures !InOrder(w, Execute(w, s, [Begin(env)] + (ys + zs)))
  {
    hide Permits, BranchPlan, Sound, MayAct, SkipsTo;
    PollKeeps(w, s, env);
    var start := Poll(w, s, env);
    assert OvertakesFrom(w, start, i, i, env) && start.log == s.log;
    hide Inv, Poll, OvertakesFrom;
    ys := OvertakeTo(w, start, i, i, env, j);
    zs := ActsLate(w, Execute(w, start, ys), i, env, j, again);
    LateIsOutOfOrder(w, s.log, i, j);
    hide Destutter, Ascending;
    ExecuteJoin(w, start, ys, zs);
    var xs := [Begin(env)] + (ys + zs);
    assert xs[1..] == ys + zs;
  }

  /** A run that stands at a step fails there, and then is polled like that. */
  lemma RunsLate(w: Workflow, c: Conditions, s: Run, x: Place, h: Wish, env: Env, again: Wish, j: nat)
    returns (xs: seq<Input>)
    requires Sound(w) && Stands(w, c, s, x, h) && h.step == x.step && h.fails && 0 <= x.step < |w.steps|
    requires Overtaken(w, c.span, x, |env.hold.attendees|, env.day, j)
    requires env.loads && env.fetch.Fetched? && !env.fails(j)
    requires OnTime(w, c.span, env.day, env.now, env.later) && h.later <= env.now
    requires |again.hold.attendees| == x.count && again.day == x.day && !again.fails
    requires Timely(w, c, again) && env.later <= again.now
    ensures Clocked(w, c.span, h.later, xs) && !InOrder(w, Execute(w, s, xs))
  {
    var i := x.step;
    OvertakenComesBefore(w, c.span, x, |env.hold.attendees|, env.day, j);
    StoreFailed(w, c, s, x, h);
    hide Stands, SkipsTo, Permits, OnTime, Sound, Spans, Inv, InOrder, Clocked, Timely, CursorOf, Execute, Precedes;
    var ys, zs := PolledLate(w, Execute(w, s, [Act, Act]), i, env, j, again);
    hide *;
    AfterFailure(w, s, env, ys + zs);
    xs := [Act, Act] + [Begin(env)] + (ys + zs);
    LateIsClocked(w, c, h.later, env, ys, again);
  }

  lemma AfterFailure(w: Workflow, s: Run, env: Env, xs: seq<Input>)
    ensures Execute(w, s, [Act, Act] + [Begin(env)] + xs) == Execute(w, Execute(w, s, [Act, Act]), [Begin(env)] + xs)
  {
    hide Apply;
    assert [Act, Act] + [Begin(env)] + xs == [Act, Act] + ([Begin(env)] + xs);
    ExecuteJoin(w, s, [Act, Act], [Begin(env)] + xs);
  }

  lemma LateIsClocked(w: Workflow, c: Conditions, t: int, env: Env, ys: seq<Input>, again: Wish)
    requires OnTime(w, c.span, env.day, env.now, env.later) && t <= env.now && OnlyActs(ys)
    requires Timely(w, c, again) && env.later <= again.now
    ensures var zs := [Act, Input.Crash, Begin(Granting(again)), Act];
            Clocked(w, c.span, t, [Act, Act] + [Begin(env)] + (ys + zs))
  {
    hide OnTime;
    var zs := [Act, Input.Crash, Begin(Granting(again)), Act];
    var d, e, f := [Input.Crash, Begin(Granting(again)), Act], [Begin(Granting(again)), Act], [Act];
    assert zs[1..] == d && d[1..] == e && e[1..] == f && f[1..] == [];
    assert Clocked(w, c.span, again.later, f) && Clocked(w, c.span, env.later, e);
    assert Clocked(w, c.span, env.later, d) && Clocked(w, c.span, env.later, zs);
    ActsTakeNoTime(w, c.span, env.later, ys);
    ClockedJoin(w, c.span, env.later, ys, zs);
    assert [Begin(env)][1..] == [];
    ActsTakeNoTime(w, c.span, t, [Act, Act]);
    ClockedJoin(w, c.span, t, [Act, Act], [Begin(env)]);
    ClockedJoin(w, c.span, t, [Act, Act] + [Begin(env)], ys + zs);
  }

  /** Times at which the three walks can take place one after the other. */
  lemma OvertakenInTime(w: Workflow, c: Conditions, x: Place, n: nat, day: nat -> Guards.Weekday)
    returns (h: Wish, poll: Env, again: Wish)
    requires Sound(w) && Spans(w, c.span, x.day) && Spans(w, c.span, day)
    ensures h.hold == SomeHold(x.count) && h.day == x.day && h.step == x.step && h.fails && Timely(w, c, h)
    ensures poll.loads && poll.fetch.Fetched? && |poll.hold.attendees| == n && poll.day == day
    ensures OnTime(w, c.span, poll.day, poll.now, poll.later) && h.later <= poll.now && forall j :: !poll.fails(j)
    ensures |again.hold.attendees| == x.count && again.day == x.day && !again.fails && Timely(w, c, again)
    ensures poll.later <= again.now
  {
    hide Spans, OnTime;
    var now, later := PickTime(w, c.span, x.day, 0);
    again := Wish(SomeHold(x.count), x.day, now, later, -1, false, true);
    now, later := PickTime(w, c.span, day, now);
    poll := Granting(Wish(SomeHold(n), day, now, later, -1, false, true));
    now, later := PickTime(w, c.span, x.day, now);
    h := Wish(SomeHold(x.count), x.day, now, later, x.step, true, true);
  }

  /** Where a step can be overtaken, some run whose polls read one clock performs a later step before it. */
  lemma OvertakenRunsLate(w: Workflow, c: Conditions) returns (env: Env, xs: seq<Input>)
    requires Valid(w) && Sound(w) && Overtakes(w, c)
    ensures Real(w, c.span, env, xs) && !InOrder(w, Execute(w, CreatedIn(w, c.manager, env), xs))
  {
    var x, n, day, j :| Reachable(w, c, x) && Overtaken(w, c.span, x, n, day, j);
    OvertakenComesBefore(w, c.span, x, n, day, j);
    ReachableSpans(w, c, x);
    var h, poll, again := OvertakenInTime(w, c, x, n, day);
    assert x.polled && 0 <= x.step < |w.steps|;
    hide Valid, Stands, Execute, NewHold, Reachable, Overtakes, Overtaken, OnTime, Clocked, Spans, InOrder, SkipsTo;
    NotBehindItself(w, x.step);
    env, xs := ReachPlace(w, c, x, h);
    var s0 := CreatedIn(w, c.manager, env);
    var ys := RunsLate(w, c, Execute(w, s0, xs), x, h, poll, again, j);
    RealGoesOn(w, c.span, s0, env, xs, ys);
    xs := xs + ys;
  }

  lemma NotBehindItself(w: Workflow, i: int)
    requires Sound(w)
    ensures NotBehind(w, i, i)
  {}

  /** Main result, for guards that answer as they like. All runs of an accepted workflow keep their effects
      in order, with no repetition but right after itself, if and only if nothing can be overtaken: no acting
      step that its guard may let act in one walk can be denied and skipped in another on the way to another
      acting step that does not cancel the hold, with no checkpoint between them. Runs and routes are those
      whose walks last over no more midnights than the span, whatever it is. */
  lemma EffectOrderExactly(w: Workflow, manager: string, span: Span)
    requires Valid(w)
    ensures Sound(w)
    ensures (forall env, xs :: Real(w, span, env, xs) ==> InOrder(w, Execute(w, CreatedIn(w, manager, env), xs)))
            <==> !Overtakes(w, Conditions(manager, span, -1))
  {
    ValidIsSound(w);
    var c := Conditions(manager, span, -1);
    if Overtakes(w, c) {
      var env, xs := OvertakenRunsLate(w, c);
    } else {
      forall env, xs | Real(w, span, env, xs)
        ensures InOrder(w, Execute(w, CreatedIn(w, manager, env), xs))
      {
        OnTimeSpans(w, span, env.day, env.now, env.later);
        ClockedSpans(w, span, env.later, xs);
        NothingOvertakenKeepsOrder(w, c, "", true, env, xs);
      }
    }
  }
}
