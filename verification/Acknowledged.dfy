/** What survives when guards change their minds between polls: the plain log may then be no crash-free log, but
    the acknowledged effects always are one, and a crash adds only the effect in flight (cmd/daemon.go,
    cmd/run.go). */
module Acknowledged {
  import opened Workflows
  import opened Protocol
  import opened Forward
  import opened Refinement

  /** `allow` agrees with what was decided before step `i`: what was acknowledged acts, and nothing else
      behind `i` does. */
  ghost predicate Fits(w: Workflow, acked: seq<nat>, i: int, allow: nat -> bool) {
    && (forall a :: a in acked ==> allow(a))
    && (forall e: nat :: allow(e) && (i < 0 || Precedes(w, e, i)) ==> e in acked)
  }

  /** However the guards from step `i` on will answer, what is acknowledged and what lies ahead make up the
      effects of the machine that never crashes. */
  ghost predicate Leaves(w: Workflow, s: Run, i: int)
    requires Sound(w)
  {
    forall allow: nat -> bool, fut: seq<int> :: Fits(w, s.acked, i, allow) ==>
      Whole(w, allow, s, fut) == s.acked + Ideal(w, allow, i, fut)
  }

  ghost predicate StandsAt(w: Workflow, s: Run, i: int)
    requires Sound(w)
  {
    Leaves(w, s, i) && (i >= 0 ==> AllBefore(w, s.acked, i))
  }

  lemma SameHistoryStandsAt(w: Workflow, s: Run, t: Run, i: int)
    requires Sound(w) && StandsAt(w, s, i) && t.acked == s.acked && t.commits == s.commits
    ensures StandsAt(w, t, i)
  {
    forall allow: nat -> bool, fut: seq<int> | Fits(w, t.acked, i, allow)
      ensures Whole(w, allow, t, fut) == t.acked + Ideal(w, allow, i, fut)
    {
      assert Fits(w, s.acked, i, allow);
      assert Whole(w, allow, t, fut) == Whole(w, allow, s, fut);
    }
  }

  /** Passing a step without acknowledging it decides that it does not act. */
  lemma SkipStandsAt(w: Workflow, s: Run, i: nat)
    requires Sound(w) && StandsAt(w, s, i) && i < |w.steps| && !Waits(w.steps[i].verb)
    ensures StandsAt(w, s, Next(w, i, ""))
  {
    var j := Next(w, i, "");
    if j >= 0 {
      WalkMoveIsEdge(w, i);
      EdgePrecedes(w, i, j);
      AllBeforeLater(w, s.acked, i, j);
    }
    assert i !in s.acked;
    forall allow: nat -> bool, fut: seq<int> | Fits(w, s.acked, j, allow)
      ensures Whole(w, allow, s, fut) == s.acked + Ideal(w, allow, j, fut)
    {
      assert !allow(i);
      FitsEarlier(w, s.acked, i, j, allow);
      assert Ideal(w, allow, i, fut) == Ideal(w, allow, j, fut);
    }
  }

  lemma FitsEarlier(w: Workflow, acked: seq<nat>, i: int, j: int, allow: nat -> bool)
    requires Fits(w, acked, j, allow) && i >= 0 && (j >= 0 ==> Precedes(w, i, j))
    ensures Fits(w, acked, i, allow)
  {
    forall e: nat | allow(e) && Precedes(w, e, i)
      ensures e in acked
    {
      if j >= 0 { PrecedesTransitive(w, e, i, j); }
    }
  }

  lemma IdealActs(w: Workflow, allow: nat -> bool, i: nat, fut: seq<int>)
    requires Sound(w) && i < |w.steps| && Acts(w.steps[i].verb) && allow(i)
    ensures Ideal(w, allow, i, fut) ==
            [i] + Ideal(w, allow, if w.steps[i].verb == Cancel then -1 else Next(w, i, ""), fut)
  {}

  lemma AcknowledgeStandsAt(w: Workflow, s: Run, t: Run, i: nat)
    requires Sound(w) && StandsAt(w, s, i) && i < |w.steps| && Acts(w.steps[i].verb)
    requires t.commits == s.commits && t.acked == s.acked + [i]
    ensures StandsAt(w, t, if w.steps[i].verb == Cancel then -1 else Next(w, i, ""))
  {
    hide Ideal, Next;
    var j := if w.steps[i].verb == Cancel then -1 else Next(w, i, "");
    if j >= 0 {
      WalkMoveIsEdge(w, i);
      EdgePrecedes(w, i, j);
      AllBeforeAppend(w, s.acked, i, i, j);
    }
    forall allow: nat -> bool, fut: seq<int> | Fits(w, t.acked, j, allow)
      ensures Whole(w, allow, t, fut) == t.acked + Ideal(w, allow, j, fut)
    {
      FitsEarlier(w, t.acked, i, j, allow);
      assert i in t.acked && allow(i);
      assert Whole(w, allow, t, fut) == Whole(w, allow, s, fut) == s.acked + Ideal(w, allow, i, fut);
      IdealActs(w, allow, i, fut);
    }
  }

  lemma CommitStandsAt(w: Workflow, s: Run, t: Run, g: nat, c: Commit)
    requires Sound(w) && StandsAt(w, s, g) && g < |w.steps| && Waits(w.steps[g].verb)
    requires c.from >= 0 ==> Edge(w, g, c.from)
    requires t.commits == s.commits + [c] && t.acked == s.acked
    ensures StandsAt(w, t, c.from)
  {
    if c.from >= 0 {
      EdgePrecedes(w, g, c.from);
      AllBeforeLater(w, s.acked, g, c.from);
    }
    forall allow: nat -> bool, fut: seq<int> | Fits(w, t.acked, c.from, allow)
      ensures Whole(w, allow, t, fut) == t.acked + Ideal(w, allow, c.from, fut)
    {
      FitsEarlier(w, t.acked, g, c.from, allow);
      var longer := [c.from] + fut;
      assert Outs(t.commits) + fut == Outs(s.commits) + longer;
      assert Whole(w, allow, s, longer) == s.acked + Ideal(w, allow, g, longer);
      assert longer[1..] == fut;
    }
  }

  // ---------------------------------------------------------------------------------------
  // Every step keeps it
  // ---------------------------------------------------------------------------------------

  ghost predicate PcStands(w: Workflow, s: Run)
    requires Sound(w)
  {
    match s.pc
    case Walking(_, _, at, _) => StandsAt(w, s, at)
    case Performed(_, _, i, _) => StandsAt(w, s, i) && i < |w.steps| && Acts(w.steps[i].verb)
    case Arrived(_, _, gate) => StandsAt(w, s, gate) && gate < |w.steps| && Waits(w.steps[gate].verb)
    case Finishing(result, item) =>
      && (Keeps(result) ==> StandsAt(w, s, Front(EntryCursor(item))))
      && (RanToItsEnd(result) ==> StandsAt(w, s, -1))
    case Forgotten(_) => s.completed
    case _ => true
  }

  ghost predicate Accounted(w: Workflow, s: Run)
    requires Sound(w)
  {
    && (exists p :: StandsAt(w, s, p))
    && (s.entry.Some? ==> StandsAt(w, s, Front(EntryCursor(s.entry.value))))
    && (s.completed ==> StandsAt(w, s, -1))
    && CompletedRests(s)
    && PcStands(w, s)
  }

  /** A step that changes neither the history nor, but for dropping it, the file. */
  lemma FrameKeeps(w: Workflow, s: Run, t: Run)
    requires Sound(w) && Accounted(w, s)
    requires t.acked == s.acked && t.commits == s.commits
    requires t.entry == s.entry || t.entry.None?
    requires t.completed ==> s.completed || StandsAt(w, s, -1)
    requires CompletedRests(t) && PcStands(w, t)
    ensures Accounted(w, t)
  {
    hide Leaves, AllBefore, PcStands, StandsAt;
    var p :| StandsAt(w, s, p);
    SameHistoryStandsAt(w, s, t, p);
    if t.entry.Some? { SameHistoryStandsAt(w, s, t, Front(EntryCursor(t.entry.value))); }
    if t.completed { SameHistoryStandsAt(w, s, t, -1); }
  }

  lemma WalkKeeps(w: Workflow, s: Run)
    requires Sound(w) && Inv(w, s) && Accounted(w, s) && s.pc.Walking?
    ensures Accounted(w, WalkTurn(w, s))
  {
    var i, t := s.pc.at, WalkTurn(w, s);
    WalkTurnWritesNothing(w, s);
    WalkShape(w, s);
    hide StandsAt, Inv, Sound;
    if RanOff(w, s) {
      SameHistoryStandsAt(w, s, t, -1);
    } else {
      if t.pc.Walking? { SkipStandsAt(w, s, i); }
      SameHistoryStandsAt(w, s, t, if t.pc.Walking? then t.pc.at else i);
    }
    FrameKeeps(w, s, t);
  }

  /** Where a turn leaves a walk that met no step twice. */
  lemma WalkShape(w: Workflow, s: Run)
    requires Sound(w) && Inv(w, s) && s.pc.Walking? && CompletedRests(s)
    ensures var t, i := WalkTurn(w, s), s.pc.at;
            && (t.completed ==> RanOff(w, s)) && CompletedRests(t)
            && match t.pc
               case Idle => true
               case Walking(_, _, j, _) =>
                 !RanOff(w, s) && !Waits(w.steps[i].verb) && j == Next(w, i, "")
               case Performed(_, _, j, _) => !RanOff(w, s) && j == i && Acts(w.steps[i].verb)
               case Arrived(_, _, g) => !RanOff(w, s) && g == i && Waits(w.steps[i].verb)
               case Finishing(result, item) =>
                 if RanOff(w, s) then !Keeps(result)
                 else result == PollFailed && Front(EntryCursor(item)) == i
               case _ => false
  {
    CompletedMeansOver(w, s);
    var t := WalkTurn(w, s);
    WalkTurnLeads(w, s);
    if !RanOff(w, s) {
      assert s.pc.at !in s.pc.visited;
      if t.pc.Finishing? { FailureStaysAhead(w, s); }
    }
  }

  lemma EffectStaysAccounted(w: Workflow, s: Run)
    requires Sound(w) && Inv(w, s) && Accounted(w, s) && s.pc.Performed?
    ensures Accounted(w, AfterEffect(w, s))
  {
    var t, i := AfterEffect(w, s), s.pc.step;
    AcknowledgeStandsAt(w, s, t, i);
    if w.steps[i].verb != Cancel && s.pc.mode.Branch? {
      var j := Next(w, i, "");
      if j >= 0 { WalkMoveIsEdge(w, i); }
      CheckpointFront(w, s.pc.mode.item, i, j);
    }
    hide StandsAt, Inv, Sound;
  }

  lemma CommitStaysAccounted(w: Workflow, s: Run)
    requires Sound(w) && Inv(w, s) && Accounted(w, s) && s.pc.Committing?
    ensures Accounted(w, Tick(w, s))
  {
    var t := Tick(w, s);
    var Committing(item, env, commit) := s.pc;
    CommitStandsAt(w, s, t, item.step, commit);
    CheckpointFront(w, item, item.step, commit.from);
    hide StandsAt, Inv, Sound;
  }

  lemma PollStaysAccounted(w: Workflow, s: Run, env: Env)
    requires Sound(w) && Accounted(w, s)
    ensures Accounted(w, Poll(w, s, env))
  {
    hide StandsAt, Sound, BranchPlan;
    var t := Poll(w, s, env);
    PollWritesNothing(w, s, env);
    if s.entry.Some? { SameHistoryStandsAt(w, s, t, Front(EntryCursor(s.entry.value))); }
    if !s.pc.Idle? { assert t == s; }
    FrameKeeps(w, s, t);
  }

  lemma RestStaysAccounted(w: Workflow, s: Run)
    requires Sound(w) && Inv(w, s) && Accounted(w, s)
    requires s.pc.Arrived? || s.pc.Finishing? || s.pc.Forgotten?
    ensures Accounted(w, Tick(w, s))
  {
    hide StandsAt, Sound, HistoryOk;
    if s.pc.Arrived? {
      ArrivalStaysAccounted(w, s);
    } else {
      var t := Tick(w, s);
      var p :| StandsAt(w, s, p);
      SameHistoryStandsAt(w, s, t, p);
      match s.pc
      case Finishing(result, item) =>
        if s.completed || RanToItsEnd(result) { SameHistoryStandsAt(w, s, t, -1); }
        if Keeps(result) { SameHistoryStandsAt(w, s, t, Front(EntryCursor(item))); }
      case _ => SameHistoryStandsAt(w, s, t, -1);
    }
  }

  lemma ArrivalStaysAccounted(w: Workflow, s: Run)
    requires Sound(w) && PcOk(w, s) && Accounted(w, s) && s.pc.Arrived?
    ensures Accounted(w, AtArrival(w, s))
  {
    hide StandsAt, Sound, NamesApprover;
    var t := AtArrival(w, s);
    var p :| StandsAt(w, s, p);
    SameHistoryStandsAt(w, s, t, p);
    SameHistoryStandsAt(w, s, t, s.pc.gate);
    if t.entry.Some? && s.pc.mode.Branch? { SameHistoryStandsAt(w, s, t, Front(EntryCursor(t.entry.value))); }
  }

  lemma TickStaysAccounted(w: Workflow, s: Run)
    requires Sound(w) && Inv(w, s) && Accounted(w, s)
    ensures Accounted(w, Tick(w, s))
  {
    hide Accounted, Inv, Sound;
    match s.pc
    case Idle =>
    case Walking(_, _, _, _) => WalkKeeps(w, s);
    case Performed(_, _, _, _) => EffectStaysAccounted(w, s);
    case Committing(_, _, _) => CommitStaysAccounted(w, s);
    case _ => RestStaysAccounted(w, s);
  }

  lemma ApplyStaysAccounted(w: Workflow, s: Run, x: Input)
    requires Sound(w) && Inv(w, s) && Accounted(w, s)
    ensures Accounted(w, Apply(w, s, x))
  {
    match x
    case Begin(env) => PollStaysAccounted(w, s, env);
    case Act => TickStaysAccounted(w, s);
    case Crash => FrameKeeps(w, s, Apply(w, s, x));
    case Unavailable(_) => if s.pc.Idle? { FrameKeeps(w, s, Apply(w, s, x)); }
  }

  // ---------------------------------------------------------------------------------------
  // What a crash adds
  // ---------------------------------------------------------------------------------------

  /** `a` is `b` with some elements left out. */
  ghost predicate Within(a: seq<nat>, b: seq<nat>) {
    a == []
    || (b != [] && (Within(a, b[..|b| - 1])
                    || (a[|a| - 1] == b[|b| - 1] && Within(a[..|a| - 1], b[..|b| - 1]))))
  }

  lemma WithinGrows(a: seq<nat>, b: seq<nat>, i: nat)
    requires Within(a, b)
    ensures Within(a, b + [i]) && Within(a + [i], b + [i])
  {
    assert (b + [i])[..|b|] == b && (a + [i])[..|a|] == a;
  }

  /** The acknowledged effects and, while its checkpoint is due, the one in flight. */
  function Settled(s: Run): seq<nat> {
    if s.pc.Performed? then s.acked + [s.pc.step] else s.acked
  }

  lemma ApplyAdds(w: Workflow, s: Run, x: Input)
    requires Within(Settled(s), s.log)
    ensures var t := Apply(w, s, x);
            && Within(Settled(t), t.log)
            && |t.log| + |Settled(s)| <= |s.log| + |Settled(t)| + if x.Crash? then 1 else 0
  {
    var t := Apply(w, s, x);
    if Performs(w, s, x) {
      PerformedShape(w, s);
      WithinGrows(s.acked, s.log, s.pc.at);
    } else if x.Act? && s.pc.Performed? {
      AcknowledgedSettles(w, s);
    } else {
      OtherwiseHistoryStays(w, s, x);
      UnlessCrashedStillPerformed(w, s, x);
      hide Apply;
      if s.pc.Performed? && x.Crash? { WithinShrinks(s.acked, s.pc.step, s.log); }
    }
  }

  lemma AcknowledgedSettles(w: Workflow, s: Run)
    requires s.pc.Performed?
    ensures AfterEffect(w, s).log == s.log && Settled(AfterEffect(w, s)) == Settled(s)
  {}

  lemma UnlessCrashedStillPerformed(w: Workflow, s: Run, x: Input)
    requires !Performs(w, s, x) && !(x.Act? && s.pc.Performed?)
    ensures var t := Apply(w, s, x);
            if x.Crash? then t.pc.Idle? else t.pc.Performed? == s.pc.Performed? && (s.pc.Performed? ==> t.pc == s.pc)
  {}

  lemma {:induction false} WithinShrinks(a: seq<nat>, i: nat, b: seq<nat>)
    requires Within(a + [i], b)
    ensures Within(a, b)
  {
    var front := b[..|b| - 1];
    if Within(a + [i], front) {
      WithinShrinks(a, i, front);
    } else {
      assert (a + [i])[..|a|] == a;
    }
    assert front + [b[|b| - 1]] == b;
    WithinGrows(a, front, b[|b| - 1]);
  }

  // ---------------------------------------------------------------------------------------
  // Whole runs
  // ---------------------------------------------------------------------------------------

  lemma {:induction false} ExecuteStaysAccounted(w: Workflow, s: Run, xs: seq<Input>)
    requires Sound(w) && Inv(w, s) && Accounted(w, s) && Within(Settled(s), s.log)
    ensures var t := Execute(w, s, xs);
            && Accounted(w, t) && Within(Settled(t), t.log)
            && |t.log| + |Settled(s)| <= |s.log| + |Settled(t)| + Crashes(xs)
    decreases |xs|
  {
    if xs != [] {
      ApplyStaysAccounted(w, s, xs[0]);
      ApplyAdds(w, s, xs[0]);
      NextKeeps(w, s, xs[0]);
      ExecuteStaysAccounted(w, Apply(w, s, xs[0]), xs[1..]);
    }
  }

  /** With nothing to come, all that lies ahead of step `i` is at or past it, and allowed. */
  lemma {:induction false} IdealIsAhead(w: Workflow, allow: nat -> bool, i: int, x: nat)
    requires Sound(w) && x in Ideal(w, allow, i, [])
    ensures allow(x) && AtOrBefore(w, i, x)
    decreases Past(w, i)
  {
    if x != i || !allow(i) {
      var j := Next(w, i, "");
      PastShrinks(w, i);
      WalkMoveIsEdge(w, i);
      EdgePrecedes(w, i, j);
      IdealIsAhead(w, allow, j, x);
      if j != x { PrecedesTransitive(w, i, j, x); }
    }
  }

  /** Where a run stands, its acknowledged effects are the crash-free ones so far. */
  lemma StandingIsCrashFree(w: Workflow, s: Run, p: int)
    requires Sound(w) && StandsAt(w, s, p)
    ensures s.acked == Ideal(w, (e: nat) => e in s.acked, Next(w, 0, ""), Outs(s.commits))
  {
    var allow := (e: nat) => e in s.acked;
    assert Fits(w, s.acked, p, allow);
    assert Outs(s.commits) + [] == Outs(s.commits);
    assert Whole(w, allow, s, []) == s.acked + Ideal(w, allow, p, []);
    if Ideal(w, allow, p, []) != [] {
      var x := Ideal(w, allow, p, [])[0];
      IdealIsAhead(w, allow, p, x);
      assert p >= 0;
      assert Precedes(w, x, p);
      if x != p { PrecedesTransitive(w, x, p, x); }
    }
  }

  /** Main result, for guards that answer as they like. At every moment of every run the acknowledged
      effects are exactly those of a machine that never crashes, meets the same outcomes and lets those
      steps act; the log holds them in this order, and beside them at most one lost effect a crash. */
  lemma AcknowledgedEffectsAreCrashFree(w: Workflow, provider: string, watch: bool, manager: string,
                                        env: Env, xs: seq<Input>)
    requires Valid(w)
    ensures Sound(w)
    ensures var s := Execute(w, Created(w, provider, watch, manager, env), xs);
            && s.acked == Ideal(w, (e: nat) => e in s.acked, Next(w, 0, ""), Outs(s.commits))
            && Within(Settled(s), s.log)
            && |s.log| <= |Settled(s)| + Crashes(xs)
  {
    ValidIsSound(w);
    var s0 := Created(w, provider, watch, manager, env);
    CreatedOk(w, provider, watch, manager, env);
    CreatedStands(w, provider, watch, manager, env);
    hide StandsAt, Valid, Inv, Created, Ideal;
    ExecuteStaysAccounted(w, s0, xs);
    var s := Execute(w, s0, xs);
    var p :| StandsAt(w, s, p);
    StandingIsCrashFree(w, s, p);
  }

  lemma CreatedStands(w: Workflow, provider: string, watch: bool, manager: string, env: Env)
    requires Sound(w)
    ensures var s := Created(w, provider, watch, manager, env);
            Accounted(w, s) && Within(Settled(s), s.log) && s.log == [] && Settled(s) == []
  {
    var s := Created(w, provider, watch, manager, env);
    forall allow: nat -> bool, fut: seq<int>
      ensures Whole(w, allow, s, fut) == s.acked + Ideal(w, allow, Next(w, 0, ""), fut)
    {
      assert Outs([]) + fut == fut;
    }
    assert StandsAt(w, s, Next(w, 0, ""));
  }
}
