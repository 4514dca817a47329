/** Crashes only stutter. With each step's guard answer fixed, a run's effects are those of a machine that never
    crashes and follows the committed branches, except that a step in flight at a crash may repeat right after
    itself (cmd/daemon.go). */
module Refinement {
  import opened Base
  import opened Workflows
  import opened Protocol
  import opened Forward

  // ---------------------------------------------------------------------------------------
  // The machine that never crashes
  // ---------------------------------------------------------------------------------------

  ghost function Past(w: Workflow, i: int): set<int> {
    set j: int | 0 <= j < |w.steps| && Precedes(w, i, j)
  }

  lemma PastShrinks(w: Workflow, i: nat)
    requires Sound(w) && i < |w.steps| && !Waits(w.steps[i].verb) && Next(w, i, "") >= 0
    ensures Past(w, Next(w, i, "")) < Past(w, i)
  {
    var j := Next(w, i, "");
    WalkMoveIsEdge(w, i);
    EdgePrecedes(w, i, j);
    forall k | k in Past(w, j)
      ensures k in Past(w, i)
    {
      PrecedesTransitive(w, i, j, k);
    }
    assert j in Past(w, i) && j !in Past(w, j);
  }

  /** The effects from step `i` on, where `outs` lists where each gate met on the way leads; the
      flow rests at the first gate that has no outcome yet. */
  ghost function Ideal(w: Workflow, allow: nat -> bool, i: int, outs: seq<int>): seq<nat>
    requires Sound(w)
    decreases |outs|, Past(w, i)
  {
    if i < 0 || i >= |w.steps| then []
    else if Waits(w.steps[i].verb) then
      if outs == [] then [] else Ideal(w, allow, outs[0], outs[1..])
    else if allow(i) && w.steps[i].verb == Cancel then [i]
    else
      var j := Next(w, i, "");
      var rest := if j < 0 then [] else (PastShrinks(w, i); Ideal(w, allow, j, outs));
      if allow(i) && Acts(w.steps[i].verb) then [i] + rest else rest
  }

  // ---------------------------------------------------------------------------------------
  // Removing stutters
  // ---------------------------------------------------------------------------------------

  /** The sequence without immediate repetitions. */
  function Destutter(s: seq<nat>): (d: seq<nat>)
    ensures s == [] <==> d == []
    ensures s != [] ==> d[|d| - 1] == s[|s| - 1]
    ensures |d| <= |s|
  {
    if |s| <= 1 then s
    else
      var d := Destutter(s[..|s| - 1]);
      if s[|s| - 1] == s[|s| - 2] then d else d + [s[|s| - 1]]
  }

  lemma DestutterAppend(s: seq<nat>, x: nat)
    ensures Destutter(s + [x]) ==
            if s != [] && s[|s| - 1] == x then Destutter(s) else Destutter(s) + [x]
  {
    assert (s + [x])[..|s|] == s;
  }

  // ---------------------------------------------------------------------------------------
  // The simulation
  // ---------------------------------------------------------------------------------------

  function Outs(commits: seq<Commit>): (os: seq<int>)
    ensures |os| == |commits|
    ensures forall k :: 0 <= k < |os| ==> os[k] == commits[k].from
  {
    seq(|commits|, k requires 0 <= k < |commits| => commits[k].from)
  }

  ghost function Whole(w: Workflow, allow: nat -> bool, s: Run, fut: seq<int>): seq<nat>
    requires Sound(w)
  {
    Ideal(w, allow, Next(w, 0, ""), Outs(s.commits) + fut)
  }

  /** Whatever the outcomes still to come, what is acknowledged and what lies ahead from step `i`
      make up the effects of the machine that never crashes. */
  ghost predicate Ahead(w: Workflow, allow: nat -> bool, s: Run, i: int)
    requires Sound(w)
  {
    forall fut :: Whole(w, allow, s, fut) == s.acked + Ideal(w, allow, i, fut)
  }

  /** The performed effects are a beginning of the ideal ones. */
  ghost predicate Begun(w: Workflow, allow: nat -> bool, s: Run)
    requires Sound(w)
  {
    forall fut :: Destutter(s.log) <= Whole(w, allow, s, fut)
  }

  /** If the next action consults the guard of a step, it answers as `allow` says. */
  predicate AnswerStays(w: Workflow, allow: nat -> bool, s: Run, x: Input) {
    x.Act? && s.pc.Walking? && 0 <= s.pc.at < |w.steps| ==> GuardAllows(w, s.pc.env, s.pc.at) == allow(s.pc.at)
  }

  /** Each step's guard answers alike whenever a walk stands at that step; steps no walk meets are free. */
  predicate AnswersStay(w: Workflow, allow: nat -> bool, s: Run, xs: seq<Input>)
    decreases |xs|
  {
    xs == [] || (AnswerStays(w, allow, s, xs[0]) && AnswersStay(w, allow, Apply(w, s, xs[0]), xs[1..]))
  }

  ghost predicate PcAhead(w: Workflow, allow: nat -> bool, s: Run)
    requires Sound(w)
  {
    match s.pc
    case Walking(_, _, at, _) => Ahead(w, allow, s, at)
    case Performed(_, _, i, _) =>
      && Ahead(w, allow, s, i)
      && i < |w.steps| && allow(i) && Acts(w.steps[i].verb)
      && Destutter(s.log) == s.acked + [i]
    case Arrived(_, _, gate) =>
      && Ahead(w, allow, s, gate)
      && gate < |w.steps| && Waits(w.steps[gate].verb)
    case Committing(_, _, _) => true
    case Finishing(result, item) =>
      && (Keeps(result) ==> Ahead(w, allow, s, Front(EntryCursor(item))))
      && (RanToItsEnd(result) ==> Ahead(w, allow, s, -1))
    case Forgotten(_) => s.completed
    case Idle => true
  }

  /** Everything performed is acknowledged, or everything but the last effect. */
  predicate AtMostOnePending(s: Run) {
    Destutter(s.log) == s.acked
    || (s.log != [] && Destutter(s.log) == s.acked + [s.log[|s.log| - 1]])
  }

  /** A completed run never acts again. */
  predicate CompletedRests(s: Run) {
    s.completed ==> (s.pc.Idle? || s.pc.Forgotten? || s.pc.Finishing?)
                    && (s.entry.Some? ==> s.entry.value.done)
                    && (s.pc.Finishing? && Keeps(s.pc.result) ==> s.pc.item.done)
  }

  ghost predicate Sim(w: Workflow, allow: nat -> bool, s: Run)
    requires Sound(w)
  {
    && Begun(w, allow, s)
    && Distinct(Destutter(s.log))
    && AtMostOnePending(s)
    && (s.entry.Some? ==> Ahead(w, allow, s, Front(EntryCursor(s.entry.value))))
    && (s.completed ==> Ahead(w, allow, s, -1))
    && CompletedRests(s)
    && PcAhead(w, allow, s)
  }

  lemma AheadDependsOnHistory(w: Workflow, allow: nat -> bool, s: Run, t: Run, i: int)
    requires Sound(w) && Ahead(w, allow, s, i)
    requires t.acked == s.acked && t.commits == s.commits
    ensures Ahead(w, allow, t, i)
  {
    forall fut
      ensures Whole(w, allow, t, fut) == t.acked + Ideal(w, allow, i, fut)
    {
      assert Whole(w, allow, t, fut) == Whole(w, allow, s, fut);
    }
  }

  lemma BegunDependsOnHistory(w: Workflow, allow: nat -> bool, s: Run, t: Run)
    requires Sound(w) && Begun(w, allow, s)
    requires t.log == s.log && t.commits == s.commits
    ensures Begun(w, allow, t)
  {
    forall fut
      ensures Destutter(t.log) <= Whole(w, allow, t, fut)
    {
      assert Whole(w, allow, t, fut) == Whole(w, allow, s, fut);
    }
  }

  /** A step that changes neither the history nor the file keeps what is known of them. */
  lemma SimFrame(w: Workflow, allow: nat -> bool, s: Run, t: Run)
    requires Sound(w) && Sim(w, allow, s)
    requires t.log == s.log && t.acked == s.acked && t.commits == s.commits
    requires t.entry == s.entry || t.entry.None?
    requires t.completed ==> Ahead(w, allow, s, -1)
    requires CompletedRests(t) && PcAhead(w, allow, t)
    ensures Sim(w, allow, t)
  {
    BegunDependsOnHistory(w, allow, s, t);
    if t.entry.Some? { AheadDependsOnHistory(w, allow, s, t, Front(EntryCursor(t.entry.value))); }
    if t.completed { AheadDependsOnHistory(w, allow, s, t, -1); }
  }

  /** With nothing left ahead, nothing is performed but not acknowledged. */
  lemma NothingPending(w: Workflow, allow: nat -> bool, s: Run, i: int)
    requires Sound(w) && Sim(w, allow, s) && Ahead(w, allow, s, i)
    requires Ideal(w, allow, i, []) == []
    ensures Destutter(s.log) == s.acked
  {
    assert Whole(w, allow, s, []) == s.acked + [];
    assert Destutter(s.log) <= Whole(w, allow, s, []);
    assert |Destutter(s.log)| <= |s.acked|;
  }

  lemma AheadSkips(w: Workflow, allow: nat -> bool, s: Run, i: nat)
    requires Sound(w) && Ahead(w, allow, s, i)
    requires i < |w.steps| && !Waits(w.steps[i].verb) && !(allow(i) && Acts(w.steps[i].verb))
    ensures Ahead(w, allow, s, Next(w, i, ""))
  {
    var j := Next(w, i, "");
    forall fut
      ensures Whole(w, allow, s, fut) == s.acked + Ideal(w, allow, j, fut)
    {
      assert Ideal(w, allow, i, fut) == Ideal(w, allow, j, fut);
    }
  }

  lemma AheadAcknowledges(w: Workflow, allow: nat -> bool, s: Run, t: Run, i: nat)
    requires Sound(w) && Ahead(w, allow, s, i)
    requires i < |w.steps| && allow(i) && Acts(w.steps[i].verb)
    requires t.commits == s.commits && t.acked == s.acked + [i]
    ensures Ahead(w, allow, t, if w.steps[i].verb == Cancel then -1 else Next(w, i, ""))
  {
    hide Next, Past, Sound;
    var j := if w.steps[i].verb == Cancel then -1 else Next(w, i, "");
    forall fut
      ensures Whole(w, allow, t, fut) == t.acked + Ideal(w, allow, j, fut)
    {
      assert Whole(w, allow, t, fut) == Whole(w, allow, s, fut) == s.acked + Ideal(w, allow, i, fut);
      assert Ideal(w, allow, i, fut) == [i] + Ideal(w, allow, j, fut);
    }
  }

  lemma AheadCommits(w: Workflow, allow: nat -> bool, s: Run, t: Run, g: nat, c: Commit)
    requires Sound(w) && Ahead(w, allow, s, g) && Begun(w, allow, s)
    requires g < |w.steps| && Waits(w.steps[g].verb)
    requires t.commits == s.commits + [c] && t.acked == s.acked && t.log == s.log
    ensures Ahead(w, allow, t, c.from) && Begun(w, allow, t)
  {
    forall fut
      ensures Whole(w, allow, t, fut) == t.acked + Ideal(w, allow, c.from, fut)
      ensures Destutter(t.log) <= Whole(w, allow, t, fut)
    {
      var longer := [c.from] + fut;
      assert Outs(t.commits) + fut == Outs(s.commits) + longer;
      assert Whole(w, allow, s, longer) == s.acked + Ideal(w, allow, g, longer);
      assert longer[1..] == fut;
    }
  }

  lemma EffectIsWhole(w: Workflow, allow: nat -> bool, s: Run, i: nat)
    requires Sound(w) && Ahead(w, allow, s, i)
    requires i < |w.steps| && allow(i) && Acts(w.steps[i].verb)
    ensures forall fut :: s.acked + [i] <= Whole(w, allow, s, fut)
  {
    forall fut
      ensures s.acked + [i] <= Whole(w, allow, s, fut)
    {
      assert Whole(w, allow, s, fut) == s.acked + Ideal(w, allow, i, fut);
      assert Ideal(w, allow, i, fut)[0] == i;
    }
  }

  /** Performing the effect at the walk's position: either it is new, or it repeats the one that was
      in flight. */
  lemma EffectSimulates(w: Workflow, allow: nat -> bool, s: Run, i: nat)
    requires Sound(w) && Sim(w, allow, s) && Ahead(w, allow, s, i)
    requires i < |w.steps| && allow(i) && Acts(w.steps[i].verb)
    requires i !in s.acked
    ensures Destutter(s.log + [i]) == s.acked + [i]
    ensures Destutter(s.log) != s.acked ==> Destutter(s.log) == s.acked + [i]
    ensures Distinct(s.acked + [i])
    ensures forall fut :: s.acked + [i] <= Whole(w, allow, s, fut)
  {
    DestutterAppend(s.log, i);
    EffectIsWhole(w, allow, s, i);
    hide PcAhead, CompletedRests, Ahead, Ideal, Whole, Sound, Destutter, Distinct;
    if Destutter(s.log) == s.acked {
      LastIsKept(s.log, i, s.acked);
      DistinctGrows(s.acked, i);
    } else {
      InFlightIsNext(s.acked, s.log[|s.log| - 1], i, Whole(w, allow, s, []));
    }
  }

  /** When all is acknowledged, a step that is not cannot be the last performed. */
  lemma LastIsKept(log: seq<nat>, i: nat, acked: seq<nat>)
    requires Destutter(log) == acked && i !in acked
    ensures log != [] ==> log[|log| - 1] != i
  {
    if log != [] { assert log[|log| - 1] in acked; }
  }

  lemma DistinctGrows(s: seq<nat>, i: nat)
    requires Distinct(s) && i !in s
    ensures Distinct(s + [i])
  {}

  lemma InFlightIsNext(acked: seq<nat>, p: nat, i: nat, whole: seq<nat>)
    requires acked + [p] <= whole && acked + [i] <= whole
    ensures p == i
  {
    assert whole[|acked|] == p;
    assert whole[|acked|] == i;
  }

  /** An effect is never one already acknowledged. */
  lemma EffectIsNew(w: Workflow, s: Run)
    requires Sound(w) && Inv(w, s) && s.pc.Walking? && s.pc.at >= 0
    requires s.pc.mode.Branch? ==> !s.entry.value.done
    ensures s.pc.at !in s.acked
  {
    if s.pc.mode.Branch? {
      AllBeforeLater(w, s.acked, s.entry.value.resume, s.pc.at);
    }
    if s.pc.at in s.acked { assert false; }
  }

  /** A walk that is off the graph, or at a gate, has nothing ahead of it to perform. */
  lemma AheadOffGraph(w: Workflow, allow: nat -> bool, s: Run, i: int)
    requires Sound(w) && Ahead(w, allow, s, i) && (i < 0 || i >= |w.steps|)
    ensures Ahead(w, allow, s, -1)
  {
    forall fut
      ensures Whole(w, allow, s, fut) == s.acked + Ideal(w, allow, -1, fut)
    {
      assert Ideal(w, allow, i, fut) == [];
    }
  }

  /** The state after a new effect, or a repeated one, keeps the simulation. */
  lemma EffectFrame(w: Workflow, allow: nat -> bool, s: Run, t: Run, i: nat)
    requires Sound(w) && Sim(w, allow, s) && Ahead(w, allow, s, i)
    requires t.log == s.log + [i] && t.acked == s.acked && t.commits == s.commits && t.entry == s.entry
    requires Destutter(t.log) == s.acked + [i] && Distinct(s.acked + [i])
    requires forall fut :: s.acked + [i] <= Whole(w, allow, s, fut)
    requires !t.completed && PcAhead(w, allow, t)
    ensures Sim(w, allow, t)
  {
    forall fut
      ensures Destutter(t.log) <= Whole(w, allow, t, fut)
    {
      assert s.acked + [i] <= Whole(w, allow, s, fut);
      assert Whole(w, allow, t, fut) == Whole(w, allow, s, fut);
    }
    if t.entry.Some? { AheadDependsOnHistory(w, allow, s, t, Front(EntryCursor(t.entry.value))); }
  }

  lemma PerformedShape(w: Workflow, s: Run)
    requires s.pc.Walking? && WalkTurn(w, s).pc.Performed?
    ensures var t, i := WalkTurn(w, s), s.pc.at;
            && 0 <= i < |w.steps| && Acts(w.steps[i].verb) && GuardAllows(w, s.pc.env, i)
            && t.log == s.log + [i] && t.acked == s.acked && t.commits == s.commits
            && t.entry == s.entry && t.completed == s.completed
            && t.pc.step == i && t.pc.env == s.pc.env
  {}

  lemma WalkPerforms(w: Workflow, allow: nat -> bool, s: Run)
    requires Sound(w) && Sim(w, allow, s) && s.pc.Walking?
    requires AnswerStays(w, allow, s, Act)
    requires s.pc.at >= 0 ==> s.pc.at !in s.acked
    requires WalkTurn(w, s).pc.Performed?
    ensures Sim(w, allow, WalkTurn(w, s))
  {
    PerformedShape(w, s);
    var i: nat := s.pc.at;
    EffectSimulates(w, allow, s, i);
    AheadDependsOnHistory(w, allow, s, WalkTurn(w, s), i);
    EffectFrame(w, allow, s, WalkTurn(w, s), i);
  }

  lemma WalkMoves(w: Workflow, allow: nat -> bool, s: Run)
    requires Sound(w) && Inv(w, s) && Sim(w, allow, s) && s.pc.Walking?
    requires AnswerStays(w, allow, s, Act)
    requires !WalkTurn(w, s).pc.Performed?
    ensures PcAhead(w, allow, WalkTurn(w, s))
    ensures RanOff(w, s) ==> Ahead(w, allow, s, -1)
  {
    var i := s.pc.at;
    var t := WalkTurn(w, s);
    WalkTurnLeads(w, s);
    WalkTurnWritesNothing(w, s);
    if RanOff(w, s) {
      OffGraphEnds(w, s);
      hide WalkTurn, Inv, Ahead, Sound;
      AheadOffGraph(w, allow, s, i);
      AheadDependsOnHistory(w, allow, s, t, -1);
    } else {
      if t.pc.Finishing? { FailureStaysAhead(w, s); }
      hide WalkTurn, Inv, Ahead, Sound, GuardAllows, Next;
      if t.pc.Walking? {
        AheadSkips(w, allow, s, i);
        AheadDependsOnHistory(w, allow, s, t, t.pc.at);
      } else {
        AheadDependsOnHistory(w, allow, s, t, i);
      }
    }
  }

  lemma OffGraphEnds(w: Workflow, s: Run)
    requires Inv(w, s) && s.pc.Walking? && RanOff(w, s)
    ensures var t := WalkTurn(w, s).pc; t.Idle? || (t.Finishing? && !Keeps(t.result))
  {}

  /** The walk turn at which the walk is over. */
  predicate RanOff(w: Workflow, s: Run)
    requires s.pc.Walking?
  {
    s.pc.at < 0 || s.pc.at >= |w.steps|
  }

  /** A failed step is stored as the step to resume at. */
  lemma FailureStaysAhead(w: Workflow, s: Run)
    requires Sound(w) && Inv(w, s) && s.pc.Walking? && !RanOff(w, s)
    requires WalkTurn(w, s).pc.Finishing?
    ensures WalkTurn(w, s).pc.result == PollFailed
    ensures Front(EntryCursor(WalkTurn(w, s).pc.item)) == s.pc.at
  {
    if s.pc.at in s.pc.visited { assert false; }
    NothingReturnsToStartHere(w, s.pc.at);
  }

  lemma NothingReturnsToStartHere(w: Workflow, i: int)
    requires Sound(w) && Precedes(w, 0, i)
    ensures i != 0
  {}

  lemma WalkSimulates(w: Workflow, allow: nat -> bool, s: Run)
    requires Sound(w) && Inv(w, s) && Sim(w, allow, s) && s.pc.Walking?
    requires AnswerStays(w, allow, s, Act)
    ensures Sim(w, allow, WalkTurn(w, s))
  {
    if WalkTurn(w, s).pc.Performed? {
      PerformedShape(w, s);
      EffectIsNew(w, s);
      WalkPerforms(w, allow, s);
    } else {
      WalkMoves(w, allow, s);
      CompletedMeansOver(w, s);
      WalkTurnWritesNothing(w, s);
      WalkLogsNothing(w, s);
      SimFrame(w, allow, s, WalkTurn(w, s));
    }
  }

  lemma WalkLogsNothing(w: Workflow, s: Run)
    requires s.pc.Walking? && !WalkTurn(w, s).pc.Performed?
    ensures WalkTurn(w, s).log == s.log
  {}

  lemma CompletedMeansOver(w: Workflow, s: Run)
    requires Sound(w) && Inv(w, s) && s.pc.Walking? && CompletedRests(s)
    ensures var t := WalkTurn(w, s);
            t.completed ==> RanOff(w, s) && CompletedRests(t)
  {}

  /** What is stored after step `i` resumes at step `j`. */
  lemma CheckpointFront(w: Workflow, item: WatchItem, i: int, j: int)
    requires Sound(w) && !item.done && (i == 0 || Precedes(w, 0, i))
    requires j >= 0 ==> Edge(w, i, j)
    ensures Front(EntryCursor(Checkpoint(item, j))) == if j < 0 then -1 else j
  {
    NothingReturnsToStart(w, i);
  }

  lemma AfterEffectSimulates(w: Workflow, allow: nat -> bool, s: Run)
    requires Sound(w) && Inv(w, s) && Sim(w, allow, s) && s.pc.Performed?
    ensures Sim(w, allow, AfterEffect(w, s))
  {
    var t := AfterEffect(w, s);
    var i := s.pc.step;
    AheadAcknowledges(w, allow, s, t, i);
    BegunDependsOnHistory(w, allow, s, t);
    if w.steps[i].verb != Cancel && s.pc.mode.Branch? {
      var j := Next(w, i, "");
      if j >= 0 { WalkMoveIsEdge(w, i); }
      CheckpointFront(w, s.pc.mode.item, i, j);
    }
  }

  lemma CommitSimulates(w: Workflow, allow: nat -> bool, s: Run)
    requires Sound(w) && Inv(w, s) && Sim(w, allow, s) && s.pc.Committing?
    ensures Sim(w, allow, Tick(w, s))
  {
    var t := Tick(w, s);
    var Committing(item, env, commit) := s.pc;
    AheadCommits(w, allow, s, t, item.step, commit);
    CheckpointFront(w, item, item.step, commit.from);
    if commit.from < 0 { AheadOffGraph(w, allow, t, commit.from); }
  }

  lemma PollWritesNothing(w: Workflow, s: Run, env: Env)
    requires CompletedRests(s)
    ensures var t := Poll(w, s, env);
            && t == s.(pc := t.pc)
            && CompletedRests(t)
  {}

  lemma PollPcAhead(w: Workflow, allow: nat -> bool, s: Run, env: Env)
    requires Sound(w) && PcAhead(w, allow, s)
    requires s.entry.Some? ==> Ahead(w, allow, s, Front(EntryCursor(s.entry.value)))
    ensures PcAhead(w, allow, Poll(w, s, env))
  {
    hide Whole, Guards.Allows;
    var t := Poll(w, s, env);
    if s.pc.Idle? && s.entry.Some? {
      AheadDependsOnHistory(w, allow, s, t, Front(EntryCursor(s.entry.value)));
    }
  }

  lemma PollSimulates(w: Workflow, allow: nat -> bool, s: Run, env: Env)
    requires Sound(w) && Sim(w, allow, s)
    ensures Sim(w, allow, Poll(w, s, env))
  {
    PollWritesNothing(w, s, env);
    PollPcAhead(w, allow, s, env);
    SimFrame(w, allow, s, Poll(w, s, env));
  }

  lemma EnqueueSimulates(w: Workflow, allow: nat -> bool, s: Run)
    requires Sound(w) && Sim(w, allow, s) && s.pc.Arrived? && s.pc.mode.FirstWalk?
    ensures Sim(w, allow, AtArrival(w, s))
  {
    var t := AtArrival(w, s);
    AheadDependsOnHistory(w, allow, s, t, s.pc.gate);
    BegunDependsOnHistory(w, allow, s, t);
    if t.entry.Some? { AheadDependsOnHistory(w, allow, s, t, Front(EntryCursor(t.entry.value))); }
  }

  lemma GateArrivalSimulates(w: Workflow, allow: nat -> bool, s: Run)
    requires Sound(w) && Sim(w, allow, s) && s.pc.Arrived? && s.pc.mode.Branch? && !s.pc.mode.item.done
    ensures Sim(w, allow, AtArrival(w, s))
  {
    var t := AtArrival(w, s);
    AheadDependsOnHistory(w, allow, s, t, s.pc.gate);
    SimFrame(w, allow, s, t);
  }

  lemma FinishSimulates(w: Workflow, allow: nat -> bool, s: Run)
    requires Sound(w) && Sim(w, allow, s) && s.pc.Finishing?
    ensures Sim(w, allow, Tick(w, s))
  {
    hide Ahead, Begun, Sound, Distinct, Destutter, Ideal, Whole;
    var t := Tick(w, s);
    BegunDependsOnHistory(w, allow, s, t);
    if t.entry.Some? { AheadDependsOnHistory(w, allow, s, t, Front(EntryCursor(t.entry.value))); }
    if t.completed { AheadDependsOnHistory(w, allow, s, t, -1); }
  }

  // ---------------------------------------------------------------------------------------
  // Whole runs
  // ---------------------------------------------------------------------------------------

  lemma TickSimulates(w: Workflow, allow: nat -> bool, s: Run)
    requires Sound(w) && Inv(w, s) && Sim(w, allow, s) && AnswerStays(w, allow, s, Act)
    ensures Sim(w, allow, Tick(w, s))
  {
    match s.pc
    case Committing(_, _, _) => CommitSimulates(w, allow, s);
    case Walking(_, _, _, _) => WalkSimulates(w, allow, s);
    case Performed(_, _, _, _) => AfterEffectSimulates(w, allow, s);
    case Arrived(mode, _, _) =>
      if mode.Branch? { GateArrivalSimulates(w, allow, s); } else { EnqueueSimulates(w, allow, s); }
    case Finishing(_, _) => FinishSimulates(w, allow, s);
    case Forgotten(_) => ForgottenSimulates(w, allow, s);
    case Idle =>
  }

  lemma ForgottenSimulates(w: Workflow, allow: nat -> bool, s: Run)
    requires Sound(w) && Inv(w, s) && Sim(w, allow, s) && s.pc.Forgotten?
    ensures Sim(w, allow, Tick(w, s))
  {
    hide Whole, Ideal, Sound, HistoryOk, ItemOk, WalkOk, Leads, Destutter;
    var t := Tick(w, s);
    AheadDependsOnHistory(w, allow, s, t, -1);
    BegunDependsOnHistory(w, allow, s, t);
  }

  lemma NextSimulates(w: Workflow, allow: nat -> bool, s: Run, x: Input)
    requires Sound(w) && Inv(w, s) && Sim(w, allow, s) && AnswerStays(w, allow, s, x)
    ensures Sim(w, allow, Apply(w, s, x))
  {
    match x
    case Begin(env) => PollSimulates(w, allow, s, env);
    case Act => TickSimulates(w, allow, s);
    case Crash => SimFrame(w, allow, s, Apply(w, s, x));
    case Unavailable(_) => SimFrame(w, allow, s, Apply(w, s, x));
  }

  lemma {:induction false} ExecuteSimulates(w: Workflow, allow: nat -> bool, s: Run, xs: seq<Input>)
    requires Sound(w) && Inv(w, s) && Sim(w, allow, s) && AnswersStay(w, allow, s, xs)
    ensures Sim(w, allow, Execute(w, s, xs))
    decreases |xs|
  {
    if xs != [] {
      NextSimulates(w, allow, s, xs[0]);
      NextKeeps(w, s, xs[0]);
      ExecuteSimulates(w, allow, Apply(w, s, xs[0]), xs[1..]);
    }
  }

  lemma CreatedSimulates(w: Workflow, allow: nat -> bool, provider: string, watch: bool, manager: string, env: Env)
    requires Sound(w)
    ensures Sim(w, allow, Created(w, provider, watch, manager, env))
  {
    var s := Created(w, provider, watch, manager, env);
    forall fut
      ensures Whole(w, allow, s, fut) == s.acked + Ideal(w, allow, Next(w, 0, ""), fut)
    {
      assert Outs([]) + fut == fut;
    }
  }

  /** The duplicates owed to crashes: an effect whose process crashed before its checkpoint. */
  function Owed(s: Run): nat {
    if Destutter(s.log) != s.acked && !s.pc.Performed? then 1 else 0
  }

  function Crashes(xs: seq<Input>): nat {
    if xs == [] then 0 else (if xs[0].Crash? then 1 else 0) + Crashes(xs[1..])
  }

  predicate Performs(w: Workflow, s: Run, x: Input) {
    x.Act? && s.pc.Walking? && WalkTurn(w, s).pc.Performed?
  }

  /** Only an effect extends the log, and only the action after one acknowledges. */
  lemma OtherwiseHistoryStays(w: Workflow, s: Run, x: Input)
    requires !Performs(w, s, x) && !(x.Act? && s.pc.Performed?)
    ensures var t := Apply(w, s, x);
            t.log == s.log && t.acked == s.acked && (s.pc.Performed? && !x.Crash? ==> t.pc.Performed?)
  {
    if x.Act? && s.pc.Walking? {
      WalkTurnWritesNothing(w, s);
      WalkLogsNothing(w, s);
    }
  }

  lemma NextOwes(w: Workflow, allow: nat -> bool, s: Run, x: Input)
    requires Sound(w) && Inv(w, s) && Sim(w, allow, s)
    requires AnswerStays(w, allow, s, x)
    ensures var t := Apply(w, s, x);
            |t.log| + Owed(t) + |Destutter(s.log)|
            <= |s.log| + Owed(s) + |Destutter(t.log)| + if x.Crash? then 1 else 0
  {
    if Performs(w, s, x) {
      PerformedShape(w, s);
      EffectIsNew(w, s);
      EffectOwes(w, allow, s);
    } else if x.Act? && s.pc.Performed? {
      AcknowledgedOwes(w, allow, s);
    } else {
      OtherwiseHistoryStays(w, s, x);
    }
  }

  lemma EffectOwes(w: Workflow, allow: nat -> bool, s: Run)
    requires Sound(w) && Sim(w, allow, s) && Performs(w, s, Act) && s.pc.at !in s.acked
    requires AnswerStays(w, allow, s, Act)
    ensures var t := WalkTurn(w, s);
            |t.log| + Owed(t) + |Destutter(s.log)| <= |s.log| + Owed(s) + |Destutter(t.log)|
  {
    PerformedShape(w, s);
    EffectSimulates(w, allow, s, s.pc.at);
  }

  lemma AcknowledgedOwes(w: Workflow, allow: nat -> bool, s: Run)
    requires Sound(w) && PcAhead(w, allow, s) && s.pc.Performed?
    ensures AfterEffect(w, s).log == s.log && Owed(AfterEffect(w, s)) == 0
  {}

  lemma {:induction false} ExecuteOwes(w: Workflow, allow: nat -> bool, s: Run, xs: seq<Input>)
    requires Sound(w) && Inv(w, s) && Sim(w, allow, s) && AnswersStay(w, allow, s, xs)
    ensures var t := Execute(w, s, xs);
            |t.log| + Owed(t) + |Destutter(s.log)|
            <= |s.log| + Owed(s) + |Destutter(t.log)| + Crashes(xs)
    decreases |xs|
  {
    if xs != [] {
      NextOwes(w, allow, s, xs[0]);
      NextSimulates(w, allow, s, xs[0]);
      NextKeeps(w, s, xs[0]);
      ExecuteOwes(w, allow, Apply(w, s, xs[0]), xs[1..]);
    }
  }

  /** Main result. For any polls, failures and crashes, as long as each step's guard answers alike
      whenever the step is met, a run's effects without their stutters are a beginning of what the
      machine that never crashes performs for the same committed outcomes, all of it when the run
      completed or rests at a gate; no effect recurs except right after itself, and there are at
      most as many such repetitions as crashes. */
  lemma CrashesOnlyStutter(w: Workflow, allow: nat -> bool, provider: string, watch: bool,
                           manager: string, env: Env, xs: seq<Input>)
    requires Valid(w)
    requires AnswersStay(w, allow, Created(w, provider, watch, manager, env), xs)
    ensures Sound(w)
    ensures var s := Execute(w, Created(w, provider, watch, manager, env), xs);
            var ideal := Ideal(w, allow, Next(w, 0, ""), Outs(s.commits));
            && Destutter(s.log) <= ideal
            && (s.completed || CursorOf(s).Waiting? ==> Destutter(s.log) == ideal)
            && Distinct(Destutter(s.log))
            && |s.log| <= |Destutter(s.log)| + Crashes(xs)
  {
    ValidIsSound(w);
    var s0 := Created(w, provider, watch, manager, env);
    var s := Execute(w, s0, xs);
    CreatedOk(w, provider, watch, manager, env);
    CreatedSimulates(w, allow, provider, watch, manager, env);
    ExecuteKeeps(w, s0, xs);
    ExecuteSimulates(w, allow, s0, xs);
    ExecuteOwes(w, allow, s0, xs);
    assert Outs(s.commits) + [] == Outs(s.commits);
    assert Destutter(s.log) <= Whole(w, allow, s, []);
    if s.completed {
      NothingPending(w, allow, s, -1);
      assert Whole(w, allow, s, []) == s.acked + [];
    }
    if CursorOf(s).Waiting? {
      NothingPending(w, allow, s, s.entry.value.step);
      assert Whole(w, allow, s, []) == s.acked + [];
    }
  }
}
