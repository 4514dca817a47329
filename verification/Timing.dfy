/** Elapsed time: with a clock that never runs back, a run's cursor stands past its gates no earlier than the
    sum of every wait it crossed and every timeout that expired, crashes included. Each gate starts its time
    anew when a branch arrives there, and a poll reads the clock before it walks, so whatever a crash makes the
    daemon repeat does not shorten any waiting of the run (cmd/daemon.go, cmd/run.go). */
module Timing {
  import opened Workflows
  import opened Protocol
  import opened Forward
  import opened Clocks

  /** The time a crossed gate must have taken: a wait's delay, an expired approval's timeout. */
  function Needed(w: Workflow, c: Commit): int {
    if c.gate >= |w.steps| then 0
    else match c.outcome
      case Elapsed => Parsed(w.steps[c.gate].delay)
      case TimedOut => Parsed(w.steps[c.gate].timeout)
      case _ => 0
  }

  function TotalNeeded(w: Workflow, commits: seq<Commit>): int {
    if commits == [] then 0
    else TotalNeeded(w, commits[..|commits| - 1]) + Needed(w, commits[|commits| - 1])
  }

  /** The polls read a clock that starts at `t` or later and never runs back. */
  predicate ClockRuns(t: int, xs: seq<Input>)
    decreases |xs|
  {
    xs == []
    || (if xs[0].Begin? then t <= xs[0].env.now <= xs[0].env.later && ClockRuns(xs[0].env.later, xs[1..])
        else ClockRuns(t, xs[1..]))
  }

  /** An item that waits at a gate has been waiting since `floor` at the earliest. */
  predicate WaitsSince(it: WatchItem, floor: int) {
    EntryCursor(it).Waiting? ==> it.createdAt.Some? && floor <= it.createdAt.value
  }

  ghost predicate Timed(w: Workflow, s: Run, base: int, t: int) {
    var floor := base + TotalNeeded(w, s.commits);
    && floor <= t
    && (s.entry.Some? ==> WaitsSince(s.entry.value, floor))
    && match s.pc
       case Committing(item, env, commit) => floor + Needed(w, commit) <= env.now <= env.later <= t
       case Walking(_, env, _, _) => floor <= env.later <= t
       case Performed(_, env, _, _) => floor <= env.later <= t
       case Arrived(_, env, _) => floor <= env.later <= t
       case Finishing(result, item) => Keeps(result) ==> WaitsSince(item, floor)
       case _ => true
  }

  /** A gate that opened on time or on a timeout has waited for it. */
  lemma OpenGateWaited(w: Workflow, item: WatchItem, env: Env, floor: int)
    requires 0 <= item.step < |w.steps| && Waits(w.steps[item.step].verb)
    requires item.createdAt.Some? && floor <= item.createdAt.value && floor <= env.now
    ensures var plan := BranchPlan(w, item, env.hold, env.now);
            plan.Open? ==> floor + Needed(w, Commit(item.step, plan.outcome, plan.from, env.hold, env.now)) <= env.now
  {}

  lemma PollTimed(w: Workflow, s: Run, env: Env, base: int, t: int)
    requires Inv(w, s) && Timed(w, s, base, t) && t <= env.now <= env.later
    ensures Timed(w, Poll(w, s, env), base, env.later)
  {
    if s.pc.Idle? && s.entry.Some? && EntryCursor(s.entry.value).Waiting? {
      OpenGateWaited(w, s.entry.value, env, base + TotalNeeded(w, s.commits));
    }
  }

  lemma TotalGrows(w: Workflow, commits: seq<Commit>, c: Commit)
    ensures TotalNeeded(w, commits + [c]) == TotalNeeded(w, commits) + Needed(w, c)
  {
    assert (commits + [c])[..|commits|] == commits;
  }

  /** A committed branch is stored as running or ended, never as waiting. */
  lemma CommitLeavesTheGate(w: Workflow, s: Run)
    requires Sound(w) && Inv(w, s) && s.pc.Committing?
    ensures !EntryCursor(Checkpoint(s.pc.item, s.pc.commit.from)).Waiting?
  {
    if s.pc.commit.from >= 0 { NothingReturnsToStart(w, s.pc.item.step); }
  }

  lemma CommitTimed(w: Workflow, s: Run, base: int, t: int)
    requires Sound(w) && Inv(w, s) && Timed(w, s, base, t) && s.pc.Committing?
    ensures Timed(w, Tick(w, s), base, t)
  {
    hide Inv, Needed, TotalNeeded, Sound, WalkTurn, AfterEffect, AtArrival;
    CommitLeavesTheGate(w, s);
    TotalGrows(w, s.commits, s.pc.commit);
  }

  lemma EffectTimed(w: Workflow, s: Run, base: int, t: int)
    requires Sound(w) && Inv(w, s) && Timed(w, s, base, t) && s.pc.Performed?
    ensures Timed(w, Tick(w, s), base, t)
  {
    hide TotalNeeded, Needed, HistoryOk;
    var i := s.pc.step;
    if w.steps[i].verb != Cancel && Next(w, i, "") >= 0 {
      WalkMoveIsEdge(w, i);
      NothingReturnsToStart(w, i);
    }
  }

  lemma WalkTimed(w: Workflow, s: Run, base: int, t: int)
    requires Sound(w) && Inv(w, s) && Timed(w, s, base, t) && s.pc.Walking?
    ensures Timed(w, Tick(w, s), base, t)
  {
    WalkTurnWritesNothing(w, s);
    WalkTurnLeads(w, s);
    if WalkTurn(w, s).pc.Finishing? { FailureIsRunning(w, s); }
    hide WalkTurn, Inv, Sound, Needed, TotalNeeded, GuardAllows, Next;
  }

  /** A failed step is stored as running or ended, never as waiting. */
  lemma FailureIsRunning(w: Workflow, s: Run)
    requires Sound(w) && Inv(w, s) && s.pc.Walking? && WalkTurn(w, s).pc.Finishing?
    ensures var f := WalkTurn(w, s).pc; Keeps(f.result) ==> !EntryCursor(f.item).Waiting?
  {
    if s.pc.at >= 0 { assert Precedes(w, 0, s.pc.at); }
    WalkTurnLeads(w, s);
    hide WalkTurn, HistoryOk, Next, GuardAllows;
  }

  lemma NextTimed(w: Workflow, s: Run, x: Input, base: int, t: int)
    requires Sound(w) && Inv(w, s) && Timed(w, s, base, t)
    requires x.Begin? ==> t <= x.env.now <= x.env.later
    ensures Timed(w, Apply(w, s, x), base, if x.Begin? then x.env.later else t)
  {
    hide Sound, Inv, TotalNeeded, Needed, Poll, Tick;
    match x
    case Begin(env) => PollTimed(w, s, env, base, t);
    case Act => TickTimed(w, s, base, t);
    case Crash =>
    case Unavailable(_) =>
  }

  lemma TickTimed(w: Workflow, s: Run, base: int, t: int)
    requires Sound(w) && Inv(w, s) && Timed(w, s, base, t)
    ensures Timed(w, Tick(w, s), base, t)
  {
    hide Sound, HistoryOk, PcOk, TotalNeeded, Needed;
    match s.pc
    case Idle =>
    case Committing(_, _, _) => CommitTimed(w, s, base, t);
    case Walking(_, _, _, _) => WalkTimed(w, s, base, t);
    case Performed(_, _, _, _) => EffectTimed(w, s, base, t);
    case _ => RestTimed(w, s, base, t);
  }

  lemma RestTimed(w: Workflow, s: Run, base: int, t: int)
    requires PcOk(w, s) && Timed(w, s, base, t) && (s.pc.Forgotten? || s.pc.Arrived? || s.pc.Finishing?)
    ensures Timed(w, Tick(w, s), base, t)
  {
    hide TotalNeeded, Needed, WalkOk;
  }

  lemma {:induction false} ExecuteTimed(w: Workflow, s: Run, xs: seq<Input>, base: int, t: int)
    requires Sound(w) && Inv(w, s) && Timed(w, s, base, t) && ClockRuns(t, xs)
    ensures Timed(w, Execute(w, s, xs), base, LastRead(t, xs))
    decreases |xs|
  {
    if xs != [] {
      NextTimed(w, s, xs[0], base, t);
      NextKeeps(w, s, xs[0]);
      ExecuteTimed(w, Apply(w, s, xs[0]), xs[1..], base, if xs[0].Begin? then xs[0].env.later else t);
    }
  }

  /** Main result. However often the daemon crashes, the time since the hold was enqueued covers every
      delay waited out and every timeout that expired among the gates behind the cursor. */
  lemma ElapsedTimeCoversCrossedGates(w: Workflow, provider: string, watch: bool, manager: string,
                                      env: Env, xs: seq<Input>)
    requires Valid(w) && ClockRuns(env.later, xs)
    ensures var s := Execute(w, Created(w, provider, watch, manager, env), xs);
            LastRead(env.later, xs) - env.later >= TotalNeeded(w, s.commits)
  {
    ValidIsSound(w);
    CreatedOk(w, provider, watch, manager, env);
    ExecuteTimed(w, Created(w, provider, watch, manager, env), xs, env.later, env.later);
  }
}
