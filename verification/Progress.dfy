/** A run gets somewhere: polls that find their gate answered and meet no failure bring it to an end, whatever
    crashes and failing polls fall in between. A branch that meets no failure walks to its end or to a gate,
    and that gate lies strictly ahead of the one it left, as the step graph has no cycle; so such a poll
    leaves fewer gates ahead of the run than it found (cmd/daemon.go, cmd/run.go). */
module Progress {
  import opened Base
  import opened Workflows
  import opened Protocol
  import opened Forward
  import Calendar

  function GateSteps(w: Workflow): set<int> {
    set i: int | 0 <= i < |w.steps| && Waits(w.steps[i].verb)
  }

  /** The gates strictly ahead of a cursor. */
  ghost function GatesAhead(w: Workflow, c: Cursor): set<int> {
    set g | g in GateSteps(w) && c != Waiting(g) && Leads(w, c, Waiting(g))
  }

  /** A poll that meets no failure. */
  ghost predicate Unhindered(env: Env) {
    env.loads && !env.fetch.Unreachable? && env.invites && forall i: nat :: !env.fails(i)
  }

  /** The poll finds the process at rest, its gate answered or its branch under way, and meets no failure. */
  ghost predicate Helped(w: Workflow, s: Run, env: Env) {
    && s.pc.Idle? && Unhindered(env)
    && (s.entry.Some? ==>
          var item := s.entry.value;
          item.done || item.resume > 0
          || (0 <= item.step < |w.steps| && BranchPlan(w, item, env.hold, env.now).Open?))
  }

  /** The run was stored waiting at a gate at or after `from`. */
  ghost predicate Landed(w: Workflow, t: Run, from: int) {
    && t.entry.Some? && EntryCursor(t.entry.value) == Waiting(t.entry.value.step)
    && t.entry.value.step in GateSteps(w) && AtOrBefore(w, from, t.entry.value.step)
  }

  lemma LandedEarlier(w: Workflow, t: Run, i: int, j: int)
    requires Landed(w, t, j) && AtOrBefore(w, i, j)
    ensures Landed(w, t, i)
  {
    var g := t.entry.value.step;
    if i != j && j != g { PrecedesTransitive(w, i, j, g); }
  }

  lemma FinishSettles(w: Workflow, s: Run)
    requires s.pc.Finishing?
    ensures Settle(w, s).entry == if Keeps(s.pc.result) then Some(s.pc.item) else None
  {
    SettleTick(w, s);
  }

  lemma ArrivalLands(w: Workflow, s: Run)
    requires Inv(w, s) && s.pc.Arrived? && s.pc.mode.Branch? && Unhindered(s.pc.env)
    ensures Landed(w, Settle(w, s), s.pc.gate)
  {
    SettleTick(w, s);
    FinishSettles(w, Tick(w, s));
  }

  lemma ForgottenEnds(w: Workflow, s: Run)
    requires Inv(w, s) && s.pc.Forgotten? && s.pc.mode.Branch?
    ensures Settle(w, s).entry.None?
  {
    SettleTick(w, s);
    FinishSettles(w, Tick(w, s));
  }

  /** A branch without failures lands at a gate further on or ends the run. */
  lemma {:induction false} WalkLands(w: Workflow, s: Run)
    requires Sound(w) && Inv(w, s) && s.pc.Walking? && s.pc.mode.Branch? && Unhindered(s.pc.env)
    ensures var t := Settle(w, s); t.entry.None? || Landed(w, t, s.pc.at)
    decreases Remaining(w, s.pc)
  {
    var t, i := WalkTurn(w, s), s.pc.at;
    SettleTick(w, s);
    NextKeeps(w, s, Act);
    TickProgresses(w, s);
    WalkTurnLeads(w, s);
    BranchEndsDrop(w, s);
    hide Inv, Sound, Settle, WalkTurn, Unhindered, Landed, Remaining;
    match t.pc
    case Finishing(_, _) => FinishSettles(w, t);
    case Arrived(_, _, _) => ArrivalLands(w, t);
    case Performed(_, _, _, _) => EffectLands(w, t);
    case Walking(_, _, j, _) =>
      WalkLands(w, t);
      if Settle(w, t).entry.Some? { MovesOn(w, Settle(w, t), i, j); }
  }

  lemma BranchEndsDrop(w: Workflow, s: Run)
    requires Inv(w, s) && s.pc.Walking? && s.pc.mode.Branch? && Unhindered(s.pc.env)
    ensures var t := WalkTurn(w, s); t.pc.Finishing? ==> !Keeps(t.pc.result)
  {}

  lemma {:induction false} EffectLands(w: Workflow, s: Run)
    requires Sound(w) && Inv(w, s) && s.pc.Performed? && s.pc.mode.Branch? && Unhindered(s.pc.env)
    requires s.pc.step < |w.steps| && !Waits(w.steps[s.pc.step].verb)
    ensures var t := Settle(w, s); t.entry.None? || Landed(w, t, s.pc.step)
    decreases Remaining(w, s.pc)
  {
    var t, i := Tick(w, s), s.pc.step;
    SettleTick(w, s);
    NextKeeps(w, s, Act);
    TickProgresses(w, s);
    assert t.pc == if w.steps[i].verb == Cancel then Forgotten(s.pc.mode)
                   else Walking(s.pc.mode, s.pc.env, Next(w, i, ""), s.pc.visited);
    hide Inv, Sound, Settle, Tick, Unhindered, Landed, Remaining;
    if w.steps[i].verb == Cancel {
      ForgottenEnds(w, t);
    } else {
      WalkLands(w, t);
      if Settle(w, t).entry.Some? { MovesOn(w, Settle(w, t), i, t.pc.at); }
    }
  }

  lemma MovesOn(w: Workflow, t: Run, i: int, j: int)
    requires 0 <= i < |w.steps| && !Waits(w.steps[i].verb) && j == Next(w, i, "") && Landed(w, t, j)
    ensures Landed(w, t, i)
  {
    if j >= 0 {
      WalkMoveIsEdge(w, i);
      EdgePrecedes(w, i, j);
      LandedEarlier(w, t, i, j);
    } else {
      PrecedesInRange(w, j, t.entry.value.step);
    }
  }

  /** What a helped poll begins with. */
  lemma HelpedPoll(w: Workflow, s: Run, env: Env)
    requires Inv(w, s) && s.entry.Some? && Helped(w, s, env)
    ensures var b, item := Poll(w, s, env), s.entry.value;
            match b.pc
            case Finishing(result, _) => !Keeps(result)
            case Walking(mode, e, at, _) => mode.Branch? && e == env && CursorOf(s) == Running(at)
            case Committing(_, e, c) => e == env && CursorOf(s) == Waiting(item.step)
            case _ => false
  {
    hide BranchPlan;
  }

  /** One such poll ends the run, or stores it at a gate strictly ahead of its cursor. */
  lemma PollGetsAhead(w: Workflow, s: Run, env: Env)
    requires Sound(w) && Inv(w, s) && s.entry.Some? && Helped(w, s, env)
    ensures var t := Settle(w, Poll(w, s, env));
            t.entry.None? || (CursorOf(t).Waiting? && CursorOf(t).gate in GatesAhead(w, CursorOf(s)))
  {
    var b := Poll(w, s, env);
    HelpedPoll(w, s, env);
    PollKeeps(w, s, env);
    hide Inv, Sound, Settle, Poll, Unhindered;
    match b.pc
    case Finishing(_, _) => FinishSettles(w, b);
    case Walking(_, _, _, _) => WalkLands(w, b);
    case Committing(_, _, _) => CommitLands(w, b);
  }

  lemma CommitLands(w: Workflow, b: Run)
    requires Sound(w) && Inv(w, b) && b.pc.Committing? && Unhindered(b.pc.env)
    ensures var t, g := Settle(w, b), b.pc.commit.gate;
            && CursorOf(b) == Waiting(g)
            && (t.entry.None? || (Landed(w, t, g) && t.entry.value.step != g))
  {
    var g, j, t := b.pc.commit.gate, b.pc.commit.from, Settle(w, b);
    SettleTick(w, b);
    NextKeeps(w, b, Act);
    WalkLands(w, Tick(w, b));
    hide Inv, Settle, Unhindered;
    if t.entry.Some? { MovesAhead(w, t, g, j); }
  }

  lemma MovesAhead(w: Workflow, t: Run, g: int, j: int)
    requires Sound(w) && Landed(w, t, j) && (j >= 0 ==> Edge(w, g, j))
    ensures Landed(w, t, g) && t.entry.value.step != g
  {
    var h := t.entry.value.step;
    if j >= 0 {
      EdgePrecedes(w, g, j);
      if j != h { PrecedesTransitive(w, g, j, h); }
    } else {
      PrecedesInRange(w, j, h);
    }
  }

  // ---------------------------------------------------------------------------------------
  // Many polls
  // ---------------------------------------------------------------------------------------

  /** Anything at all, and then a poll. */
  datatype Round = Round(before: seq<Input>, env: Env)

  function Found(w: Workflow, s: Run, r: Round): Run {
    Execute(w, s, r.before)
  }

  function AfterRound(w: Workflow, s: Run, r: Round): Run {
    Settle(w, Poll(w, Found(w, s, r), r.env))
  }

  function AfterRounds(w: Workflow, s: Run, rounds: seq<Round>): Run
    decreases |rounds|
  {
    if rounds == [] then s else AfterRounds(w, AfterRound(w, s, rounds[0]), rounds[1..])
  }

  ghost predicate AllHelped(w: Workflow, s: Run, rounds: seq<Round>)
    decreases |rounds|
  {
    rounds == []
    || (Helped(w, Found(w, s, rounds[0]), rounds[0].env) && AllHelped(w, AfterRound(w, s, rounds[0]), rounds[1..]))
  }

  /** Polling a run that is gone, and waiting for one, change nothing. */
  lemma {:induction false} GoneStaysGone(w: Workflow, s: Run, xs: seq<Input>)
    requires s.pc.Idle? && s.entry.None?
    ensures Execute(w, s, xs) == s
    decreases |xs|
  {
    if xs != [] { GoneStaysGone(w, s, xs[1..]); }
  }

  lemma {:induction false} GoneForGood(w: Workflow, s: Run, rounds: seq<Round>)
    requires s.pc.Idle? && s.entry.None?
    ensures AfterRounds(w, s, rounds) == s
    decreases |rounds|
  {
    if rounds != [] {
      GoneStaysGone(w, s, rounds[0].before);
      GoneForGood(w, s, rounds[1..]);
    }
  }

  lemma FewerAhead(w: Workflow, c: Cursor, d: Cursor)
    requires Sound(w) && Leads(w, c, d)
    ensures GatesAhead(w, d) <= GatesAhead(w, c)
  {
    forall g | g in GatesAhead(w, d)
      ensures g in GatesAhead(w, c)
    {
      LeadsIsTransitive(w, c, d, Waiting(g));
      if c == Waiting(g) { LeadsIsAntisymmetric(w, c, d); }
    }
  }

  lemma SettleKeeps(w: Workflow, s: Run)
    requires Sound(w) && Inv(w, s)
    ensures Inv(w, Settle(w, s))
    decreases Remaining(w, s.pc)
  {
    if !s.pc.Idle? {
      TickProgresses(w, s);
      NextKeeps(w, s, Act);
      SettleKeeps(w, Tick(w, s));
    }
  }

  lemma {:induction false} RoundsEnd(w: Workflow, s: Run, rounds: seq<Round>)
    requires Sound(w) && Inv(w, s) && rounds != [] && AllHelped(w, s, rounds)
    requires |rounds| > |GatesAhead(w, CursorOf(Found(w, s, rounds[0])))|
    ensures AfterRounds(w, s, rounds).entry.None?
    decreases |rounds|
  {
    var r, a, t := rounds[0], Found(w, s, rounds[0]), AfterRound(w, s, rounds[0]);
    ExecuteKeeps(w, s, r.before);
    PollKeeps(w, a, r.env);
    SettleKeeps(w, Poll(w, a, r.env));
    if a.entry.Some? { PollGetsAhead(w, a, r.env); }
    hide Sound, Inv, Helped, Settle, Poll, Leads;
    if t.entry.None? {
      GoneForGood(w, t, rounds[1..]);
    } else {
      var h := CursorOf(t).gate;
      FewerAhead(w, CursorOf(a), CursorOf(t));
      Shrinks(GatesAhead(w, CursorOf(t)), GatesAhead(w, CursorOf(a)), h);
      var b := Found(w, t, rounds[1]);
      ExecuteKeeps(w, t, rounds[1].before);
      FewerAhead(w, CursorOf(t), CursorOf(b));
      NotMore(GatesAhead(w, CursorOf(b)), GatesAhead(w, CursorOf(t)));
      RoundsEnd(w, t, rounds[1..]);
    }
  }

  lemma Shrinks(a: set<int>, b: set<int>, x: int)
    requires a <= b && x in b && x !in a
    ensures |a| < |b|
  {
    NotMore(a, b - {x});
  }

  lemma NotMore(a: set<int>, b: set<int>)
    requires a <= b
    ensures |a| <= |b|
  {
    assert b == a + (b - a);
  }

  /** Main result on progress. Of the polls that find their gate answered and fail nowhere, as many as the
      workflow has gates bring any run to its end, whatever other polls, failures and crashes fall in
      between: the daemon then has nothing left to do for the hold. */
  lemma {:induction false} AnsweredGatesEndTheRun(w: Workflow, s: Run, rounds: seq<Round>)
    requires Valid(w) && Reached(w, s) && AllHelped(w, s, rounds)
    requires |rounds| >= |GateSteps(w)|
    ensures AfterRounds(w, s, rounds).entry.None?
  {
    ReachedOk(w, s);
    if rounds == [] {
      assert s.entry.Some? ==> s.entry.value.step in GateSteps(w);
    } else {
      var a := Found(w, s, rounds[0]);
      ExecuteKeeps(w, s, rounds[0].before);
      if a.entry.None? {
        GoneForGood(w, a, rounds[1..]);
      } else {
        FirstGateIsNotAhead(w, a.entry.value);
        Shrinks(GatesAhead(w, CursorOf(a)), GateSteps(w), a.entry.value.step);
        RoundsEnd(w, s, rounds);
      }
    }
  }

  /** The gate a run is stored at is not ahead of it. */
  lemma FirstGateIsNotAhead(w: Workflow, item: WatchItem)
    requires Sound(w) && ItemOk(w, item)
    ensures item.step in GateSteps(w) && item.step !in GatesAhead(w, EntryCursor(item))
  {
    var g, c := item.step, EntryCursor(item);
    if g in GatesAhead(w, c) && c.Running? && c.step != g {
      PrecedesTransitive(w, g, c.step, g);
    }
  }

  /** Such polls exist: whichever gate of an accepted workflow a dated item waits at, some reply or some time
      answers it. */
  lemma SomePollHelps(w: Workflow, s: Run) returns (env: Env)
    requires Valid(w) && Reached(w, s) && s.pc.Idle? && (s.entry.Some? ==> s.entry.value.createdAt.Some?)
    ensures Helped(w, s, env)
  {
    ReachedOk(w, s);
    var item := if s.entry.Some? then s.entry.value else WatchItem("", "", "", 0, 0, false, "", "", Some(0));
    var hold := Calendar.Hold("", "", [Calendar.Attendee("", item.approver, Calendar.Required, Calendar.Accepted)]);
    var delay := if IsStep(w, item.step) then Parsed(w.steps[item.step].delay) else 0;
    var now := item.createdAt.value + delay;
    env := Env(true, Fetched, hold, now, now, i => 0, i => false, true);
    if s.entry.Some? { AnswerOpens(w, item); }
    hide Valid, BranchPlan;
  }

  /** The approver's acceptance, or the end of the delay, opens a gate. */
  lemma AnswerOpens(w: Workflow, item: WatchItem)
    requires Valid(w) && 0 <= item.step < |w.steps| && Waits(w.steps[item.step].verb) && item.createdAt.Some?
    ensures var reply := Calendar.Attendee("", item.approver, Calendar.Required, Calendar.Accepted);
            BranchPlan(w, item, Calendar.Hold("", "", [reply]),
                       item.createdAt.value + Parsed(w.steps[item.step].delay)).Open?
  {
    assert StepProblem(w, item.step).None?;
    hide Valid;
    var reply := Calendar.Attendee("", item.approver, Calendar.Required, Calendar.Accepted);
    assert [reply][1..] == [];
  }
}
