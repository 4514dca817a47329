/** A committed branch ignores late replies: until the next gate is read, two runs that differ only in what the
    attendees answer are the same run. The cursor says which branch is under way, so a daemon that resumes it
    after a failure or a crash does not look at the replies again, and a late answer can neither switch branches
    nor repeat a step that was performed before (cmd/daemon.go, cmd/run.go). */
module Replies {
  import opened Workflows
  import opened Protocol
  import Guards

  /** The two polls differ at most in the attendees' names, roles and replies. */
  ghost predicate SameButReplies(a: Env, b: Env) {
    && a.loads == b.loads && a.fetch == b.fetch && a.now == b.now && a.later == b.later
    && (forall i: nat :: a.day(i) == b.day(i) && a.fails(i) == b.fails(i)) && a.invites == b.invites
    && |a.hold.attendees| == |b.hold.attendees|
  }

  ghost predicate SameInputs(xs: seq<Input>, ys: seq<Input>) {
    && |xs| == |ys|
    && forall k :: 0 <= k < |xs| ==> SameInput(xs[k], ys[k])
  }

  ghost predicate SameInput(x: Input, y: Input) {
    if x.Begin? && y.Begin? then SameButReplies(x.env, y.env) else x == y
  }

  ghost predicate SamePc(a: Pc, b: Pc) {
    match (a, b)
    case (Walking(m, e, i, v), Walking(n, f, j, u)) => m == n && SameButReplies(e, f) && i == j && v == u
    case (Performed(m, e, i, v), Performed(n, f, j, u)) => m == n && SameButReplies(e, f) && i == j && v == u
    case (Arrived(m, e, g), Arrived(n, f, h)) => m == n && SameButReplies(e, f) && g == h
    case _ => a == b
  }

  /** The same run up to the replies the process holds in memory. */
  ghost predicate SameRun(s: Run, t: Run) {
    s.(pc := Idle) == t.(pc := Idle) && SamePc(s.pc, t.pc)
  }

  /** No poll reads a gate: whenever one begins, the stored branch is committed or over. */
  ghost predicate ReadsNoGate(w: Workflow, s: Run, xs: seq<Input>)
    decreases |xs|
  {
    xs == []
    || ((xs[0].Begin? ==> !CursorOf(s).Waiting?) && ReadsNoGate(w, Apply(w, s, xs[0]), xs[1..]))
  }

  ghost predicate InBranch(s: Run) {
    !FirstWalking(s.pc) && !s.pc.Committing?
  }

  lemma NextIgnoresReplies(w: Workflow, s: Run, t: Run, x: Input, y: Input)
    requires SameRun(s, t) && SameInput(x, y) && InBranch(s)
    requires x.Begin? ==> !CursorOf(s).Waiting?
    ensures SameRun(Apply(w, s, x), Apply(w, t, y)) && InBranch(Apply(w, s, x))
  {
    match x {
      case Begin(env) => PollIgnoresReplies(w, s, t, env, y.env);
      case Act => TickIgnoresReplies(w, s, t);
      case _ =>
    }
    hide Poll, Tick, SameButReplies, CursorOf;
  }

  lemma TickIgnoresReplies(w: Workflow, s: Run, t: Run)
    requires SameRun(s, t) && InBranch(s)
    ensures SameRun(Tick(w, s), Tick(w, t)) && InBranch(Tick(w, s))
  {
    match s.pc {
      case Walking(_, _, _, _) => WalkIgnoresReplies(w, s, t);
      case Performed(_, _, _, _) => EffectIgnoresReplies(w, s, t);
      case Arrived(_, _, _) => ArrivalIgnoresReplies(w, s, t);
      case _ =>
    }
    hide WalkTurn, AfterEffect, AtArrival, SameButReplies;
  }

  lemma EffectIgnoresReplies(w: Workflow, s: Run, t: Run)
    requires SameRun(s, t) && InBranch(s) && s.pc.Performed?
    ensures SameRun(AfterEffect(w, s), AfterEffect(w, t)) && InBranch(AfterEffect(w, s))
  {
    hide Next, SameButReplies;
  }

  lemma ArrivalIgnoresReplies(w: Workflow, s: Run, t: Run)
    requires SameRun(s, t) && InBranch(s) && s.pc.Arrived?
    ensures SameRun(AtArrival(w, s), AtArrival(w, t)) && InBranch(AtArrival(w, s))
  {
    hide NamesApprover;
  }

  lemma PollIgnoresReplies(w: Workflow, s: Run, t: Run, a: Env, b: Env)
    requires SameRun(s, t) && SameButReplies(a, b) && InBranch(s) && !CursorOf(s).Waiting?
    ensures SameRun(Poll(w, s, a), Poll(w, t, b)) && InBranch(Poll(w, s, a))
  {
    hide BranchPlan;
  }

  lemma WalkIgnoresReplies(w: Workflow, s: Run, t: Run)
    requires SameRun(s, t) && InBranch(s) && s.pc.Walking?
    ensures SameRun(WalkTurn(w, s), WalkTurn(w, t)) && InBranch(WalkTurn(w, s))
  {
    hide Guards.Allows, Next;
    var i := s.pc.at;
    if 0 <= i < |w.steps| {
      assert GuardAllows(w, s.pc.env, i) == GuardAllows(w, t.pc.env, i);
      hide GuardAllows;
    }
  }

  lemma {:induction false} ExecuteIgnoresReplies(w: Workflow, s: Run, t: Run, xs: seq<Input>, ys: seq<Input>)
    requires SameRun(s, t) && SameInputs(xs, ys) && InBranch(s) && ReadsNoGate(w, s, xs)
    ensures SameRun(Execute(w, s, xs), Execute(w, t, ys))
    decreases |xs|
  {
    if xs != [] {
      NextIgnoresReplies(w, s, t, xs[0], ys[0]);
      var xs', ys' := xs[1..], ys[1..];
      assert forall k :: 0 <= k < |xs'| ==> xs'[k] == xs[k + 1] && ys'[k] == ys[k + 1];
      ExecuteIgnoresReplies(w, Apply(w, s, xs[0]), Apply(w, t, ys[0]), xs', ys');
    }
  }

  /** Main result. From a stored item whose branch is committed, runs under the same guards, failures
      and crashes but different replies agree on every effect, every file content and every
      commitment, over any number of polls, until a gate is read again. */
  lemma CommittedBranchIgnoresLateReplies(w: Workflow, s: Run, xs: seq<Input>, ys: seq<Input>)
    requires s.pc.Idle? && CursorOf(s).Running?
    requires SameInputs(xs, ys) && ReadsNoGate(w, s, xs)
    ensures var a, b := Execute(w, s, xs), Execute(w, s, ys);
            && a.entry == b.entry && a.alive == b.alive && a.log == b.log && a.acked == b.acked
            && a.commits == b.commits && a.invited == b.invited && a.completed == b.completed
  {
    ExecuteIgnoresReplies(w, s, s, xs, ys);
  }
}
