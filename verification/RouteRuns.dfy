/** Every route is taken: for each place a route leads to there are times, replies, failures, invites and
    crashes under which a run comes to stand there, and its polls read one clock that never runs back. The
    route is walked from its last place to its first, each walk being given a time before the walk after it
    and each gate the reply, or the patience, that opens it; what a poll is to meet is noted as a wish
    (cmd/run.go, cmd/daemon.go). */
module RouteRuns {
  import opened Base
  import opened Workflows
  import opened Protocol
  import opened Forward
  import opened Clocks
  import opened Routes
  import Calendar
  import Guards

  // ---------------------------------------------------------------------------------------
  // Choosing the environment
  // ---------------------------------------------------------------------------------------

  /** What the walk of a poll meets: the hold, the clock and the weekdays, a step that may be made to fail, and
      whether invites go through. */
  datatype Wish = Wish(
    hold: Calendar.Hold, day: nat -> Guards.Weekday, now: int, later: int, step: int, fails: bool, invites: bool)

  ghost function Granting(h: Wish): Env {
    Env(true, Fetched, h.hold, h.now, h.later, h.day, (i: nat) => h.fails && i == h.step, h.invites)
  }

  ghost predicate Timely(w: Workflow, c: Conditions, h: Wish) {
    OnTime(w, c.span, h.day, h.now, h.later)
  }

  /** A run that walks at place `y` under wish `h`, gate `avoid` still unread. */
  ghost predicate Stands(w: Workflow, c: Conditions, s: Run, y: Place, h: Wish) {
    && Inv(w, s) && s.alive && !HasRead(s, c.avoid)
    && s.pc.Walking? && s.pc.at == y.step && s.pc.mode.Branch? == y.polled
    && (s.pc.mode.FirstWalk? ==> s.pc.mode.watch)
    && (s.pc.mode.Branch? ==> s.pc.mode.item.approver == y.approver)
    && |h.hold.attendees| == y.count && h.day == y.day && s.pc.env == Granting(h)
    && HoldInvited(w, c.manager, s.pc.mode, s.pc.env)
  }

  lemma Unvisited(w: Workflow, s: Run)
    requires Sound(w) && Inv(w, s) && s.pc.Walking? && s.pc.at >= 0
    ensures s.pc.at !in s.pc.visited
  {}

  ghost predicate OnlyActs(xs: seq<Input>) {
    forall k :: 0 <= k < |xs| ==> xs[k].Act?
  }

  /** What one or two actions at a step that neither fails nor cancels come to. */
  lemma PassStep(w: Workflow, s: Run) returns (xs: seq<Input>)
    requires s.pc.Walking? && 0 <= s.pc.at < |w.steps| && s.pc.at !in s.pc.visited
    requires !Waits(w.steps[s.pc.at].verb) && !s.pc.env.fails(s.pc.at)
    requires w.steps[s.pc.at].verb == Cancel ==> !GuardAllows(w, s.pc.env, s.pc.at)
    ensures OnlyActs(xs)
    ensures var t := Execute(w, s, xs);
            && t.alive == s.alive && t.commits == s.commits && (s.pc.mode.FirstWalk? ==> t.entry == s.entry)
            && t.pc == Walking(s.pc.mode, s.pc.env, Next(w, s.pc.at, ""), s.pc.visited + {s.pc.at})
  {
    hide Guards.Allows;
    if GuardAllows(w, s.pc.env, s.pc.at) && Acts(w.steps[s.pc.at].verb) {
      xs := [Act, Act];
      assert xs[1..] == [Act] && [Act][1..] == [];
      assert Execute(w, s, xs) == AfterEffect(w, WalkTurn(w, s));
    } else {
      xs := [Act];
      assert xs[1..] == [];
      assert Execute(w, s, xs) == WalkTurn(w, s);
    }
  }

  /** A run that stands at a step comes to stand at the next. */
  lemma PassOn(w: Workflow, c: Conditions, s: Run, x: Place, h: Wish) returns (xs: seq<Input>)
    requires Sound(w) && Stands(w, c, s, x, h) && 0 <= x.step < |w.steps|
    requires !Waits(w.steps[x.step].verb) && x.step != h.step
    requires w.steps[x.step].verb == Cancel ==> !Permits(w, x.step, x.count, x.day)
    ensures Stands(w, c, Execute(w, s, xs), x.(step := Next(w, x.step, "")), h) && OnlyActs(xs)
  {
    Unvisited(w, s);
    xs := PassStep(w, s);
    ExecuteKeeps(w, s, xs);
    hide Inv, Execute, Granting, GuardAllows, Sound;
  }

  // ---------------------------------------------------------------------------------------
  // Through a gate
  // ---------------------------------------------------------------------------------------

  /** The run is stored waiting at gate `g` for approver `a`, since time `t`. */
  ghost predicate WaitsAt(w: Workflow, c: Conditions, s: Run, g: int, a: string, t: int) {
    && Inv(w, s) && s.alive && !HasRead(s, c.avoid)
    && s.pc.Idle? && s.entry.Some? && EntryCursor(s.entry.value) == Waiting(g)
    && s.entry.value.createdAt == Some(t) && s.entry.value.approver == a
  }

  /** The invite's fate that leaves the item carrying `a`. */
  function Invites(w: Workflow, x: Place, a: string): bool {
    0 <= x.step < |w.steps| && a == w.steps[x.step].approver
  }

  /** A walk that stands at a gate arrives there. */
  lemma ArrivesAtGate(w: Workflow, c: Conditions, s: Run, x: Place, h: Wish)
    requires Sound(w) && Stands(w, c, s, x, h) && 0 <= x.step < |w.steps| && Waits(w.steps[x.step].verb)
    ensures WalkTurn(w, s) == s.(pc := Arrived(s.pc.mode, s.pc.env, x.step))
  {
    Unvisited(w, s);
    GatesAreUnguarded(w, x.step, s.pc.env);
  }

  /** Arrived there, it comes to wait. */
  lemma StoresAtGate(w: Workflow, c: Conditions, s: Run, x: Place, h: Wish, a: string)
    requires s.pc.Arrived? && s.pc.gate == x.step && s.pc.env == Granting(h) && s.pc.mode.Branch? == x.polled
    requires s.pc.mode.FirstWalk? ==> s.pc.mode.watch && s.entry.None?
    requires s.pc.mode.Branch? ==> s.pc.mode.item.approver == x.approver && !s.pc.mode.item.done
    requires HoldInvited(w, c.manager, s.pc.mode, s.pc.env)
    requires 0 <= x.step < |w.steps| && Waits(w.steps[x.step].verb)
    requires MayCarry(w, c.manager, x, a) && h.invites == Invites(w, x, a)
    ensures var stored := AtArrival(w, s);
            var t := if x.polled then Tick(w, stored) else stored;
            && t.pc.Idle? && t.alive == s.alive && t.commits == s.commits
            && t.entry.Some? && EntryCursor(t.entry.value) == Waiting(x.step)
            && t.entry.value.createdAt == Some(h.later) && t.entry.value.approver == a
  {
    if w.steps[x.step].verb == Approve { assert Has(w, Approve); }
  }

  lemma ActsInTurn(w: Workflow, s: Run)
    ensures Execute(w, s, [Act, Act]) == Tick(w, Tick(w, s))
    ensures Execute(w, s, [Act, Act, Act]) == Tick(w, Tick(w, Tick(w, s)))
  {
    hide Tick;
    assert [Act, Act, Act][1..] == [Act, Act] && [Act, Act][1..] == [Act] && [Act][1..] == [];
    assert forall t :: Execute(w, t, [Act]) == Tick(w, t);
    assert forall t :: Execute(w, t, [Act, Act]) == Execute(w, Tick(w, t), [Act]);
  }

  lemma StopsThere(w: Workflow, c: Conditions, s: Run, x: Place, h: Wish, a: string)
    requires Sound(w) && Stands(w, c, s, x, h)
    requires 0 <= x.step < |w.steps| && Waits(w.steps[x.step].verb)
    requires MayCarry(w, c.manager, x, a) && h.invites == Invites(w, x, a)
    ensures var stored := Tick(w, Tick(w, s));
            WaitsAt(w, c, if x.polled then Tick(w, stored) else stored, x.step, a, h.later)
  {
    ArrivesAtGate(w, c, s, x, h);
    var arrived := WalkTurn(w, s);
    StoresAtGate(w, c, arrived, x, h, a);
    NextKeeps(w, s, Act);
    NextKeeps(w, arrived, Act);
    NextKeeps(w, AtArrival(w, arrived), Act);
    assert Tick(w, s) == arrived && Tick(w, arrived) == AtArrival(w, arrived);
    hide Inv, Sound, WalkTurn, AtArrival, MayCarry, HoldInvited, Invites, Tick;
  }

  lemma StopAtGate(w: Workflow, c: Conditions, s: Run, x: Place, h: Wish, a: string) returns (xs: seq<Input>)
    requires Sound(w) && Stands(w, c, s, x, h)
    requires 0 <= x.step < |w.steps| && Waits(w.steps[x.step].verb)
    requires MayCarry(w, c.manager, x, a) && h.invites == Invites(w, x, a)
    ensures WaitsAt(w, c, Execute(w, s, xs), x.step, a, h.later) && OnlyActs(xs)
  {
    hide Sound, Stands, MayCarry, Invites, WaitsAt, Execute, Tick;
    StopsThere(w, c, s, x, h, a);
    ActsInTurn(w, s);
    xs := if x.polled then [Act, Act, Act] else [Act, Act];
  }

  /** A hold on which one person replied. */
  function Answered(email: string, reply: Calendar.Response): Calendar.Hold {
    Calendar.Hold("", "", [Calendar.Attendee("", email, Calendar.Required, reply)])
  }

  /** The gate hears the person its item carries, and nobody else is asked. */
  lemma AnsweredIsHeard(item: WatchItem, reply: Calendar.Response, a: string)
    requires reply == Calendar.Accepted || reply == Calendar.Declined
    ensures GateResponse(Answered(item.approver, reply), item) == reply
    ensures !Calendar.SameEmail(a, item.approver) ==> !Calendar.ApprovedBy(Answered(item.approver, reply), a)
  {
    var hold := Answered(item.approver, reply);
    assert hold.attendees[1..] == [];
    assert Calendar.FirstRequired(hold.attendees) == 0;
    assert Calendar.ReplyOf(hold.attendees, item.approver) == reply;
  }

  /** How long a gate may have to be waited for. */
  function Patience(w: Workflow, g: int): nat {
    if 0 <= g < |w.steps| then
      var d, t := Parsed(w.steps[g].delay), Parsed(w.steps[g].timeout);
      1 + (if d > 0 then d else 0) + if t > 0 then t else 0
    else 0
  }

  /** The replies with which gate `g` opens onto step `j` once it was waited for. */
  lemma GateCanOpen(w: Workflow, item: WatchItem, j: int, now: int) returns (hold: Calendar.Hold)
    requires 0 <= item.step < |w.steps| && Waits(w.steps[item.step].verb)
    requires item.createdAt.Some? && now >= item.createdAt.value + Patience(w, item.step)
    requires Opens(w, item.step, j) && j >= 0
    ensures var plan := BranchPlan(w, item, hold, now);
            plan.Open? && plan.from == j
  {
    var s := w.steps[item.step];
    hold := Calendar.Hold("", "", []);
    if s.verb == Approve {
      AnsweredIsHeard(item, Calendar.Accepted, "");
      AnsweredIsHeard(item, Calendar.Declined, "");
      if j == Next(w, item.step, ACCEPTED) {
        hold := Answered(item.approver, Calendar.Accepted);
      } else if j == BranchStart(w, s, DECLINED) {
        hold := Answered(item.approver, Calendar.Declined);
      }
    }
  }

  /** A poll that takes no time reads this hold. */
  function Reading(hold: Calendar.Hold, t: int): Env {
    Env(true, Fetched, hold, t, t, _ => DateAt(t) % 7, _ => false, true)
  }

  /** A poll opens the gate and commits the branch at step `j`. */
  lemma CommitBranch(w: Workflow, c: Conditions, s: Run, g: int, a: string, j: int, t: int, now: int)
    returns (hold: Calendar.Hold)
    requires Sound(w) && WaitsAt(w, c, s, g, a, t) && 0 <= g < |w.steps| && g != c.avoid
    requires Opens(w, g, j) && j >= 0 && now >= t + Patience(w, g)
    ensures var u := Tick(w, Poll(w, s, Reading(hold, now)));
            && Inv(w, u) && u.alive && !HasRead(u, c.avoid)
            && CursorOf(u) == Running(j) && u.entry.Some? && u.entry.value.approver == a
  {
    var item := s.entry.value;
    hold := GateCanOpen(w, item, j, now);
    var poll := Reading(hold, now);
    var read := Poll(w, s, poll);
    NextKeeps(w, s, Begin(poll));
    NextKeeps(w, read, Act);
    NothingReturnsToStart(w, g);
    PollReads(w, s, poll);
    hide Sound, Inv, Opens, Next, Poll, BranchPlan, GateResponse, Patience;
    CommitTick(w, read);
    hide Tick;
  }

  lemma PollReads(w: Workflow, s: Run, poll: Env)
    requires s.pc.Idle? && s.entry.Some? && s.alive && poll.loads && poll.fetch.Fetched?
    requires EntryCursor(s.entry.value).Waiting? && 0 <= s.entry.value.step < |w.steps|
    requires BranchPlan(w, s.entry.value, poll.hold, poll.now).Open?
    ensures var item := s.entry.value;
            var plan := BranchPlan(w, item, poll.hold, poll.now);
            Poll(w, s, poll)
            == s.(pc := Committing(item, poll, Commit(item.step, plan.outcome, plan.from, poll.hold, poll.now)))
  {}

  /** Whatever process finds a committed branch resumes it. */
  lemma ResumeBranch(w: Workflow, c: Conditions, s: Run, y: Place, h: Wish)
    requires Sound(w) && Inv(w, s) && s.alive && !HasRead(s, c.avoid) && s.pc.Idle?
    requires CursorOf(s) == Running(y.step) && s.entry.Some? && s.entry.value.approver == y.approver
    requires y.polled && |h.hold.attendees| == y.count && h.day == y.day
    ensures Stands(w, c, Poll(w, s, Granting(h)), y, h)
  {
    PollKeeps(w, s, Granting(h));
  }

  /** The gate opens, the process crashes, and another poll resumes the branch as it likes. */
  lemma CrossGate(w: Workflow, c: Conditions, s: Run, g: int, t: int, y: Place, h: Wish) returns (xs: seq<Input>)
    requires Sound(w) && WaitsAt(w, c, s, g, y.approver, t) && 0 <= g < |w.steps| && g != c.avoid
    requires Opens(w, g, y.step) && y.step >= 0 && y.polled && |h.hold.attendees| == y.count && h.day == y.day
    requires Timely(w, c, h) && h.now >= t + Patience(w, g)
    ensures Stands(w, c, Execute(w, s, xs), y, h)
    ensures Clocked(w, c.span, t, xs) && LastRead(t, xs) == h.later
  {
    var hold := CommitBranch(w, c, s, g, y.approver, y.step, t, h.now);
    var poll := Reading(hold, h.now);
    var committed := Tick(w, Poll(w, s, poll));
    NextKeeps(w, committed, Input.Crash);
    hide Inv, Sound, Tick, Poll, Stands, WaitsAt, Opens, Patience;
    ResumeBranch(w, c, committed.(pc := Idle), y, h);
    FourInputs(w, s, Begin(poll), Act, Input.Crash, Begin(Granting(h)));
    xs := [Begin(poll), Act, Input.Crash, Begin(Granting(h))];
    OneDayIsOnTime(w, c.span, h.now);
    TwoPollsAreClocked(w, c, t, poll, h);
  }

  lemma TwoPollsAreClocked(w: Workflow, c: Conditions, t: int, poll: Env, h: Wish)
    requires OnTime(w, c.span, poll.day, poll.now, poll.later) && Timely(w, c, h) && t <= poll.now
    requires poll.later <= h.now
    ensures var xs := [Begin(poll), Act, Input.Crash, Begin(Granting(h))];
            Clocked(w, c.span, t, xs) && LastRead(t, xs) == h.later
  {
    hide OnTime;
    var e, d := [Begin(Granting(h))], [Input.Crash, Begin(Granting(h))];
    var b := [Act, Input.Crash, Begin(Granting(h))];
    assert [Begin(poll), Act, Input.Crash, Begin(Granting(h))][1..] == b && b[1..] == d && d[1..] == e && e[1..] == [];
    assert Clocked(w, c.span, poll.later, e) && LastRead(poll.later, e) == h.later;
    assert Clocked(w, c.span, poll.later, d) && LastRead(poll.later, d) == h.later;
    assert Clocked(w, c.span, poll.later, b) && LastRead(poll.later, b) == h.later;
  }

  /** The step fails and is stored as the one to resume at. */
  lemma StoreFailed(w: Workflow, c: Conditions, s: Run, x: Place, h: Wish)
    requires Sound(w) && Stands(w, c, s, x, h) && h.step == x.step && h.fails && x.polled
    requires 0 <= x.step < |w.steps| && Acts(w.steps[x.step].verb) && Permits(w, x.step, x.count, x.day)
    ensures var t := Execute(w, s, [Act, Act]);
            && Inv(w, t) && t.alive && !HasRead(t, c.avoid) && t.pc.Idle? && t.log == s.log
            && CursorOf(t) == Running(x.step) && t.entry.Some? && t.entry.value.approver == x.approver
  {
    var i := x.step;
    Unvisited(w, s);
    assert GuardAllows(w, s.pc.env, i);
    var failed := WalkTurn(w, s);
    assert failed == s.(pc := Finishing(PollFailed, s.pc.mode.item.(resume := i)));
    assert i > 0 by { NothingReturnsToStart(w, 0); }
    hide Sound, Permits, GuardAllows, BranchPlan, HistoryOk;
    ActsInTurn(w, s);
    assert Tick(w, s) == failed;
    ExecuteKeeps(w, s, [Act, Act]);
    hide WalkTurn, Inv, Execute;
  }

  /** The step fails, and a later poll retries it with another hold. */
  lemma Retry(w: Workflow, c: Conditions, s: Run, x: Place, before: Wish, h: Wish) returns (xs: seq<Input>)
    requires Sound(w) && Stands(w, c, s, x, before) && before.step == x.step && before.fails
    requires x.polled && 0 <= x.step < |w.steps| && Acts(w.steps[x.step].verb) && Permits(w, x.step, x.count, x.day)
    requires Timely(w, c, h) && before.later <= h.now
    ensures Stands(w, c, Execute(w, s, xs), x.(count := |h.hold.attendees|, day := h.day), h)
    ensures Clocked(w, c.span, before.later, xs) && LastRead(before.later, xs) == h.later
  {
    StoreFailed(w, c, s, x, before);
    hide Stands, Sound, Permits, OnTime;
    var t := Execute(w, s, [Act, Act]);
    ResumeBranch(w, c, t, x.(count := |h.hold.attendees|, day := h.day), h);
    ExecuteAppend(w, s, [Act, Act], Begin(Granting(h)));
    xs := [Act, Act] + [Begin(Granting(h))];
    ActsTakeNoTime(w, c.span, before.later, [Act, Act]);
    assert [Begin(Granting(h))][1..] == [];
    assert Clocked(w, c.span, before.later, [Begin(Granting(h))]);
    ClockedJoin(w, c.span, before.later, [Act, Act], [Begin(Granting(h))]);
  }

  // ---------------------------------------------------------------------------------------
  // Along a route
  // ---------------------------------------------------------------------------------------

  /** Step `r` is not left behind at step `i`. */
  ghost predicate NotBehind(w: Workflow, i: int, r: int) {
    !Precedes(w, r, i)
  }

  lemma NotBehindBefore(w: Workflow, i: int, j: int, r: int)
    requires Edge(w, i, j) && NotBehind(w, j, r)
    ensures NotBehind(w, i, r) && r != i
  {
    EdgePrecedes(w, i, j);
    if Precedes(w, r, i) { PrecedesTransitive(w, r, i, j); }
  }

  lemma NothingPrecedes(w: Workflow, r: int, i: int)
    requires r < 0
    ensures NotBehind(w, i, r)
  {
    if Precedes(w, r, i) { PrecedesInRange(w, r, i); }
  }

  /** A hold with the given number of attendees. */
  function SomeHold(n: nat): Calendar.Hold {
    Calendar.Hold("", "", seq(n, _ => Calendar.Attendee("", "", Calendar.NoRole, Calendar.Blank)))
  }

  /** The hold a command creates, with `n` guests where the workflow lists guests. */
  function NewListing(w: Workflow, manager: string, n: nat): Calendar.Hold
    requires w.steps != []
  {
    NewHold(w, "", "", manager, SomeHold(n).attendees)
  }

  function CreatedIn(w: Workflow, manager: string, env: Env): Run
    requires w.steps != []
  {
    Created(w, "", true, manager, env)
  }

  lemma StartStands(w: Workflow, c: Conditions, x: Place, h: Wish)
    requires Workflows.Valid(w) && Sound(w) && Starts(w, c, x)
    requires h.hold == NewListing(w, c.manager, x.count) && h.day == x.day
    ensures Stands(w, c, CreatedIn(w, c.manager, Granting(h)), x, h)
  {
    CreatedOk(w, "", true, c.manager, Granting(h));
    if Has(w, Approve) {
      assert w.steps[0].verb == Hold;
      assert Calendar.FirstRequired(h.hold.attendees) == 0;
    }
  }

  /** The wish that can be had at a place: any the daemon fetches, or that of the hold just created. */
  function WishAt(w: Workflow, c: Conditions, y: Place, h: Wish): Wish
    requires w.steps != []
  {
    if y.polled then h else h.(hold := NewListing(w, c.manager, y.count))
  }

  /** A wish for the last walk to a place, met by a clock that reads it in time. */
  ghost predicate WishFits(w: Workflow, c: Conditions, y: Place, h: Wish) {
    && y.step >= 0 && NotBehind(w, y.step, h.step) && h.day == y.day && Timely(w, c, h)
    && (y.polled ==> |h.hold.attendees| == y.count)
  }

  /** A run that was created and polled by one clock stands at place `y`. */
  ghost predicate Arrives(w: Workflow, c: Conditions, env: Env, xs: seq<Input>, y: Place, h: Wish)
    requires w.steps != []
  {
    && Stands(w, c, Execute(w, CreatedIn(w, c.manager, env), xs), y, WishAt(w, c, y, h))
    && Real(w, c.span, env, xs) && LastRead(env.later, xs) == h.later
  }

  lemma WalksOn(w: Workflow, c: Conditions, env: Env, xs: seq<Input>, ys: seq<Input>, x: Place, g: Wish, y: Place,
                h: Wish)
    requires w.steps != [] && Arrives(w, c, env, xs, x, g)
    requires Clocked(w, c.span, g.later, ys) && LastRead(g.later, ys) == h.later
    requires Stands(w, c, Execute(w, Execute(w, CreatedIn(w, c.manager, env), xs), ys), y, WishAt(w, c, y, h))
    ensures Arrives(w, c, env, xs + ys, y, h)
  {
    hide Stands, OnTime;
    ExecuteJoin(w, CreatedIn(w, c.manager, env), xs, ys);
    ClockedJoin(w, c.span, env.later, xs, ys);
  }

  /** Some run follows any given route to its end, by one clock that never runs back. */
  lemma {:induction false} FollowRoute(w: Workflow, c: Conditions, p: seq<Place>, h: Wish)
    returns (env: Env, xs: seq<Input>)
    requires Workflows.Valid(w) && Sound(w) && IsRoute(w, c, p) && WishFits(w, c, p[|p| - 1], h)
    ensures Arrives(w, c, env, xs, p[|p| - 1], h)
    decreases |p|, 1
  {
    var n := |p| - 1;
    var y := p[n];
    if n == 0 {
      env, xs := Granting(WishAt(w, c, y, h)), [];
      StartStands(w, c, y, WishAt(w, c, y, h));
      assert Execute(w, CreatedIn(w, c.manager, env), xs) == CreatedIn(w, c.manager, env);
    } else {
      var x := p[n - 1];
      assert Hop(w, c, x, y);
      assert Spans(w, c.span, x.day) by { assert n > 1 ==> Hop(w, c, p[n - 2], x); }
      if Waits(w.steps[x.step].verb) {
        env, xs := FollowThroughGate(w, c, p, h);
      } else if y == x.(step := Next(w, x.step, ""))
                && (w.steps[x.step].verb == Cancel ==> !Permits(w, x.step, x.count, x.day)) {
        env, xs := FollowStep(w, c, p, h);
      } else {
        env, xs := FollowRetry(w, c, p, h);
      }
    }
  }

  lemma {:induction false} FollowThroughGate(w: Workflow, c: Conditions, p: seq<Place>, h: Wish)
    returns (env: Env, xs: seq<Input>)
    requires Workflows.Valid(w) && Sound(w) && IsRoute(w, c, p) && |p| > 1 && WishFits(w, c, p[|p| - 1], h)
    requires var x, y := p[|p| - 2], p[|p| - 1];
             Hop(w, c, x, y) && Waits(w.steps[x.step].verb) && Spans(w, c.span, x.day)
    ensures Arrives(w, c, env, xs, p[|p| - 1], h)
    decreases |p|, 0
  {
    var n := |p| - 1;
    var x, y := p[n - 1], p[n];
    hide Workflows.Valid, Stands, IsRoute, Execute, NewHold, MayCarry, OnTime, Spans, Clocked;
    NothingPrecedes(w, -1, x.step);
    var now, later := PickTime(w, c.span, x.day, h.now - Patience(w, x.step));
    var g := Wish(SomeHold(x.count), x.day, now, later, -1, false, Invites(w, x, y.approver));
    RouteFront(w, c, p);
    env, xs := FollowRoute(w, c, p[..n], g);
    var s := Execute(w, CreatedIn(w, c.manager, env), xs);
    var ys := StopAtGate(w, c, s, x, WishAt(w, c, x, g), y.approver);
    var zs := CrossGate(w, c, Execute(w, s, ys), x.step, later, y, h);
    ExecuteJoin(w, s, ys, zs);
    ActsTakeNoTime(w, c.span, later, ys);
    ClockedJoin(w, c.span, later, ys, zs);
    WalksOn(w, c, env, xs, ys + zs, x, g, y, h);
    xs := xs + (ys + zs);
  }

  lemma {:induction false} FollowStep(w: Workflow, c: Conditions, p: seq<Place>, h: Wish)
    returns (env: Env, xs: seq<Input>)
    requires Workflows.Valid(w) && Sound(w) && IsRoute(w, c, p) && |p| > 1 && WishFits(w, c, p[|p| - 1], h)
    requires var x, y := p[|p| - 2], p[|p| - 1];
             && 0 <= x.step < |w.steps| && !Waits(w.steps[x.step].verb) && y == x.(step := Next(w, x.step, ""))
             && (w.steps[x.step].verb == Cancel ==> !Permits(w, x.step, x.count, x.day))
    ensures Arrives(w, c, env, xs, p[|p| - 1], h)
    decreases |p|, 0
  {
    var n := |p| - 1;
    var x, y := p[n - 1], p[n];
    hide Workflows.Valid, Stands, IsRoute, Execute, NewHold, OnTime, Spans, Clocked;
    WalkMoveIsEdge(w, x.step);
    NotBehindBefore(w, x.step, y.step, h.step);
    RouteFront(w, c, p);
    env, xs := FollowRoute(w, c, p[..n], h);
    var ys := PassOn(w, c, Execute(w, CreatedIn(w, c.manager, env), xs), x, WishAt(w, c, x, h));
    ActsTakeNoTime(w, c.span, h.later, ys);
    WalksOn(w, c, env, xs, ys, x, h, y, h);
    xs := xs + ys;
  }

  lemma {:induction false} FollowRetry(w: Workflow, c: Conditions, p: seq<Place>, h: Wish)
    returns (env: Env, xs: seq<Input>)
    requires Workflows.Valid(w) && Sound(w) && IsRoute(w, c, p) && |p| > 1 && WishFits(w, c, p[|p| - 1], h)
    requires var x, y := p[|p| - 2], p[|p| - 1];
             && 0 <= x.step < |w.steps| && Spans(w, c.span, x.day) && x.polled
             && y == x.(count := y.count, day := y.day)
             && Acts(w.steps[x.step].verb) && Permits(w, x.step, x.count, x.day)
    ensures Arrives(w, c, env, xs, p[|p| - 1], h)
    decreases |p|, 0
  {
    var n := |p| - 1;
    var x, y := p[n - 1], p[n];
    assert NotBehind(w, x.step, x.step);
    hide Workflows.Valid, Stands, IsRoute, Execute, NewHold, OnTime, Spans, Clocked;
    var now, later := PickTime(w, c.span, x.day, h.now);
    var g := Wish(SomeHold(x.count), x.day, now, later, x.step, true, true);
    RouteFront(w, c, p);
    env, xs := FollowRoute(w, c, p[..n], g);
    var ys := Retry(w, c, Execute(w, CreatedIn(w, c.manager, env), xs), x, g, h);
    WalksOn(w, c, env, xs, ys, x, g, y, h);
    xs := xs + ys;
  }

  lemma RouteFront(w: Workflow, c: Conditions, p: seq<Place>)
    requires w.steps != [] && IsRoute(w, c, p) && |p| > 1
    ensures IsRoute(w, c, p[..|p| - 1]) && p[..|p| - 1][|p| - 2] == p[|p| - 2]
  {}

  /** Some run comes to stand at any reachable place. */
  lemma ReachPlace(w: Workflow, c: Conditions, y: Place, h: Wish) returns (env: Env, xs: seq<Input>)
    requires Workflows.Valid(w) && Sound(w) && Reachable(w, c, y) && WishFits(w, c, y, h)
    ensures Arrives(w, c, env, xs, y, h)
  {
    var p :| IsRoute(w, c, p) && p[|p| - 1] == y;
    env, xs := FollowRoute(w, c, p, h);
  }
}
