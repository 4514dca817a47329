/** The daemon itself, over one watch file shared by all holds. Each method performs real actions one at a
    time and is proved to move the protocol machine of the hold it works on, and no other; its ghost trace
    is a history of atomic actions, which shows what a crash at any moment leaves behind, and a new daemon
    starts from any of its moments. The lemmas before the class say what one action and one pass come to
    (cmd/daemon.go, cmd/run.go, cmd/watch.go). */
module Daemons {
  import opened Base
  import opened Workflows
  import opened Protocol
  import opened Forward
  import opened WatchList
  import opened Histories
  import opened Polls
  import Calendar

  /** From `a` to `b` the machine only took actions of its own. */
  ghost predicate OnlyActed(a: Tracked, b: Tracked) {
    && b.flow == a.flow && b.order == a.order && a.inputs <= b.inputs
    && (forall i :: |a.inputs| <= i < |b.inputs| ==> b.inputs[i] == Act)
    && Settle(b.flow, b.run) == Settle(a.flow, a.run)
  }

  lemma LaterMoveWins(runs: map<Key, Tracked>, k: Key, a: Tracked, b: Tracked)
    ensures runs[k := a][k := b] == runs[k := b]
  {}

  lemma OnlyActedAtFirst(a: Tracked)
    ensures OnlyActed(a, a)
  {}

  lemma OnlyActedJoins(a: Tracked, b: Tracked, c: Tracked)
    requires OnlyActed(a, b) && OnlyActed(b, c)
    ensures OnlyActed(a, c)
  {
    forall i | |a.inputs| <= i < |c.inputs|
      ensures c.inputs[i] == Act
    {
      if i < |b.inputs| { assert c.inputs[i] == b.inputs[i]; }
    }
  }

  lemma ActIsAStep(a: Tracked)
    ensures var t := Stepped(a, Act);
            && TookAStep(a, t) && OnlyActed(a, t)
            && t.flow == a.flow && t.order == a.order && t.run == Tick(a.flow, a.run)
  {
    hide Tick;
    SettleTick(a.flow, a.run);
  }

  lemma PollIsAStep(a: Tracked, env: Env)
    ensures var t := Stepped(a, Begin(env));
            && TookAStep(a, t) && t.flow == a.flow && t.order == a.order && t.run == Poll(a.flow, a.run, env)
            && t.run.entry == a.run.entry && Unseen(a.run, t.run)
  {
    hide BranchPlan;
  }

  lemma OneMachineSteps(a: Snapshot, b: Snapshot, k: Key, t: Tracked)
    requires k in a.runs && TookAStep(a.runs[k], t) && b.runs == a.runs[k := t]
    ensures StepApart(a, b)
  {}

  lemma FileFollows(a: Snapshot, b: Snapshot, k: Key, t: Tracked)
    requires FileMirrors(a) && k in a.runs && b.runs == a.runs[k := t]
    requires Unique(b.watches) && Entry(b.watches, k) == t.run.entry
    requires forall other :: other != k ==> Entry(b.watches, other) == Entry(a.watches, other)
    ensures FileMirrors(b)
  {
    forall item | item in b.watches
      ensures KeyOf(item) in b.runs
    {
      if KeyOf(item) != k { assert Entry(a.watches, KeyOf(item)).Some?; }
    }
  }

  lemma StoreFollows(watches: seq<WatchItem>, runs: map<Key, Tracked>, item: WatchItem, t: Tracked)
    requires FileMirrors(Snapshot(watches, runs)) && KeyOf(item) in runs && t.run.entry == Some(item)
    ensures FileMirrors(Snapshot(Stored(watches, item), runs[KeyOf(item) := t]))
  {
    StoredKeepsUnique(watches, item);
    forall other
      ensures Entry(Stored(watches, item), other)
              == if other == KeyOf(item) then Some(item) else Entry(watches, other)
    {
      StoredEntries(watches, item, other);
    }
    FileFollows(Snapshot(watches, runs), Snapshot(Stored(watches, item), runs[KeyOf(item) := t]), KeyOf(item), t);
  }

  lemma DropFollows(watches: seq<WatchItem>, runs: map<Key, Tracked>, k: Key, t: Tracked)
    requires FileMirrors(Snapshot(watches, runs)) && k in runs && t.run.entry == None
    ensures FileMirrors(Snapshot(Without(watches, k), runs[k := t]))
  {
    WithoutKeepsUnique(watches, k);
    forall other | other != k
      ensures Entry(Without(watches, k), other) == Entry(watches, other)
    {
      EntryWithout(watches, k, other);
    }
    FileFollows(Snapshot(watches, runs), Snapshot(Without(watches, k), runs[k := t]), k, t);
  }

  lemma WorldStays(deleted: set<Key>, effects: seq<Effect>, invites: set<Invitation>, runs: map<Key, Tracked>,
                   k: Key, t: Tracked)
    requires WorldMirrors(deleted, effects, invites, runs) && k in runs
    requires Unseen(runs[k].run, t.run)
    ensures WorldMirrors(deleted, effects, invites, runs[k := t])
  {
    assert HoldMirrors(deleted, effects, invites, k, runs[k].run);
  }

  lemma EffectFollows(deleted: set<Key>, effects: seq<Effect>, invites: set<Invitation>, runs: map<Key, Tracked>,
                      k: Key, t: Tracked, i: nat, cancels: bool)
    requires WorldMirrors(deleted, effects, invites, runs) && k in runs
    requires t.run.alive == (runs[k].run.alive && !cancels) && t.run.log == runs[k].run.log + [i]
    requires t.run.invited == runs[k].run.invited
    ensures WorldMirrors(if cancels then deleted + {k} else deleted, effects + [Effect(k, i)], invites,
                         runs[k := t])
  {
    assert HoldMirrors(deleted, effects, invites, k, runs[k].run);
  }

  lemma InviteFollows(deleted: set<Key>, effects: seq<Effect>, invites: set<Invitation>, runs: map<Key, Tracked>,
                      k: Key, t: Tracked, email: string)
    requires WorldMirrors(deleted, effects, invites, runs) && k in runs
    requires t.run.alive == runs[k].run.alive && t.run.log == runs[k].run.log
    requires t.run.invited == runs[k].run.invited + {email}
    ensures WorldMirrors(deleted, effects, invites + {Invitation(k, email)}, runs[k := t])
  {
    assert HoldMirrors(deleted, effects, invites, k, runs[k].run);
  }

  lemma FlowStays(load: string -> Workflow, watches: seq<WatchItem>, runs: map<Key, Tracked>, k: Key, t: Tracked)
    requires FlowsMirror(load, watches, runs) && k in runs && t.flow == runs[k].flow
    ensures FlowsMirror(load, watches, runs[k := t])
    ensures FlowsMirror(load, Without(watches, k), runs[k := t])
  {}

  lemma StoredFlowStays(load: string -> Workflow, watches: seq<WatchItem>, runs: map<Key, Tracked>,
                        item: WatchItem, t: Tracked)
    requires FlowsMirror(load, watches, runs) && KeyOf(item) in runs
    requires t.flow == runs[KeyOf(item)].flow == load(item.workflow)
    ensures FlowsMirror(load, Stored(watches, item), runs[KeyOf(item) := t])
  {}

  /** The history after one step of one machine. */
  lemma StepTrace(load: string -> Workflow, trace: seq<Moment>, k: Key, t: Tracked, next: Moment)
    requires trace != [] && TraceOk(load, trace) && MomentOk(load, next)
    requires var runs := Now(trace).seen.runs;
             k in runs && TookAStep(runs[k], t) && next.seen.runs == runs[k := t]
    ensures TraceOk(load, trace + [next])
  {
    hide MomentOk, StepApart, TookAStep;
    OneMachineSteps(Now(trace).seen, next.seen, k, t);
    TraceGrows(load, trace, next);
  }

  lemma NowIsOk(load: string -> Workflow, trace: seq<Moment>)
    requires trace != [] && TraceOk(load, trace)
    ensures MomentOk(load, Now(trace))
  {
    hide MomentOk;
    assert Linked(load, trace, |trace| - 1);
  }

  lemma StepKeepsFlow(a: Tracked, b: Tracked)
    requires TookAStep(a, b)
    ensures b.flow == a.flow
  {}

  /** The provider sees nothing of a step from `s` to `t`. */
  predicate Unseen(s: Run, t: Run) {
    t.alive == s.alive && t.log == s.log && t.invited == s.invited
  }

  lemma QuietTrace(load: string -> Workflow, trace: seq<Moment>, k: Key, t: Tracked)
    requires trace != [] && TraceOk(load, trace)
    requires var runs := Now(trace).seen.runs;
             k in runs && TookAStep(runs[k], t) && t.run.entry == runs[k].run.entry && Unseen(runs[k].run, t.run)
    ensures var now := Now(trace);
            TraceOk(load, trace + [now.(seen := Snapshot(now.seen.watches, now.seen.runs[k := t]))])
  {
    var now := Now(trace);
    var Moment(seen, deleted, effects, invites) := now;
    NowIsOk(load, trace);
    StepKeepsFlow(seen.runs[k], t);
    hide TraceOk, TookAStep, WorldMirrors, FlowsMirror, Unique;
    FileFollows(seen, Snapshot(seen.watches, seen.runs[k := t]), k, t);
    hide FileMirrors, Entry;
    WorldStays(deleted, effects, invites, seen.runs, k, t);
    FlowStays(load, seen.watches, seen.runs, k, t);
    StepTrace(load, trace, k, t, now.(seen := Snapshot(seen.watches, seen.runs[k := t])));
  }

  lemma StoreTrace(load: string -> Workflow, trace: seq<Moment>, item: WatchItem, t: Tracked)
    requires trace != [] && TraceOk(load, trace)
    requires var runs, k := Now(trace).seen.runs, KeyOf(item);
             && k in runs && TookAStep(runs[k], t) && t.run.entry == Some(item) && runs[k].flow == load(item.workflow)
             && Unseen(runs[k].run, t.run)
    ensures var now := Now(trace);
            TraceOk(load, trace + [now.(seen := Snapshot(Stored(now.seen.watches, item),
                                                         now.seen.runs[KeyOf(item) := t]))])
  {
    var now, k := Now(trace), KeyOf(item);
    var Moment(seen, deleted, effects, invites) := now;
    NowIsOk(load, trace);
    StepKeepsFlow(seen.runs[k], t);
    hide TraceOk, TookAStep, WorldMirrors, FlowsMirror, FileMirrors, Stored;
    StoreFollows(seen.watches, seen.runs, item, t);
    WorldStays(deleted, effects, invites, seen.runs, k, t);
    StoredFlowStays(load, seen.watches, seen.runs, item, t);
    StepTrace(load, trace, k, t, now.(seen := Snapshot(Stored(seen.watches, item), seen.runs[k := t])));
  }

  lemma DropTrace(load: string -> Workflow, trace: seq<Moment>, k: Key, t: Tracked)
    requires trace != [] && TraceOk(load, trace)
    requires var runs := Now(trace).seen.runs;
             k in runs && TookAStep(runs[k], t) && t.run.entry == None && Unseen(runs[k].run, t.run)
    ensures var now := Now(trace);
            TraceOk(load, trace + [now.(seen := Snapshot(Without(now.seen.watches, k), now.seen.runs[k := t]))])
  {
    var now := Now(trace);
    var Moment(seen, deleted, effects, invites) := now;
    NowIsOk(load, trace);
    StepKeepsFlow(seen.runs[k], t);
    hide TraceOk, TookAStep, WorldMirrors, FlowsMirror, FileMirrors;
    DropFollows(seen.watches, seen.runs, k, t);
    WorldStays(deleted, effects, invites, seen.runs, k, t);
    FlowStays(load, seen.watches, seen.runs, k, t);
    StepTrace(load, trace, k, t, now.(seen := Snapshot(Without(seen.watches, k), seen.runs[k := t])));
  }

  lemma EffectTrace(load: string -> Workflow, trace: seq<Moment>, k: Key, t: Tracked, i: nat, cancels: bool)
    requires trace != [] && TraceOk(load, trace)
    requires var runs := Now(trace).seen.runs;
             && k in runs && TookAStep(runs[k], t) && t.run.entry == runs[k].run.entry
             && t.run.alive == (runs[k].run.alive && !cancels) && t.run.log == runs[k].run.log + [i]
             && t.run.invited == runs[k].run.invited
    ensures var now := Now(trace);
            TraceOk(load, trace + [Moment(Snapshot(now.seen.watches, now.seen.runs[k := t]),
                                          if cancels then now.deleted + {k} else now.deleted,
                                          now.effects + [Effect(k, i)], now.invites)])
  {
    var Moment(seen, deleted, effects, invites) := Now(trace);
    var next, gone := Snapshot(seen.watches, seen.runs[k := t]), if cancels then deleted + {k} else deleted;
    NowIsOk(load, trace);
    StepKeepsFlow(seen.runs[k], t);
    hide TraceOk, TookAStep, WorldMirrors, FlowsMirror, Unique;
    FileFollows(seen, next, k, t);
    hide FileMirrors, Entry;
    EffectFollows(deleted, effects, invites, seen.runs, k, t, i, cancels);
    FlowStays(load, seen.watches, seen.runs, k, t);
    StepTrace(load, trace, k, t, Moment(next, gone, effects + [Effect(k, i)], invites));
  }

  lemma InviteTrace(load: string -> Workflow, trace: seq<Moment>, k: Key, t: Tracked, email: string)
    requires trace != [] && TraceOk(load, trace)
    requires var runs := Now(trace).seen.runs;
             && k in runs && TookAStep(runs[k], t) && t.run.entry == runs[k].run.entry
             && t.run.alive == runs[k].run.alive && t.run.log == runs[k].run.log
             && t.run.invited == runs[k].run.invited + {email}
    ensures var now := Now(trace);
            TraceOk(load, trace + [Moment(Snapshot(now.seen.watches, now.seen.runs[k := t]), now.deleted,
                                          now.effects, now.invites + {Invitation(k, email)})])
  {
    var Moment(seen, deleted, effects, invites) := Now(trace);
    var next := Snapshot(seen.watches, seen.runs[k := t]);
    NowIsOk(load, trace);
    StepKeepsFlow(seen.runs[k], t);
    hide TraceOk, TookAStep, WorldMirrors, FlowsMirror, Unique;
    FileFollows(seen, next, k, t);
    hide FileMirrors, Entry;
    InviteFollows(deleted, effects, invites, seen.runs, k, t, email);
    FlowStays(load, seen.watches, seen.runs, k, t);
    StepTrace(load, trace, k, t, Moment(next, deleted, effects, invites + {Invitation(k, email)}));
  }

  /** The action that performs a step. */
  lemma EffectTick(w: Workflow, s: Run)
    requires s.pc.Walking? && 0 <= s.pc.at < |w.steps| && s.pc.at !in s.pc.visited
    requires GuardAllows(w, s.pc.env, s.pc.at) && Acts(w.steps[s.pc.at].verb) && !s.pc.env.fails(s.pc.at)
    ensures var t, Walking(mode, env, i, visited) := Tick(w, s), s.pc;
            && t.pc == Performed(mode, env, i, visited + {i}) && t.log == s.log + [i] && t.entry == s.entry
            && t.alive == (s.alive && w.steps[i].verb != Cancel) && t.invited == s.invited
  {
    hide GuardAllows, Next;
  }

  /** The action at a gate where a branch arrives. */
  lemma ArrivalTick(w: Workflow, s: Run)
    requires s.pc.Arrived? && s.pc.mode.Branch?
    ensures var t, Arrived(Branch(item, _), env, gate) := Tick(w, s), s.pc;
            var named := gate < |w.steps| && w.steps[gate].verb == Approve && w.steps[gate].approver != "";
            && t.entry == s.entry && t.alive == s.alive && t.log == s.log
            && t.invited == (if named && env.invites then s.invited + {w.steps[gate].approver} else s.invited)
            && t.pc == Finishing(if named && !env.invites then PollFailed else PollAdvanced,
                                 item.(resume := 0, step := gate, createdAt := Some(env.later),
                                       approver := if !named then "" else if env.invites then w.steps[gate].approver
                                                   else item.approver))
  {}

  /** The action after a hold was deleted. */
  lemma CancelTick(w: Workflow, s: Run)
    requires s.pc.Performed? && s.pc.step < |w.steps| && w.steps[s.pc.step].verb == Cancel
    ensures var t := Tick(w, s);
            t.entry.None? && t.pc == Forgotten(s.pc.mode) && Unseen(s, t)
  {}

  lemma ActedToRest(a: Tracked, b: Tracked)
    requires OnlyActed(a, b) && b.run.pc.Idle?
    ensures b.run == Settle(a.flow, a.run)
  {}

  /** A created run starts afresh, and whoever its hold lists is invited. */
  lemma CreatedInvites(w: Workflow, o: Order)
    requires w.steps != []
    ensures JustCreated(NewlyTracked(w, o))
    ensures var s := NewlyTracked(w, o).run;
            var hold := NewHold(w, o.env.hold.id, o.env.hold.subject, o.manager, o.env.hold.attendees);
            && s.entry.None? && s.alive && s.log == []
            && forall e :: e in s.invited <==> exists a :: a in hold.attendees && a.email == e
  {}

  /** A new hold has no entry yet, and its machine is just created. */
  lemma BirthTrace(load: string -> Workflow, trace: seq<Moment>, k: Key, t: Tracked, sent: set<Invitation>)
    requires trace != [] && TraceOk(load, trace) && JustCreated(t) && t.run.entry.None?
    requires var now := Now(trace);
             && k !in now.seen.runs && k !in now.deleted && EffectsOf(now.effects, k) == []
             && forall e :: Invitation(k, e) !in now.invites
    requires t.run.alive && t.run.log == []
    requires forall i :: i in sent <==> i.key == k && i.email in t.run.invited
    ensures var now := Now(trace);
            TraceOk(load, trace + [now.(seen := Snapshot(now.seen.watches, now.seen.runs[k := t]),
                                        invites := now.invites + sent)])
  {
    assert Linked(load, trace, |trace| - 1);
    var now := Now(trace);
    var Moment(seen, deleted, effects, invites) := now;
    var next := Snapshot(seen.watches, seen.runs[k := t]);
    hide JustCreated, Entry, EffectsOf;
    BirthMirrors(load, seen, k, t);
    hide FileMirrors, WorldMirrors, FlowsMirror, StepApart;
    TraceGrows(load, trace, now.(seen := next, invites := invites + sent));
  }

  lemma BirthMirrors(load: string -> Workflow, seen: Snapshot, k: Key, t: Tracked)
    requires FileMirrors(seen) && FlowsMirror(load, seen.watches, seen.runs)
    requires k !in seen.runs && JustCreated(t) && t.run.entry.None?
    ensures var next := Snapshot(seen.watches, seen.runs[k := t]);
            FileMirrors(next) && StepApart(seen, next) && FlowsMirror(load, next.watches, next.runs)
  {
    hide JustCreated, TookAStep;
  }

  // ---------------------------------------------------------------------------------------
  // A pass
  // ---------------------------------------------------------------------------------------

  /** What a pass has made of one hold before its final save: its machine has begun its own poll and acted to
      the end of it, or nothing happened to it. */
  ghost predicate Polled(before: Tracked, now: Tracked, env: Env, builds: bool, prune: bool,
                         outcome: Option<WatchItem>) {
    if builds then
      && OnlyActed(Stepped(before, Begin(env)), now) && now.run.pc.Finishing?
      && outcome == if Keeps(now.run.pc.result) then Some(now.run.pc.item) else None
    else
      && now == before && now.run.pc.Idle?
      && outcome == if prune then None else before.run.entry
  }

  ghost predicate PlacePolled(item: WatchItem, start: map<Key, Tracked>, runs: map<Key, Tracked>, envs: Key -> Env,
                              builds: Key -> bool, prune: bool, o: Option<WatchItem>) {
    var k := KeyOf(item);
    k in start && k in runs && Polled(start[k], runs[k], envs(k), builds(k), prune, o)
  }

  /** The holds at the first places of the list are polled, every other machine is untouched. */
  ghost predicate PassStands(list: seq<WatchItem>, start: map<Key, Tracked>, runs: map<Key, Tracked>, envs: Key -> Env,
                             builds: Key -> bool, prune: bool, outcomes: seq<Option<WatchItem>>) {
    && runs.Keys == start.Keys
    && OutcomesFor(list, outcomes)
    && (forall j :: 0 <= j < |outcomes| ==> PlacePolled(list[j], start, runs, envs, builds, prune, outcomes[j]))
    && (forall k :: k in start && NoneFor(list, |outcomes|, k) ==> runs[k] == start[k])
  }

  lemma StillUntouched(list: seq<WatchItem>, start: map<Key, Tracked>, runs: map<Key, Tracked>, envs: Key -> Env,
                       builds: Key -> bool, prune: bool, outcomes: seq<Option<WatchItem>>)
    requires Unique(list) && PassStands(list, start, runs, envs, builds, prune, outcomes)
    requires |outcomes| < |list| && KeyOf(list[|outcomes|]) in start
    ensures var k := KeyOf(list[|outcomes|]);
            NoneFor(list, |outcomes|, k) && k in runs && runs[k] == start[k]
  {}

  /** Every hold of the list rests with its item stored. */
  ghost predicate AtRest(list: seq<WatchItem>, runs: map<Key, Tracked>) {
    && Unique(list)
    && forall i :: 0 <= i < |list| ==>
         var k := KeyOf(list[i]); k in runs && runs[k].run.pc.Idle? && runs[k].run.entry == Some(list[i])
  }

  /** Moving one hold's machine leaves the places of the others as they were. */
  lemma PlacesStay(list: seq<WatchItem>, start: map<Key, Tracked>, runs: map<Key, Tracked>, envs: Key -> Env,
                   builds: Key -> bool, prune: bool, outcomes: seq<Option<WatchItem>>, k: Key, t: Tracked)
    requires |outcomes| <= |list| && NoneFor(list, |outcomes|, k) && k in runs
    requires forall j :: 0 <= j < |outcomes| ==> PlacePolled(list[j], start, runs, envs, builds, prune, outcomes[j])
    ensures forall j :: 0 <= j < |outcomes| ==>
              PlacePolled(list[j], start, runs[k := t], envs, builds, prune, outcomes[j])
  {
    hide Polled;
    forall j | 0 <= j < |outcomes|
      ensures PlacePolled(list[j], start, runs[k := t], envs, builds, prune, outcomes[j])
    {
      assert KeyOf(list[j]) != k && PlacePolled(list[j], start, runs, envs, builds, prune, outcomes[j]);
    }
  }

  lemma OutcomesGrow(list: seq<WatchItem>, outcomes: seq<Option<WatchItem>>, o: Option<WatchItem>)
    requires OutcomesFor(list, outcomes) && |outcomes| < |list|
    requires o.Some? ==> KeyOf(o.value) == KeyOf(list[|outcomes|])
    ensures OutcomesFor(list, outcomes + [o])
  {}

  lemma PassExtends(list: seq<WatchItem>, start: map<Key, Tracked>, runs: map<Key, Tracked>, envs: Key -> Env,
                    builds: Key -> bool, prune: bool, outcomes: seq<Option<WatchItem>>, t: Tracked,
                    o: Option<WatchItem>)
    requires PassStands(list, start, runs, envs, builds, prune, outcomes) && |outcomes| < |list|
    requires NoneFor(list, |outcomes|, KeyOf(list[|outcomes|]))
    requires var k := KeyOf(list[|outcomes|]);
             && k in start && (o.Some? ==> KeyOf(o.value) == k)
             && Polled(start[k], t, envs(k), builds(k), prune, o)
    ensures PassStands(list, start, runs[KeyOf(list[|outcomes|]) := t], envs, builds, prune, outcomes + [o])
  {
    hide Polled;
    var n := |outcomes|;
    var k := KeyOf(list[n]);
    var runs' := runs[k := t];
    OutcomesGrow(list, outcomes, o);
    PlacesStay(list, start, runs, envs, builds, prune, outcomes, k, t);
    assert PlacePolled(list[n], start, runs', envs, builds, prune, o);
    hide PlacePolled, OutcomesFor, KeyOf;
    forall other | other in start && NoneFor(list, n + 1, other)
      ensures runs'[other] == start[other]
    {
      assert KeyOf(list[n]) != other;
      assert NoneFor(list, n, other);
    }
  }

  /** What a whole pass makes of a hold's machine: it begins its own poll and acts until that is over, or,
      when its provider cannot be built, it stays put or is dropped. */
  ghost predicate Passed(before: Tracked, after: Tracked, env: Env, builds: bool, prune: bool) {
    if before.run.entry.None? then after == before
    else if builds then
      && OnlyActed(Stepped(before, Begin(env)), after)
      && after.run == Settle(before.flow, Poll(before.flow, before.run, env))
    else
      after == Stepped(before, Unavailable(prune))
  }

  /** What the final save makes of it. */
  function Saved(now: Tracked, builds: bool, prune: bool): Tracked {
    Stepped(now, if builds then Act else Unavailable(prune))
  }

  lemma SavedRests(before: Tracked, now: Tracked, env: Env, builds: bool, prune: bool, outcome: Option<WatchItem>)
    requires Polled(before, now, env, builds, prune, outcome) && before.run.entry.Some?
    ensures var t := Saved(now, builds, prune);
            t.run.pc.Idle? && t.run.entry == outcome && TookAStep(now, t) && Unseen(now.run, t.run)
            && Passed(before, t, env, builds, prune)
  {
    if builds {
      hide OnlyActed;
      ActIsAStep(now);
      OnlyActedJoins(Stepped(before, Begin(env)), now, Stepped(now, Act));
    }
  }

  /** The machines after the final save: each listed hold's takes its last step. */
  function AfterSave(start: map<Key, Tracked>, runs: map<Key, Tracked>, builds: Key -> bool,
                     prune: bool): map<Key, Tracked>
    requires runs.Keys == start.Keys
  {
    map k | k in runs ::
      if start[k].run.entry.Some? then Saved(runs[k], builds(k), prune) else runs[k]
  }

  /** A whole pass: every hold of the list it started from is polled. */
  ghost predicate PassDone(list: seq<WatchItem>, start: map<Key, Tracked>, runs: map<Key, Tracked>, envs: Key -> Env,
                           builds: Key -> bool, prune: bool, outcomes: seq<Option<WatchItem>>) {
    && runs.Keys == start.Keys
    && FileMirrors(Snapshot(list, start))
    && PassStands(list, start, runs, envs, builds, prune, outcomes)
    && |outcomes| == |list|
  }

  /** A listed hold has an outcome, and an unlisted one has no entry. */
  lemma PlaceOf(list: seq<WatchItem>, start: map<Key, Tracked>, k: Key) returns (j: int)
    requires FileMirrors(Snapshot(list, start)) && k in start
    ensures start[k].run.entry.Some? ==> 0 <= j < |list| && KeyOf(list[j]) == k && start[k].run.entry == Some(list[j])
    ensures start[k].run.entry.None? ==> NoneFor(list, |list|, k)
  {
    assert Entry(list, k) == start[k].run.entry;
    if start[k].run.entry.Some? {
      j :| 0 <= j < |list| && list[j] == start[k].run.entry.value;
    } else {
      j := -1;
      assert forall x :: x in list ==> KeyOf(x) != k;
    }
  }

  lemma SaveOne(list: seq<WatchItem>, start: map<Key, Tracked>, runs: map<Key, Tracked>, envs: Key -> Env,
                builds: Key -> bool, prune: bool, outcomes: seq<Option<WatchItem>>, k: Key)
    requires PassDone(list, start, runs, envs, builds, prune, outcomes) && k in start
    ensures var next := AfterSave(start, runs, builds, prune);
            && next[k].flow == start[k].flow && next[k].run.entry == Entry(Kept(outcomes), k)
            && (next[k] == runs[k] || TookAStep(runs[k], next[k])) && Unseen(runs[k].run, next[k].run)
            && Passed(start[k], next[k], envs(k), builds(k), prune)
  {
    hide Settle, Poll, Apply, TookAStep, Tick;
    KeptEntries(list, outcomes);
    var j := PlaceOf(list, start, k);
    if start[k].run.entry.Some? {
      SavedRests(start[k], runs[k], envs(k), builds(k), prune, outcomes[j]);
    } else {
      assert Entry(Kept(outcomes), k) == None;
    }
  }

  lemma SaveMirrors(list: seq<WatchItem>, start: map<Key, Tracked>, runs: map<Key, Tracked>, envs: Key -> Env,
                    builds: Key -> bool, prune: bool, outcomes: seq<Option<WatchItem>>)
    requires PassDone(list, start, runs, envs, builds, prune, outcomes)
    ensures FileMirrors(Snapshot(Kept(outcomes), AfterSave(start, runs, builds, prune)))
  {
    hide Settle, Poll, Apply, TookAStep, Tick, Passed, Polled;
    var next := AfterSave(start, runs, builds, prune);
    forall k | k in start
      ensures next[k].run.entry == Entry(Kept(outcomes), k)
    {
      SaveOne(list, start, runs, envs, builds, prune, outcomes, k);
    }
    KeptEntriesUnique(list, outcomes, start, runs, envs, builds, prune);
    KeptAreKnown(list, start, runs, envs, builds, prune, outcomes);
  }

  lemma KeptAreKnown(list: seq<WatchItem>, start: map<Key, Tracked>, runs: map<Key, Tracked>, envs: Key -> Env,
                     builds: Key -> bool, prune: bool, outcomes: seq<Option<WatchItem>>)
    requires PassDone(list, start, runs, envs, builds, prune, outcomes)
    ensures forall x :: x in Kept(outcomes) ==> KeyOf(x) in start
  {
    hide Polled;
    forall x | x in Kept(outcomes)
      ensures KeyOf(x) in start
    {
      var j := KeptFrom(outcomes, x);
      assert PlacePolled(list[j], start, runs, envs, builds, prune, outcomes[j]);
    }
  }

  lemma SaveSteps(list: seq<WatchItem>, start: map<Key, Tracked>, runs: map<Key, Tracked>, envs: Key -> Env,
                  builds: Key -> bool, prune: bool, outcomes: seq<Option<WatchItem>>, watches: seq<WatchItem>)
    requires PassDone(list, start, runs, envs, builds, prune, outcomes)
    ensures StepApart(Snapshot(watches, runs), Snapshot(Kept(outcomes), AfterSave(start, runs, builds, prune)))
  {
    hide Settle, Poll, Apply, TookAStep, Tick, FileMirrors, PassStands;
    var next := AfterSave(start, runs, builds, prune);
    forall k | k in start
      ensures next[k] == runs[k] || TookAStep(runs[k], next[k])
    {
      SaveOne(list, start, runs, envs, builds, prune, outcomes, k);
    }
  }

  lemma SaveKeepsWorld(list: seq<WatchItem>, start: map<Key, Tracked>, runs: map<Key, Tracked>, envs: Key -> Env,
                       builds: Key -> bool, prune: bool, outcomes: seq<Option<WatchItem>>, deleted: set<Key>,
                       effects: seq<Effect>, invites: set<Invitation>)
    requires PassDone(list, start, runs, envs, builds, prune, outcomes)
    requires WorldMirrors(deleted, effects, invites, runs)
    ensures WorldMirrors(deleted, effects, invites, AfterSave(start, runs, builds, prune))
  {
    hide Settle, Poll, Apply, TookAStep, Tick, FileMirrors, PassStands, Polled;
    var next := AfterSave(start, runs, builds, prune);
    forall k | k in next
      ensures HoldMirrors(deleted, effects, invites, k, next[k].run)
    {
      assert HoldMirrors(deleted, effects, invites, k, runs[k].run);
      SaveOne(list, start, runs, envs, builds, prune, outcomes, k);
    }
  }

  /** Kept items are still of the workflow that drives their hold. */
  ghost predicate SameWorkflows(list: seq<WatchItem>, outcomes: seq<Option<WatchItem>>) {
    && |outcomes| <= |list|
    && forall j :: 0 <= j < |outcomes| && outcomes[j].Some? ==> outcomes[j].value.workflow == list[j].workflow
  }

  lemma WorkflowsGrow(list: seq<WatchItem>, outcomes: seq<Option<WatchItem>>, o: Option<WatchItem>)
    requires SameWorkflows(list, outcomes) && |outcomes| < |list|
    requires o.Some? ==> o.value.workflow == list[|outcomes|].workflow
    ensures SameWorkflows(list, outcomes + [o])
  {}

  lemma SaveKeepsFlows(load: string -> Workflow, list: seq<WatchItem>, start: map<Key, Tracked>,
                       runs: map<Key, Tracked>, envs: Key -> Env, builds: Key -> bool, prune: bool,
                       outcomes: seq<Option<WatchItem>>)
    requires PassDone(list, start, runs, envs, builds, prune, outcomes)
    requires FlowsMirror(load, list, start) && SameWorkflows(list, outcomes)
    ensures FlowsMirror(load, Kept(outcomes), AfterSave(start, runs, builds, prune))
  {
    hide Settle, Poll, Apply, TookAStep, Tick, PassStands, Polled;
    var next := AfterSave(start, runs, builds, prune);
    KeptEntriesUnique(list, outcomes, start, runs, envs, builds, prune);
    forall x | x in Kept(outcomes) && KeyOf(x) in next
      ensures next[KeyOf(x)].flow == load(x.workflow)
    {
      var k := KeyOf(x);
      SaveOne(list, start, runs, envs, builds, prune, outcomes, k);
      var j := PlaceOf(list, start, k);
      KeptEntries(list, outcomes);
      assert start[k].run.entry.None? ==> Entry(Kept(outcomes), k) == None;
      assert outcomes[j] == Some(x);
    }
  }

  lemma KeptEntriesUnique(list: seq<WatchItem>, outcomes: seq<Option<WatchItem>>, start: map<Key, Tracked>,
                          runs: map<Key, Tracked>, envs: Key -> Env, builds: Key -> bool, prune: bool)
    requires PassDone(list, start, runs, envs, builds, prune, outcomes)
    ensures OutcomesFor(list, outcomes) && Unique(list) && Unique(Kept(outcomes))
  {
    KeptEntries(list, outcomes);
  }

  /** What the save comes to for every hold. */
  lemma PassIsDone(list: seq<WatchItem>, start: map<Key, Tracked>, runs: map<Key, Tracked>, envs: Key -> Env,
                   builds: Key -> bool, prune: bool, outcomes: seq<Option<WatchItem>>)
    requires PassDone(list, start, runs, envs, builds, prune, outcomes)
    ensures var next := AfterSave(start, runs, builds, prune);
            && next.Keys == start.Keys
            && (forall k :: k in next ==> Passed(start[k], next[k], envs(k), builds(k), prune))
            && (forall k :: k in next ==> next[k].run.entry == Entry(Kept(outcomes), k))
  {
    hide Settle, Poll, Apply, TookAStep, Tick, FileMirrors, PassStands, Passed;
    forall k | k in start {
      SaveOne(list, start, runs, envs, builds, prune, outcomes, k);
    }
  }

  /** The save keeps the file and the provider in agreement with the machines. */
  lemma PassEnds(load: string -> Workflow, list: seq<WatchItem>, start: map<Key, Tracked>, m: Moment, envs: Key -> Env,
                 builds: Key -> bool, prune: bool, outcomes: seq<Option<WatchItem>>)
    requires PassDone(list, start, m.seen.runs, envs, builds, prune, outcomes)
    requires WorldMirrors(m.deleted, m.effects, m.invites, m.seen.runs)
    requires FlowsMirror(load, list, start) && SameWorkflows(list, outcomes)
    ensures OutcomesFor(list, outcomes) && m.seen.runs.Keys == start.Keys
    ensures var next := AfterSave(start, m.seen.runs, builds, prune);
            && next.Keys == start.Keys && FileMirrors(Snapshot(Kept(outcomes), next))
            && StepApart(m.seen, Snapshot(Kept(outcomes), next))
            && WorldMirrors(m.deleted, m.effects, m.invites, next) && FlowsMirror(load, Kept(outcomes), next)
            && (forall k :: k in next ==> Passed(start[k], next[k], envs(k), builds(k), prune))
            && (forall k :: k in next ==> next[k].run.entry == Entry(Kept(outcomes), k))
  {
    var runs := m.seen.runs;
    KeptEntriesUnique(list, outcomes, start, runs, envs, builds, prune);
    SaveMirrors(list, start, runs, envs, builds, prune, outcomes);
    SaveSteps(list, start, runs, envs, builds, prune, outcomes, m.seen.watches);
    SaveKeepsWorld(list, start, runs, envs, builds, prune, outcomes, m.deleted, m.effects, m.invites);
    SaveKeepsFlows(load, list, start, runs, envs, builds, prune, outcomes);
    PassIsDone(list, start, runs, envs, builds, prune, outcomes);
    hide PassStands, OutcomesFor, Unique, Kept, SameWorkflows;
    hide FlowsMirror, WorldMirrors, FileMirrors, StepApart, Passed;
  }

  /** What a pass means for the watch file: a hold whose provider cannot be built leaves it when pruning, one
      whose workflow cannot be loaded or whose hold cannot be reached stays as it was, and any other one of an
      accepted workflow leaves it exactly when its poll finds it gone or its branch at the end. */
  ghost predicate LeavesInPass(before: Tracked, after: Tracked, env: Env, builds: bool, prune: bool)
    requires before.run.entry.Some?
  {
    var w, item := before.flow, before.run.entry.value;
    if !builds then
      after.run.entry.None? <==> prune
    else
      && (LearnsNothing(item, env) ==> after.run == before.run)
      && (Workflows.Valid(w) ==>
            && Sound(w) && 0 <= item.step < |w.steps|
            && (after.run.entry.None? <==> Leaves(w, before.run, env)))
  }

  lemma OrderIsReached(t: Tracked)
    requires t.flow.steps != [] && t.run == Execute(t.flow, CreatedFrom(t.flow, t.order), t.inputs)
    ensures Reached(t.flow, t.run)
  {}

  lemma PassLeaves(before: Tracked, after: Tracked, env: Env, builds: bool, prune: bool)
    requires before.run.entry.Some? && before.run.pc.Idle? && Passed(before, after, env, builds, prune)
    requires before.flow.steps != [] && Reached(before.flow, before.run)
    ensures LeavesInPass(before, after, env, builds, prune)
  {
    var w := before.flow;
    hide Reached, Leaves, Settle, Poll, OnlyActed;
    if builds {
      PollWithoutWalk(w, before.run, env);
      if Workflows.Valid(w) {
        ValidIsSound(w);
        DroppedExactly(w, before.run, env);
      }
    }
    hide Workflows.Valid, Sound;
  }

  ghost predicate AllReached(runs: map<Key, Tracked>) {
    forall k :: k in runs ==> runs[k].flow.steps != [] && Reached(runs[k].flow, runs[k].run)
  }

  ghost predicate PassIsAccounted(before: map<Key, Tracked>, after: map<Key, Tracked>, envs: Key -> Env,
                                  builds: Key -> bool, prune: bool)
    requires before.Keys == after.Keys
  {
    forall k :: k in after && before[k].run.entry.Some? ==>
      LeavesInPass(before[k], after[k], envs(k), builds(k), prune)
  }

  lemma PassAccounts(before: map<Key, Tracked>, after: map<Key, Tracked>, envs: Key -> Env, builds: Key -> bool,
                     prune: bool)
    requires AllReached(before) && before.Keys == after.Keys
    requires forall k :: k in before ==> before[k].run.pc.Idle?
    requires forall k :: k in after ==> Passed(before[k], after[k], envs(k), builds(k), prune)
    ensures PassIsAccounted(before, after, envs, builds, prune)
  {
    hide Passed, LeavesInPass, Reached;
    forall k | k in after && before[k].run.entry.Some?
      ensures LeavesInPass(before[k], after[k], envs(k), builds(k), prune)
    {
      PassLeaves(before[k], after[k], envs(k), builds(k), prune);
    }
  }

  /** A reported end of a branch is that of the outcome the poll read. */
  ghost predicate Reported(w: Workflow, item: WatchItem, env: Env, res: PollResult) {
    0 <= item.step < |w.steps| && Waits(w.steps[item.step].verb) ==>
      match res
      case PollApproved =>
        item.done || item.resume > 0
        || Reads(w, item, env.hold, env.now, Elapsed) || Reads(w, item, env.hold, env.now, Approval)
      case PollDeclined => Reads(w, item, env.hold, env.now, Refusal)
      case PollExpired => Reads(w, item, env.hold, env.now, TimedOut)
      case _ => true
  }

  lemma NoEndReported(w: Workflow, item: WatchItem, env: Env)
    ensures Reported(w, item, env, PollFailed) && Reported(w, item, env, PollGone)
    ensures Reported(w, item, env, PollPending) && Reported(w, item, env, PollAdvanced)
    ensures item.done || item.resume > 0 ==> Reported(w, item, env, PollApproved)
  {}

  lemma OutcomeReported(w: Workflow, item: WatchItem, env: Env)
    requires 0 <= item.step < |w.steps| && BranchPlan(w, item, env.hold, env.now).Open?
    ensures Reported(w, item, env, OnEnd(BranchPlan(w, item, env.hold, env.now).outcome))
  {
    if Waits(w.steps[item.step].verb) { OutcomeIsRead(w, item, env.hold, env.now); }
    hide BranchPlan, Reads;
  }

  /** A run reported to have advanced waits at a gate it has just reached, with nothing under way, for the gate's
      own approver when it names one and for nobody in particular otherwise; any invitation went through. */
  ghost predicate WaitsAnew(w: Workflow, item: WatchItem, env: Env) {
    && 0 <= item.step < |w.steps| && (w.steps[item.step].verb == Approve || w.steps[item.step].verb == Wait)
    && item.resume == 0 && item.createdAt == Some(env.later)
    && item.approver == (if NamesItsOwn(w, item.step) then w.steps[item.step].approver else "")
    && (NamesItsOwn(w, item.step) ==> env.invites)
  }

  lemma AtOwnGate(w: Workflow, item: WatchItem, env: Env, gate: nat)
    requires gate < |w.steps| && Waits(w.steps[gate].verb)
    ensures var at, own := item.(resume := 0, step := gate, createdAt := Some(env.later)), w.steps[gate].approver;
            if NamesItsOwn(w, gate) then env.invites ==> WaitsAnew(w, at.(approver := own), env)
            else WaitsAnew(w, at.(approver := ""), env)
  {}

  class Daemon {
    const load: string -> Workflow
    var watches: seq<WatchItem>
    var deleted: set<Key>
    var effects: seq<Effect>
    var invites: set<Invitation>
    ghost var runs: map<Key, Tracked>
    ghost var trace: seq<Moment>

    /** What would survive a crash now. */
    ghost function Found(): Moment
      reads this
    {
      Moment(Snapshot(watches, runs), deleted, effects, invites)
    }

    ghost predicate Valid()
      reads this
    {
      trace != [] && trace[0].seen.runs == map[] && Now(trace) == Found() && TraceOk(load, trace)
    }

    constructor (load: string -> Workflow)
      ensures Valid() && watches == [] && runs == map[] && this.load == load
    {
      this.load := load;
      watches, deleted, effects, invites := [], {}, [], {};
      runs := map[];
      trace := [Moment(Snapshot([], map[]), {}, [], {})];
    }

    /** A process that starts after a crash, at any moment of an earlier history: it finds the file and the
        provider as they were, and nothing of what the other had in memory. */
    constructor Restart(load: string -> Workflow, watches: seq<WatchItem>, deleted: set<Key>, effects: seq<Effect>,
                        invites: set<Invitation>, ghost past: seq<Moment>, ghost j: nat)
      requires past != [] && past[0].seen.runs == map[] && TraceOk(load, past) && j < |past|
      requires watches == past[j].seen.watches && deleted == past[j].deleted
      requires effects == past[j].effects && invites == past[j].invites
      ensures Valid() && this.load == load
      ensures this.watches == watches && this.deleted == deleted && this.effects == effects && this.invites == invites
      ensures trace == past[..j + 1] + [Crashed(past[j])]
      ensures runs == AfterCrash(past[j].seen.runs) && forall k :: k in runs ==> runs[k].run.pc.Idle?
    {
      hide TraceOk;
      TracePrefix(load, past, j + 1);
      assert Now(past[..j + 1]) == past[j];
      CrashTrace(load, past[..j + 1]);
      this.load := load;
      this.watches, this.deleted, this.effects, this.invites := watches, deleted, effects, invites;
      runs := AfterCrash(past[j].seen.runs);
      trace := past[..j + 1] + [Crashed(past[j])];
    }

    /** Only hold `k`'s machine moved, to `t`. */
    twostate predicate Moved(k: Key, t: Tracked)
      reads this
    {
      k in old(runs) && runs == old(runs)[k := t] && old(trace) <= trace
    }

    /** Only hold `k`'s machine moved, and only by actions of its own. */
    twostate predicate Acted(k: Key)
      reads this
    {
      k in old(runs) && k in runs && Moved(k, runs[k]) && OnlyActed(old(runs)[k], runs[k])
    }

    // -------------------------------------------------------------------------------------
    // The watch file
    // -------------------------------------------------------------------------------------

    method AddWatch(item: WatchItem)
      modifies this`watches
      ensures watches == Stored(old(watches), item)
    {
      var out := [];
      for i := 0 to |watches|
        invariant watches == old(watches)
        invariant out == Without(watches[..i], KeyOf(item))
      {
        var x := watches[i];
        assert watches[..i + 1][..i] == watches[..i];
        if !(x.provider == item.provider && x.holdID == item.holdID) {
          out := out + [x];
        }
      }
      assert watches[..|watches|] == watches;
      watches := out + [item];
    }

    method RemoveWatch(provider: string, holdID: string)
      modifies this`watches
      ensures watches == Without(old(watches), Key(provider, holdID))
    {
      var out := [];
      for i := 0 to |watches|
        invariant watches == old(watches)
        invariant out == Without(watches[..i], Key(provider, holdID))
      {
        var x := watches[i];
        assert watches[..i + 1][..i] == watches[..i];
        if !(x.provider == provider && x.holdID == holdID) {
          out := out + [x];
        }
      }
      assert watches[..|watches|] == watches;
      watches := out;
    }

    // -------------------------------------------------------------------------------------
    // Atomic actions, each one step of a machine
    // -------------------------------------------------------------------------------------

    /** Notes the moment in the history. */
    ghost method Note()
      requires trace != [] && trace[0].seen.runs == map[] && TraceOk(load, trace + [Found()])
      modifies this`trace
      ensures Valid() && trace == old(trace) + [Found()]
    {
      trace := trace + [Found()];
    }

    /** A machine begins a poll. */
    ghost method StartPoll(k: Key, env: Env)
      requires Valid() && k in runs
      modifies this`runs, this`trace
      ensures Valid() && Moved(k, Stepped(old(runs)[k], Begin(env)))
    {
      PollIsAStep(runs[k], env);
      hide Stepped, TraceOk, TookAStep;
      QuietTrace(load, trace, k, Stepped(runs[k], Begin(env)));
      runs := runs[k := Stepped(runs[k], Begin(env))];
      Note();
    }

    /** An action of a machine that nothing outside the process can see. */
    ghost method Quietly(k: Key)
      requires Valid() && k in runs
      requires var s, t := runs[k].run, Tick(runs[k].flow, runs[k].run);
               t.entry == s.entry && Unseen(s, t)
      modifies this`runs, this`trace
      ensures Valid() && Moved(k, Stepped(old(runs)[k], Act))
    {
      ActIsAStep(runs[k]);
      hide Tick, Stepped, TraceOk, TookAStep;
      QuietTrace(load, trace, k, Stepped(runs[k], Act));
      runs := runs[k := Stepped(runs[k], Act)];
      Note();
    }

    /** Stores the item a machine's next action writes. */
    method Store(ghost k: Key, item: WatchItem)
      requires Valid() && k in runs && KeyOf(item) == k && runs[k].flow == load(item.workflow)
      requires var s, t := runs[k].run, Tick(runs[k].flow, runs[k].run);
               t.entry == Some(item) && Unseen(s, t)
      modifies this`watches, this`runs, this`trace
      ensures Valid() && Moved(k, Stepped(old(runs)[k], Act))
      ensures watches == Stored(old(watches), item)
    {
      ActIsAStep(runs[k]);
      hide Tick, Stepped, TraceOk, TookAStep;
      ghost var t := Stepped(runs[k], Act);
      StoreTrace(load, trace, item, t);
      AddWatch(item);
      runs := runs[k := t];
      Note();
    }

    /** Drops the entry a machine's next action removes. */
    method Drop(k: Key)
      requires Valid() && k in runs
      requires var s, t := runs[k].run, Tick(runs[k].flow, runs[k].run);
               t.entry == None && Unseen(s, t)
      modifies this`watches, this`runs, this`trace
      ensures Valid() && Moved(k, Stepped(old(runs)[k], Act))
      ensures watches == Without(old(watches), k)
    {
      ActIsAStep(runs[k]);
      hide Tick, Stepped, TraceOk, TookAStep;
      ghost var t := Stepped(runs[k], Act);
      DropTrace(load, trace, k, t);
      RemoveWatch(k.provider, k.holdID);
      runs := runs[k := t];
      Note();
    }

    /** Performs the effect of step `i`, a machine's next action. */
    method Perform(k: Key, verb: Verb, i: nat)
      requires Valid() && k in runs
      requires var s, t := runs[k].run, Tick(runs[k].flow, runs[k].run);
               && t.log == s.log + [i] && t.entry == s.entry
               && t.alive == (s.alive && verb != Cancel) && t.invited == s.invited
      modifies this`deleted, this`effects, this`runs, this`trace
      ensures Valid() && Moved(k, Stepped(old(runs)[k], Act))
      ensures effects == old(effects) + [Effect(k, i)]
      ensures deleted == if verb == Cancel then old(deleted) + {k} else old(deleted)
    {
      ActIsAStep(runs[k]);
      hide Tick, Stepped, TraceOk, TookAStep;
      ghost var t := Stepped(runs[k], Act);
      EffectTrace(load, trace, k, t, i, verb == Cancel);
      effects := effects + [Effect(k, i)];
      if verb == Cancel { deleted := deleted + {k}; }
      runs := runs[k := t];
      Note();
    }

    /** Invites the approver whom a machine's next action invites. */
    method Invite(k: Key, email: string)
      requires Valid() && k in runs
      requires var s, t := runs[k].run, Tick(runs[k].flow, runs[k].run);
               && t.log == s.log && t.entry == s.entry && t.alive == s.alive
               && t.invited == s.invited + {email}
      modifies this`invites, this`runs, this`trace
      ensures Valid() && Moved(k, Stepped(old(runs)[k], Act))
      ensures invites == old(invites) + {Invitation(k, email)}
    {
      ActIsAStep(runs[k]);
      hide Tick, Stepped, TraceOk, TookAStep;
      ghost var t := Stepped(runs[k], Act);
      InviteTrace(load, trace, k, t, email);
      invites := invites + {Invitation(k, email)};
      runs := runs[k := t];
      Note();
    }

    // -------------------------------------------------------------------------------------
    // Walking a branch
    // -------------------------------------------------------------------------------------

    /** Hold `k` is walked by `w` in the given mode. */
    ghost predicate Walks(k: Key, w: Workflow, mode: Mode, env: Env, i: int, visited: set<int>)
      reads this
    {
      && Valid() && k in runs && runs[k].flow == w
      && (mode.Branch? ==> KeyOf(mode.item) == k && load(mode.item.workflow) == w)
      && runs[k].run.pc == Walking(mode, env, i, visited)
    }

    /** The action after an effect: the checkpoint of a daemon's branch. */
    method CheckpointAfter(k: Key, w: Workflow, mode: Mode, ghost env: Env, i: nat, ghost visited: set<int>)
      requires Valid() && k in runs && runs[k].flow == w
      requires mode.Branch? ==> KeyOf(mode.item) == k && load(mode.item.workflow) == w
      requires i < |w.steps| && w.steps[i].verb != Cancel
      requires runs[k].run.pc == Performed(mode, env, i, visited)
      modifies this`watches, this`runs, this`trace
      ensures Valid() && Acted(k)
      ensures Walks(k, w, mode, env, Next(w, i, ""), visited)
    {
      hide TraceOk, OnlyActed;
      ActIsAStep(runs[k]);
      match mode
      case FirstWalk(_, _) => Quietly(k);
      case Branch(item, _) => Store(k, Checkpoint(item, Next(w, i, "")));
    }

    /** How the machine stands when a walk is over. */
    ghost predicate Stopped(k: Key, w: Workflow, mode: Mode, env: Env, at: int, failed: bool)
      reads this
    {
      && k in runs && runs[k].flow == w && at < |w.steps|
      && if failed then
           at >= 0 && runs[k].run.pc == (match mode
             case FirstWalk(_, _) => Idle
             case Branch(item, _) => Finishing(PollFailed, item.(resume := at)))
         else if at >= 0 then
           Waits(w.steps[at].verb) && runs[k].run.pc == Arrived(mode, env, at)
         else runs[k].run.pc == (match mode
           case FirstWalk(_, _) => Idle
           case Branch(item, onEnd) => Finishing(onEnd, item.(resume := 0)))
    }

    /** The actions after a hold was deleted: forget its entry, then mark its run done. */
    method ForgetHold(k: Key, w: Workflow, mode: Mode, ghost env: Env, ghost i: nat, ghost visited: set<int>)
      requires Valid() && k in runs && runs[k].flow == w
      requires mode.Branch? ==> KeyOf(mode.item) == k && load(mode.item.workflow) == w
      requires i < |w.steps| && w.steps[i].verb == Cancel
      requires runs[k].run.pc == Performed(mode, env, i, visited)
      modifies this`watches, this`runs, this`trace
      ensures Valid() && Acted(k)
      ensures Stopped(k, w, mode, env, -1, false)
    {
      hide TraceOk, Tick, Stopped, OnlyActed, TookAStep;
      CancelTick(w, runs[k].run);
      ActIsAStep(runs[k]);
      ghost var a := runs[k];
      Drop(k);
      ghost var b := runs[k];
      MarkDone(k, w, mode, env);
      OnlyActedJoins(a, b, runs[k]);
    }

    /** The checkpoint after a cancel, which the first walk does not write. */
    method MarkDone(k: Key, w: Workflow, mode: Mode, ghost env: Env)
      requires Valid() && k in runs && runs[k].flow == w
      requires mode.Branch? ==> KeyOf(mode.item) == k && load(mode.item.workflow) == w
      requires runs[k].run.pc == Forgotten(mode) && runs[k].run.entry.None?
      modifies this`watches, this`runs, this`trace
      ensures Valid() && Acted(k)
      ensures Stopped(k, w, mode, env, -1, false)
    {
      hide TraceOk, OnlyActed, TookAStep;
      ActIsAStep(runs[k]);
      match mode
      case FirstWalk(_, _) => Quietly(k);
      case Branch(item, _) => Store(k, Checkpoint(item, -1));
    }

    /** The effect of an acting step and the writes after it; a cancel ends the walk. */
    method TakeEffect(k: Key, w: Workflow, mode: Mode, env: Env, i: nat, visited: set<int>) returns (goesOn: bool)
      requires Walks(k, w, mode, env, i, visited) && i < |w.steps| && i !in visited
      requires GuardAllows(w, env, i) && Acts(w.steps[i].verb) && !env.fails(i)
      modifies this`watches, this`deleted, this`effects, this`runs, this`trace
      ensures Valid() && Acted(k)
      ensures if goesOn then Walks(k, w, mode, env, Next(w, i, ""), visited + {i})
              else Stopped(k, w, mode, env, -1, false)
    {
      hide TraceOk, OnlyActed, TookAStep, Stopped;
      ghost var a := runs[k];
      ActIsAStep(a);
      EffectTick(w, a.run);
      hide Tick, GuardAllows, Next;
      var verb := w.steps[i].verb;
      Perform(k, verb, i);
      ghost var b := runs[k];
      goesOn := verb != Cancel;
      if goesOn {
        CheckpointAfter(k, w, mode, env, i, visited + {i});
      } else {
        ForgetHold(k, w, mode, env, i, visited + {i});
      }
      OnlyActedJoins(a, b, runs[k]);
      LaterMoveWins(old(runs), k, b, runs[k]);
    }

    /** One turn of the walk loop at step `i`: go on, or stop at a gate, a failed step or the end. */
    method WalkStep(k: Key, w: Workflow, mode: Mode, env: Env, i: nat, visited: set<int>)
      returns (goesOn: bool, at: int, failed: bool)
      requires Walks(k, w, mode, env, i, visited) && i < |w.steps| && i !in visited
      modifies this`watches, this`deleted, this`effects, this`runs, this`trace
      ensures Valid() && Acted(k)
      ensures if goesOn then Walks(k, w, mode, env, Next(w, i, ""), visited + {i})
              else Stopped(k, w, mode, env, at, failed)
    {
      hide TraceOk, OnlyActed, TookAStep;
      ActIsAStep(runs[k]);
      var verb := w.steps[i].verb;
      if !GuardAllows(w, env, i) {
        Quietly(k);
        return true, i, false;
      }
      if Waits(verb) {
        Quietly(k);
        return false, i, false;
      }
      if !Acts(verb) {
        Quietly(k);
        return true, i, false;
      }
      if env.fails(i) {
        Quietly(k);
        return false, i, true;
      }
      goesOn := TakeEffect(k, w, mode, env, i, visited);
      at, failed := if goesOn then i else -1, false;
    }

    /** The walk left the graph, or met a step again: it ends. */
    method EndOfWalk(k: Key, w: Workflow, mode: Mode, env: Env, i: int, ghost visited: set<int>)
      requires Walks(k, w, mode, env, i, visited) && (i < 0 || i >= |w.steps| || i in visited)
      modifies this`trace, this`runs
      ensures Valid() && Acted(k)
      ensures Stopped(k, w, mode, env, -1, false)
    {
      hide TraceOk, OnlyActed, TookAStep;
      ActIsAStep(runs[k]);
      Quietly(k);
    }

    /** walkSteps: the loop over the immediate steps from `from`. It returns the gate it stopped at, the
        step that failed, or -1; the machine ends up settling just as it would have on its own. */
    method WalkSteps(k: Key, w: Workflow, mode: Mode, env: Env, from: int) returns (at: int, failed: bool)
      requires Walks(k, w, mode, env, from, {})
      modifies this`watches, this`deleted, this`effects, this`runs, this`trace
      ensures Valid() && Acted(k)
      ensures Stopped(k, w, mode, env, at, failed)
    {
      hide TraceOk, OnlyActed, Stopped;
      var i := from;
      var visited: set<int> := {};
      ghost var start := runs[k];
      OnlyActedAtFirst(start);
      while 0 <= i < |w.steps|
        invariant Walks(k, w, mode, env, i, visited)
        invariant k in old(runs) && start == old(runs)[k] && Moved(k, runs[k]) && OnlyActed(start, runs[k])
        decreases AllSteps(w) - visited
      {
        if i in visited { break; }
        assert i in AllSteps(w) - visited;
        var goesOn: bool;
        ghost var before := runs[k];
        goesOn, at, failed := WalkStep(k, w, mode, env, i, visited);
        OnlyActedJoins(start, before, runs[k]);
        if !goesOn { return; }
        visited := visited + {i};
        i := Next(w, i, "");
      }
      ghost var before := runs[k];
      EndOfWalk(k, w, mode, env, i, visited);
      OnlyActedJoins(start, before, runs[k]);
      at, failed := -1, false;
    }

    /** The arrival of a branch at a gate: invites the gate's own approver, and tells what to persist. */
    method ReachGate(k: Key, w: Workflow, item: WatchItem, env: Env, gate: nat, ghost onEnd: PollResult)
      returns (res: PollResult, updated: WatchItem)
      requires Valid() && k in runs && runs[k].flow == w && gate < |w.steps| && Waits(w.steps[gate].verb)
      requires runs[k].run.pc == Arrived(Branch(item, onEnd), env, gate) && KeyOf(item) == k
      modifies this`invites, this`runs, this`trace
      ensures Valid() && Acted(k)
      ensures runs[k].run.pc == Finishing(res, updated)
      ensures KeyOf(updated) == k && updated.workflow == item.workflow
      ensures res == PollAdvanced || res == PollFailed
      ensures res == PollAdvanced ==> WaitsAnew(w, updated, env)
    {
      hide TraceOk, OnlyActed, TookAStep;
      ActIsAStep(runs[k]);
      ArrivalTick(w, runs[k].run);
      AtOwnGate(w, item, env, gate);
      hide Tick, Stepped, WaitsAnew;
      var next := w.steps[gate];
      updated := item.(resume := 0, step := gate, createdAt := Some(env.later));
      if next.verb == Approve && next.approver != "" {
        if env.invites {
          Invite(k, next.approver);
          res, updated := PollAdvanced, updated.(approver := next.approver);
        } else {
          Quietly(k);
          res := PollFailed;
        }
      } else {
        Quietly(k);
        res, updated := PollAdvanced, updated.(approver := "");
      }
    }

    /** advanceToNextGate: runs the branch on, to the next gate or its end, and returns what to persist. */
    method AdvanceToNextGate(k: Key, w: Workflow, item: WatchItem, env: Env, from: int, onEnd: PollResult)
      returns (res: PollResult, updated: WatchItem)
      requires Walks(k, w, Branch(item, onEnd), env, from, {})
      modifies this`watches, this`deleted, this`effects, this`invites, this`runs, this`trace
      ensures Valid() && Acted(k)
      ensures runs[k].run.pc == Finishing(res, updated)
      ensures KeyOf(updated) == k && updated.workflow == item.workflow
      ensures res == onEnd || res == PollAdvanced || res == PollFailed
      ensures res == PollAdvanced && onEnd != PollAdvanced ==> WaitsAnew(w, updated, env)
    {
      hide TraceOk, OnlyActed, TookAStep, WaitsAnew;
      ghost var start := runs[k];
      var gate, failed := WalkSteps(k, w, Branch(item, onEnd), env, from);
      if failed {
        return PollFailed, item.(resume := gate);
      }
      if gate < 0 {
        return onEnd, item.(resume := 0);
      }
      ghost var before := runs[k];
      res, updated := ReachGate(k, w, item, env, gate, onEnd);
      OnlyActedJoins(start, before, runs[k]);
      LaterMoveWins(old(runs), k, before, runs[k]);
    }

    // -------------------------------------------------------------------------------------
    // The first walk
    // -------------------------------------------------------------------------------------

    /** Nothing is known of hold `k` yet. */
    ghost predicate Unheard(k: Key)
      reads this
    {
      k !in runs && k !in deleted && EffectsOf(effects, k) == [] && forall e :: Invitation(k, e) !in invites
    }

    /** Creates the hold and invites whoever its first step invites. */
    method CreateHold(w: Workflow, o: Order)
      requires Valid() && Unheard(Key(o.provider, o.env.hold.id)) && w.steps != []
      modifies this`invites, this`runs, this`trace
      ensures Valid() && runs == old(runs)[Key(o.provider, o.env.hold.id) := NewlyTracked(w, o)]
      ensures old(trace) <= trace
    {
      var k := Key(o.provider, o.env.hold.id);
      CreatedInvites(w, o);
      hide NewlyTracked, NewHold, TraceOk;
      ghost var t := NewlyTracked(w, o);
      var hold := NewHold(w, o.env.hold.id, o.env.hold.subject, o.manager, o.env.hold.attendees);
      var sent := set a | a in hold.attendees :: Invitation(k, a.email);
      BirthTrace(load, trace, k, t, sent);
      invites := invites + sent;
      runs := runs[k := t];
      Note();
    }

    /** runSteps: walks the immediate steps and, when watching, enqueues the run at the gate it stops at. */
    method RunSteps(k: Key, w: Workflow, mode: Mode, env: Env)
      requires Walks(k, w, mode, env, Next(w, 0, ""), {}) && load(w.name) == w
      requires mode.FirstWalk? && k == Key(mode.provider, env.hold.id)
      modifies this`watches, this`deleted, this`effects, this`invites, this`runs, this`trace
      ensures Valid() && Acted(k) && runs[k].run.pc.Idle?
    {
      hide TraceOk, OnlyActed;
      ghost var start := runs[k];
      var gate, failed := WalkSteps(k, w, mode, env, Next(w, 0, ""));
      if !failed && gate >= 0 {
        ghost var before := runs[k];
        GateWaiting(k, w, mode, env, gate);
        OnlyActedJoins(start, before, runs[k]);
      }
    }

    /** runWorkflowOn: creates the hold and walks on. `creates` tells whether the approver resolves and the
        provider takes the hold. The new machine settles as it would on its own; no other is touched. */
    method RunWorkflow(w: Workflow, o: Order, creates: bool) returns (ok: bool)
      requires Valid() && Unheard(Key(o.provider, o.env.hold.id)) && w.steps != [] && load(w.name) == w
      modifies this`watches, this`deleted, this`effects, this`invites, this`runs, this`trace
      ensures Valid() && old(trace) <= trace
      ensures ok <==> creates && !(w.steps[0].verb == Event && o.env.hold.subject == "")
      ensures ok ==>
                var k := Key(o.provider, o.env.hold.id);
                && k in runs && runs == old(runs)[k := runs[k]] && OnlyActed(NewlyTracked(w, o), runs[k])
                && runs[k].run == Settle(w, CreatedFrom(w, o))
      ensures !ok ==> runs == old(runs) && watches == old(watches) && effects == old(effects)
                      && invites == old(invites) && deleted == old(deleted)
    {
      hide TraceOk, OnlyActed, Settle;
      if w.steps[0].verb == Event && o.env.hold.subject == "" { return false; }
      if !creates { return false; }
      ok := true;
      var k := Key(o.provider, o.env.hold.id);
      CreateHold(w, o);
      var hold := NewHold(w, o.env.hold.id, o.env.hold.subject, o.manager, o.env.hold.attendees);
      var mode, env := FirstWalk(o.provider, o.watch), o.env.(hold := hold);
      RunSteps(k, w, mode, env);
      ActedToRest(NewlyTracked(w, o), runs[k]);
    }

    /** gateWaiting: when watching, stores the run at its gate. */
    method GateWaiting(k: Key, w: Workflow, mode: Mode, env: Env, gate: nat)
      requires Valid() && k in runs && runs[k].flow == w && load(w.name) == w && gate < |w.steps|
      requires mode.FirstWalk? && k == Key(mode.provider, env.hold.id)
      requires runs[k].run.pc == Arrived(mode, env, gate)
      modifies this`watches, this`runs, this`trace
      ensures Valid() && Acted(k) && runs[k].run.pc.Idle?
      ensures runs[k].run.entry == if mode.watch then Some(Enqueued(w, mode.provider, env, gate))
                                   else old(runs)[k].run.entry
    {
      hide TraceOk, OnlyActed, TookAStep;
      ActIsAStep(runs[k]);
      if !mode.watch {
        Quietly(k);
        return;
      }
      var isWait := w.steps[gate].verb == Wait;
      var item := WatchItem(mode.provider, env.hold.id, w.name, gate, 0, false, "", env.hold.subject, Some(env.later));
      if !isWait { item := item.(approver := Calendar.ManagerAttendee(env.hold).email); }
      Store(k, item);
    }

    lemma MirroredItem(item: WatchItem)
      requires Valid() && KeyOf(item) in runs && runs[KeyOf(item)].run.entry == Some(item)
      ensures item in watches && runs[KeyOf(item)].flow == load(item.workflow)
    {
      assert Linked(load, trace, |trace| - 1);
    }

    lemma StoredEntryOf(item: WatchItem)
      requires Valid() && item in watches
      ensures KeyOf(item) in runs && runs[KeyOf(item)].run.entry == Some(item)
      ensures runs[KeyOf(item)].flow == load(item.workflow)
      ensures KeyOf(item) in deleted <==> !runs[KeyOf(item)].run.alive
    {
      NowIsOk(load, trace);
      hide TraceOk, EffectsOf;
      assert HoldMirrors(deleted, effects, invites, KeyOf(item), runs[KeyOf(item)].run);
    }

    /** The write ahead of a branch, and the branch. */
    method CommitBranch(k: Key, w: Workflow, item: WatchItem, env: Env, from: int, outcome: GateOutcome)
      returns (res: PollResult, updated: WatchItem)
      requires Valid() && k in runs && runs[k].flow == w && KeyOf(item) == k && load(item.workflow) == w
      requires item.step >= 0
      requires runs[k].run.pc == Committing(item, env, Commit(item.step, outcome, from, env.hold, env.now))
      modifies this`watches, this`deleted, this`effects, this`invites, this`runs, this`trace
      ensures Valid() && Acted(k)
      ensures runs[k].run.pc == Finishing(res, updated)
      ensures KeyOf(updated) == k && updated.workflow == item.workflow
      ensures res == OnEnd(outcome) || res == PollAdvanced || res == PollFailed
      ensures res == PollAdvanced ==> WaitsAnew(w, updated, env)
    {
      hide TraceOk, OnlyActed, TookAStep;
      ghost var begun := runs[k];
      ActIsAStep(begun);
      CommitTick(w, begun.run);
      hide Tick, Stepped, WaitsAnew;
      Store(k, Checkpoint(item, from));
      ghost var committed := runs[k];
      res, updated := AdvanceToNextGate(k, w, item, env, from, OnEnd(outcome));
      OnlyActedJoins(begun, committed, runs[k]);
      LaterMoveWins(old(runs), k, committed, runs[k]);
    }

    /** advanceRun: one poll of a stored run, up to the end-of-pass save. */
    method AdvanceRun(item: WatchItem, env: Env) returns (res: PollResult, updated: WatchItem)
      requires Valid() && item in watches
      requires KeyOf(item) in runs ==> runs[KeyOf(item)].run.pc.Idle?
      modifies this`watches, this`deleted, this`effects, this`invites, this`runs, this`trace
      ensures Valid() && KeyOf(item) in old(runs) && KeyOf(item) in runs
      ensures Moved(KeyOf(item), runs[KeyOf(item)])
      ensures OnlyActed(Stepped(old(runs)[KeyOf(item)], Begin(env)), runs[KeyOf(item)])
      ensures runs[KeyOf(item)].run.pc == Finishing(res, updated)
      ensures KeyOf(updated) == KeyOf(item) && updated.workflow == item.workflow
      ensures LearnsNothing(item, env) ==> res == PollFailed && updated == item
      ensures res == PollGone
              <==> env.loads && !item.done
                   && (env.fetch.NotFound? || (env.fetch.Fetched? && KeyOf(item) in old(deleted)))
      ensures Reported(load(item.workflow), item, env, res)
      ensures res == PollAdvanced ==> WaitsAnew(load(item.workflow), updated, env)
    {
      hide TraceOk, OnlyActed, Settle, BranchPlan, Stepped, TookAStep, Tick, Reported, WaitsAnew;
      NoEndReported(load(item.workflow), item, env);
      StoredEntryOf(item);
      var k := KeyOf(item);
      var w := load(item.workflow);
      PollIsAStep(runs[k], env);
      StartPoll(k, env);
      ghost var begun := runs[k];
      OnlyActedAtFirst(begun);
      if !env.loads { return PollFailed, item; }
      if item.done { return PollApproved, item; }
      if env.fetch.NotFound? || (env.fetch.Fetched? && k in deleted) { return PollGone, item; }
      if env.fetch.Unreachable? { return PollFailed, item; }
      if item.step < 0 || item.step >= |w.steps| { return PollPending, item; }
      if item.resume > 0 {
        res, updated := AdvanceToNextGate(k, w, item, env, item.resume, PollApproved);
        return;
      }
      var plan := BranchPlan(w, item, env.hold, env.now);
      if plan.StillWaiting? { return PollPending, item; }
      OutcomeReported(w, item, env);
      res, updated := CommitBranch(k, w, item, env, plan.from, plan.outcome);
      LaterMoveWins(old(runs), k, begun, runs[k]);
    }

    /** The end-of-pass save: writes the whole list at once, moving every hold's machine by its last step. */
    method SaveWatches(remaining: seq<WatchItem>, ghost next: map<Key, Tracked>)
      requires Valid() && next.Keys == runs.Keys
      requires FileMirrors(Snapshot(remaining, next)) && FlowsMirror(load, remaining, next)
      requires WorldMirrors(deleted, effects, invites, next)
      requires StepApart(Snapshot(watches, runs), Snapshot(remaining, next))
      modifies this`watches, this`runs, this`trace
      ensures Valid() && watches == remaining && runs == next && old(trace) <= trace
    {
      hide TraceOk, FileMirrors, FlowsMirror, WorldMirrors, StepApart;
      TraceGrows(load, trace, Moment(Snapshot(remaining, next), deleted, effects, invites));
      watches := remaining;
      runs := next;
      Note();
    }

    /** One turn of the pass: polls the hold at place `n` and tells what to keep of it. */
    method PollOne(list: seq<WatchItem>, n: nat, envs: Key -> Env, builds: Key -> bool, prune: bool,
                   ghost start: map<Key, Tracked>, ghost outcomes: seq<Option<WatchItem>>)
      returns (outcome: Option<WatchItem>)
      requires Valid() && n == |outcomes| < |list| && AtRest(list, start)
      requires PassStands(list, start, runs, envs, builds, prune, outcomes)
      modifies this`watches, this`deleted, this`effects, this`invites, this`runs, this`trace
      ensures Valid() && old(trace) <= trace
      ensures PassStands(list, start, runs, envs, builds, prune, outcomes + [outcome])
      ensures runs.Keys == old(runs).Keys
      ensures outcome.Some? ==> outcome.value.workflow == list[n].workflow
    {
      hide TraceOk, WorldMirrors, OnlyActed, PassStands;
      var item := list[n];
      var k := KeyOf(item);
      assert NoneFor(list, n, k) && runs[k] == start[k] by {
        StillUntouched(list, start, runs, envs, builds, prune, outcomes);
      }
      if !builds(k) {
        outcome := if prune then None else Some(item);
        PassExtends(list, start, runs, envs, builds, prune, outcomes, runs[k], outcome);
        assert runs[k := runs[k]] == runs;
        return;
      }
      MirroredItem(item);
      ghost var before := runs;
      var res, updated := AdvanceRun(item, envs(k));
      outcome := if Keeps(res) then Some(updated) else None;
      PassExtends(list, start, before, envs, builds, prune, outcomes, runs[k], outcome);
    }

    lemma WorldIsMirrored()
      requires Valid()
      ensures WorldMirrors(deleted, effects, invites, runs)
    {
      assert Linked(load, trace, |trace| - 1);
    }

    lemma PassBegins(envs: Key -> Env, builds: Key -> bool, prune: bool)
      requires Valid()
      ensures FileMirrors(Snapshot(watches, runs))
      ensures PassStands(watches, runs, runs, envs, builds, prune, [])
      ensures FlowsMirror(load, watches, runs)
      ensures (forall k :: k in runs ==> runs[k].run.pc.Idle?) ==> AtRest(watches, runs)
    {
      assert Linked(load, trace, |trace| - 1);
    }

    lemma RunsAreReached()
      requires Valid()
      ensures AllReached(runs)
    {
      hide TraceOk, Execute, CreatedFrom;
      forall k | k in runs
        ensures runs[k].flow.steps != [] && Reached(runs[k].flow, runs[k].run)
      {
        EveryRunWasCreated(load, trace, |trace| - 1, k);
        OrderIsReached(runs[k]);
      }
    }

    /** The turns of a pass, one for each hold of the loaded list in order, before the list is written back. */
    method PollEach(list: seq<WatchItem>, envs: Key -> Env, builds: Key -> bool, prune: bool)
      returns (remaining: seq<WatchItem>, ghost outcomes: seq<Option<WatchItem>>)
      requires Valid() && AtRest(list, runs) && PassStands(list, runs, runs, envs, builds, prune, [])
      modifies this`watches, this`deleted, this`effects, this`invites, this`runs, this`trace
      ensures Valid() && old(trace) <= trace && runs.Keys == old(runs).Keys
      ensures |outcomes| == |list| && remaining == Kept(outcomes)
      ensures PassStands(list, old(runs), runs, envs, builds, prune, outcomes) && SameWorkflows(list, outcomes)
    {
      ghost var start := runs;
      outcomes := [];
      remaining := [];
      assert remaining == Kept(outcomes) && SameWorkflows(list, outcomes);
      hide TraceOk, AtRest, PassStands, Kept, SameWorkflows;
      for i := 0 to |list|
        invariant Valid() && old(trace) <= trace
        invariant |outcomes| == i && remaining == Kept(outcomes) && runs.Keys == start.Keys
        invariant PassStands(list, start, runs, envs, builds, prune, outcomes)
        invariant SameWorkflows(list, outcomes)
      {
        var outcome := PollOne(list, i, envs, builds, prune, start, outcomes);
        KeptAppends(outcomes, outcome);
        WorkflowsGrow(list, outcomes, outcome);
        outcomes := outcomes + [outcome];
        if outcome.Some? { remaining := remaining + [outcome.value]; }
      }
    }

    /** pollAll: one pass over the stored holds. The final list is the loaded one in order, with finished
        holds dropped and the rest replaced by their updated items; each hold's machine is where its
        own poll settles, and no other hold's is touched. */
    method PollAll(envs: Key -> Env, builds: Key -> bool, prune: bool) returns (ghost outcomes: seq<Option<WatchItem>>)
      requires Valid() && forall k :: k in runs ==> runs[k].run.pc.Idle?
      modifies this`watches, this`deleted, this`effects, this`invites, this`runs, this`trace
      ensures Valid() && old(trace) <= trace
      ensures |outcomes| == |old(watches)| && watches == Kept(outcomes) && OutcomesFor(old(watches), outcomes)
      ensures runs.Keys == old(runs).Keys
      ensures forall k :: k in runs ==> Passed(old(runs)[k], runs[k], envs(k), builds(k), prune)
      ensures forall k :: k in runs ==> runs[k].run.entry == Entry(Kept(outcomes), k)
      ensures PassIsAccounted(old(runs), runs, envs, builds, prune)
    {
      hide TraceOk, WorldMirrors, FlowsMirror, PassStands, Kept, SameWorkflows, OutcomesFor, AllReached;
      hide PassIsAccounted, AtRest;
      RunsAreReached();
      PassBegins(envs, builds, prune);
      ghost var start := runs;
      var list := watches;
      var remaining: seq<WatchItem>;
      remaining, outcomes := PollEach(list, envs, builds, prune);
      WorldIsMirrored();
      PassEnds(load, list, start, Found(), envs, builds, prune, outcomes);
      hide *;
      SaveWatches(remaining, AfterSave(start, runs, builds, prune));
      PassAccounts(start, runs, envs, builds, prune);
    }
  }
}
