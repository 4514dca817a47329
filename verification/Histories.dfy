/** Histories of the daemon: the watch file, what the provider knows and every hold's machine at each moment
    between two atomic actions, crashes included, and what holds over all of them (cmd/daemon.go). */
module Histories {
  import opened Base
  import opened Workflows
  import opened Protocol
  import opened Forward
  import opened Refinement
  import opened Acknowledged
  import opened EffectOrder
  import opened Clocks
  import opened Routes
  import opened Polls
  import opened WatchList

  /** What a command that creates a hold is given. */
  datatype Order = Order(provider: string, watch: bool, manager: string, env: Env)

  function CreatedFrom(w: Workflow, o: Order): Run
    requires w.steps != []
  {
    Created(w, o.provider, o.watch, o.manager, o.env)
  }

  /** A hold's machine: the workflow that drives it, the order it was created with, and everything it met
      since, each poll with all that the poll read, each crash in its place. */
  datatype Tracked = Tracked(flow: Workflow, order: Order, inputs: seq<Input>, run: Run)

  function Stepped(t: Tracked, x: Input): Tracked {
    Tracked(t.flow, t.order, t.inputs + [x], Apply(t.flow, t.run, x))
  }

  function NewlyTracked(w: Workflow, o: Order): Tracked
    requires w.steps != []
  {
    Tracked(w, o, [], CreatedFrom(w, o))
  }

  datatype Effect = Effect(key: Key, step: nat)

  datatype Invitation = Invitation(key: Key, email: string)

  /** The watch file, with the machine of every hold at that moment. */
  datatype Snapshot = Snapshot(watches: seq<WatchItem>, runs: map<Key, Tracked>)

  /** All that survives a crash: the file and what the provider knows. */
  datatype Moment = Moment(seen: Snapshot, deleted: set<Key>, effects: seq<Effect>, invites: set<Invitation>)

  function EffectsOf(effects: seq<Effect>, k: Key): seq<nat> {
    if effects == [] then []
    else
      var front, last := effects[..|effects| - 1], effects[|effects| - 1];
      if last.key == k then EffectsOf(front, k) + [last.step] else EffectsOf(front, k)
  }

  /** The file holds exactly the entries of the machines, one each. */
  ghost predicate FileMirrors(s: Snapshot) {
    && Unique(s.watches)
    && (forall item :: item in s.watches ==> KeyOf(item) in s.runs)
    && (forall k :: k in s.runs ==> Entry(s.watches, k) == s.runs[k].run.entry)
  }

  /** Each hold's machine stayed put or took one step, and a new hold's machine was just created. */
  ghost predicate StepApart(a: Snapshot, b: Snapshot) {
    && (forall k :: k in a.runs ==> k in b.runs && (b.runs[k] == a.runs[k] || TookAStep(a.runs[k], b.runs[k])))
    && (forall k :: k in b.runs && k !in a.runs ==> JustCreated(b.runs[k]))
  }

  ghost predicate JustCreated(t: Tracked) {
    t.flow.steps != [] && t == NewlyTracked(t.flow, t.order)
  }

  ghost predicate TookAStep(a: Tracked, b: Tracked) {
    exists x: Input :: !x.Crash? && b == Stepped(a, x)
  }

  /** What the provider knows of hold `k` is what its machine performed. */
  ghost predicate HoldMirrors(deleted: set<Key>, effects: seq<Effect>, invites: set<Invitation>, k: Key, run: Run) {
    && (k in deleted <==> !run.alive)
    && EffectsOf(effects, k) == run.log
    && (forall e :: e in run.invited <==> Invitation(k, e) in invites)
  }

  ghost predicate WorldMirrors(deleted: set<Key>, effects: seq<Effect>, invites: set<Invitation>,
                               runs: map<Key, Tracked>) {
    forall k :: k in runs ==> HoldMirrors(deleted, effects, invites, k, runs[k].run)
  }

  ghost predicate FlowsMirror(load: string -> Workflow, watches: seq<WatchItem>, runs: map<Key, Tracked>) {
    forall item :: item in watches && KeyOf(item) in runs ==> runs[KeyOf(item)].flow == load(item.workflow)
  }

  /** The file and the provider agree with the machines. */
  ghost predicate MomentOk(load: string -> Workflow, m: Moment) {
    && FileMirrors(m.seen)
    && WorldMirrors(m.deleted, m.effects, m.invites, m.seen.runs)
    && FlowsMirror(load, m.seen.watches, m.seen.runs)
  }

  /** A crash strikes every machine and leaves the file and the provider as they are. */
  function AfterCrash(runs: map<Key, Tracked>): map<Key, Tracked> {
    map k | k in runs :: Stepped(runs[k], Input.Crash)
  }

  /** What a new process finds of a history that ended with a crash. */
  function Crashed(m: Moment): Moment {
    m.(seen := Snapshot(m.seen.watches, AfterCrash(m.seen.runs)))
  }

  /** Moment `j` agrees with its machines and follows the one before by single steps, or by a crash. */
  ghost predicate Linked(load: string -> Workflow, trace: seq<Moment>, j: nat)
    requires j < |trace|
  {
    && MomentOk(load, trace[j])
    && (j > 0 ==> StepApart(trace[j - 1].seen, trace[j].seen) || trace[j] == Crashed(trace[j - 1]))
  }

  ghost predicate TraceOk(load: string -> Workflow, trace: seq<Moment>) {
    forall j :: 0 <= j < |trace| ==> Linked(load, trace, j)
  }

  /** The crashes among the first moments up to `j` that struck hold `k`'s machine. */
  ghost function CrashMoments(trace: seq<Moment>, k: Key, j: nat): nat
    requires j < |trace|
  {
    if j == 0 then 0
    else
      CrashMoments(trace, k, j - 1)
      + if k in trace[j - 1].seen.runs && trace[j] == Crashed(trace[j - 1]) then 1 else 0
  }

  lemma TraceGrows(load: string -> Workflow, trace: seq<Moment>, m: Moment)
    requires trace != [] && TraceOk(load, trace) && MomentOk(load, m)
    requires StepApart(trace[|trace| - 1].seen, m.seen) || m == Crashed(trace[|trace| - 1])
    ensures TraceOk(load, trace + [m])
  {
    hide MomentOk, StepApart, Crashed;
    var next := trace + [m];
    forall j | 0 <= j < |next|
      ensures Linked(load, next, j)
    {
      if j < |trace| { assert Linked(load, trace, j); }
    }
  }

  /** The last moment of a history. */
  function Now(trace: seq<Moment>): Moment
    requires trace != []
  {
    trace[|trace| - 1]
  }

  lemma CrashKeepsFile(s: Snapshot)
    requires FileMirrors(s)
    ensures FileMirrors(Snapshot(s.watches, AfterCrash(s.runs)))
  {
    hide Unique, Entry;
  }

  lemma CrashKeepsWorld(deleted: set<Key>, effects: seq<Effect>, invites: set<Invitation>, runs: map<Key, Tracked>)
    requires WorldMirrors(deleted, effects, invites, runs)
    ensures WorldMirrors(deleted, effects, invites, AfterCrash(runs))
  {
    hide EffectsOf;
    forall k | k in runs
      ensures HoldMirrors(deleted, effects, invites, k, AfterCrash(runs)[k].run)
    {
      assert HoldMirrors(deleted, effects, invites, k, runs[k].run);
    }
  }

  lemma CrashKeepsFlows(load: string -> Workflow, watches: seq<WatchItem>, runs: map<Key, Tracked>)
    requires FlowsMirror(load, watches, runs)
    ensures FlowsMirror(load, watches, AfterCrash(runs))
  {}

  lemma CrashIsOk(load: string -> Workflow, m: Moment)
    requires MomentOk(load, m)
    ensures MomentOk(load, Crashed(m))
  {
    hide FileMirrors, WorldMirrors, FlowsMirror;
    CrashKeepsFile(m.seen);
    CrashKeepsWorld(m.deleted, m.effects, m.invites, m.seen.runs);
    CrashKeepsFlows(load, m.seen.watches, m.seen.runs);
  }

  lemma CrashTrace(load: string -> Workflow, trace: seq<Moment>)
    requires trace != [] && TraceOk(load, trace)
    ensures TraceOk(load, trace + [Crashed(Now(trace))])
  {
    hide MomentOk, StepApart, Crashed;
    assert Linked(load, trace, |trace| - 1);
    CrashIsOk(load, Now(trace));
    TraceGrows(load, trace, Crashed(Now(trace)));
  }

  lemma TracePrefix(load: string -> Workflow, trace: seq<Moment>, j: nat)
    requires TraceOk(load, trace) && j <= |trace|
    ensures TraceOk(load, trace[..j])
  {
    hide MomentOk, StepApart;
    forall i | 0 <= i < j
      ensures Linked(load, trace[..j], i)
    {
      assert Linked(load, trace, i);
    }
  }

  /** What moved a hold's machine from one moment to the next, if anything did. */
  lemma MovedBy(load: string -> Workflow, trace: seq<Moment>, j: nat, k: Key) returns (x: Option<Input>)
    requires TraceOk(load, trace) && 0 < j < |trace| && k in trace[j - 1].seen.runs
    ensures k in trace[j].seen.runs
    ensures trace[j].seen.runs[k]
            == if x.Some? then Stepped(trace[j - 1].seen.runs[k], x.value) else trace[j - 1].seen.runs[k]
    ensures x.Some? && x.value.Crash? <==> trace[j] == Crashed(trace[j - 1])
  {
    hide MomentOk, Apply;
    assert Linked(load, trace, j);
    var a, b := trace[j - 1].seen, trace[j].seen;
    if trace[j] == Crashed(trace[j - 1]) {
      x := Some(Input.Crash);
    } else if b.runs[k] == a.runs[k] {
      x := None;
    } else {
      var y: Input :| !y.Crash? && b.runs[k] == Stepped(a.runs[k], y);
      x := Some(y);
    }
  }

  lemma MachineRan(a: Tracked, b: Tracked, c: Tracked, x: Option<Input>)
    requires b.flow == a.flow && b.order == a.order && a.inputs <= b.inputs
    requires b.run == Execute(a.flow, a.run, b.inputs[|a.inputs|..])
    requires c == if x.Some? then Stepped(b, x.value) else b
    ensures c.flow == a.flow && c.order == a.order && a.inputs <= c.inputs
    ensures c.run == Execute(a.flow, a.run, c.inputs[|a.inputs|..])
  {
    if x.Some? {
      ExecuteAppend(a.flow, a.run, b.inputs[|a.inputs|..], x.value);
      assert c.inputs[|a.inputs|..] == b.inputs[|a.inputs|..] + [x.value];
    }
  }

  /** Main result on passes. Between any two moments of the daemon's history each hold's machine ran the
      inputs noted in between, so a file found after a crash holds only entries that the single-hold
      theorems speak about, and no two for the same hold. */
  lemma {:induction false} HistoryRunsEachMachine(load: string -> Workflow, trace: seq<Moment>, i: nat, j: nat, k: Key)
    requires TraceOk(load, trace) && i <= j < |trace| && k in trace[i].seen.runs
    ensures var a, b := trace[i].seen, trace[j].seen;
            && k in b.runs && b.runs[k].flow == a.runs[k].flow && b.runs[k].order == a.runs[k].order
            && a.runs[k].inputs <= b.runs[k].inputs
            && b.runs[k].run
               == Execute(a.runs[k].flow, a.runs[k].run, b.runs[k].inputs[|a.runs[k].inputs|..])
            && Unique(b.watches) && Entry(b.watches, k) == b.runs[k].run.entry
    decreases j
  {
    hide Stepped, StepApart, Crashed;
    assert Linked(load, trace, j);
    var a := trace[i].seen.runs[k];
    if i == j {
      assert a.inputs[|a.inputs|..] == [];
    } else {
      HistoryRunsEachMachine(load, trace, i, j - 1, k);
      var x := MovedBy(load, trace, j, k);
      hide TraceOk, Entry, Unique;
      MachineRan(a, trace[j - 1].seen.runs[k], trace[j].seen.runs[k], x);
    }
  }

  /** The history is of real runs: at every moment each hold's machine is what the inputs noted for it made of
      the run its command created, and the crashes among them are the crashes of the history. */
  lemma {:induction false} EveryRunWasCreated(load: string -> Workflow, trace: seq<Moment>, j: nat, k: Key)
    requires trace != [] && TraceOk(load, trace) && trace[0].seen.runs == map[]
    requires j < |trace| && k in trace[j].seen.runs
    ensures var t := trace[j].seen.runs[k];
            && t.flow.steps != [] && t.run == Execute(t.flow, CreatedFrom(t.flow, t.order), t.inputs)
            && Crashes(t.inputs) == CrashMoments(trace, k, j)
    decreases j
  {
    hide MomentOk, CreatedFrom, Crashed;
    if k in trace[j - 1].seen.runs {
      EveryRunWasCreated(load, trace, j - 1, k);
      var x := MovedBy(load, trace, j, k);
      hide TraceOk;
      CreatedRan(trace[j - 1].seen.runs[k], trace[j].seen.runs[k], x);
    } else {
      CreatedJustNow(load, trace, j, k);
      NoCrashesBefore(load, trace, j, k);
    }
  }

  lemma CreatedJustNow(load: string -> Workflow, trace: seq<Moment>, j: nat, k: Key)
    requires TraceOk(load, trace) && 0 < j < |trace| && k !in trace[j - 1].seen.runs && k in trace[j].seen.runs
    ensures JustCreated(trace[j].seen.runs[k])
  {
    hide MomentOk, JustCreated;
    assert Linked(load, trace, j);
  }

  lemma CreatedRan(b: Tracked, c: Tracked, x: Option<Input>)
    requires b.flow.steps != [] && b.run == Execute(b.flow, CreatedFrom(b.flow, b.order), b.inputs)
    requires c == if x.Some? then Stepped(b, x.value) else b
    ensures c.flow == b.flow && c.order == b.order
    ensures c.run == Execute(c.flow, CreatedFrom(c.flow, c.order), c.inputs)
    ensures Crashes(c.inputs) == Crashes(b.inputs) + if x.Some? && x.value.Crash? then 1 else 0
  {
    if x.Some? {
      ExecuteAppend(b.flow, CreatedFrom(b.flow, b.order), b.inputs, x.value);
      CrashesAppend(b.inputs, x.value);
    }
  }

  lemma {:induction false} NoCrashesBefore(load: string -> Workflow, trace: seq<Moment>, j: nat, k: Key)
    requires TraceOk(load, trace) && 0 < j < |trace| && k !in trace[j - 1].seen.runs
    ensures CrashMoments(trace, k, j) == 0
    decreases j
  {
    if j > 1 {
      assert Linked(load, trace, j - 1);
      NoCrashesBefore(load, trace, j - 1, k);
    }
  }

  lemma {:induction false} CrashesAppend(xs: seq<Input>, x: Input)
    ensures Crashes(xs + [x]) == Crashes(xs) + if x.Crash? then 1 else 0
  {
    if xs != [] {
      assert (xs + [x])[1..] == xs[1..] + [x];
      CrashesAppend(xs[1..], x);
    }
  }

  /** Over the daemon's whole history, and so over any crash, the stored cursor of every hold with an
      accepted workflow only moves forward. */
  lemma {:induction false} HistoryMovesForward(load: string -> Workflow, trace: seq<Moment>, i: nat, j: nat, k: Key)
    requires trace != [] && TraceOk(load, trace) && trace[0].seen.runs == map[]
    requires i <= j < |trace| && k in trace[i].seen.runs && Workflows.Valid(trace[i].seen.runs[k].flow)
    ensures var a, b := trace[i].seen, trace[j].seen;
            && k in b.runs
            && Leads(a.runs[k].flow, CursorOf(a.runs[k].run), CursorOf(b.runs[k].run))
            && (Entry(a.watches, k).Some? && Entry(b.watches, k).Some? ==>
                  Leads(a.runs[k].flow, EntryCursor(Entry(a.watches, k).value), EntryCursor(Entry(b.watches, k).value)))
  {
    hide TraceOk;
    var a, b := trace[i].seen, trace[j].seen;
    EveryRunWasCreated(load, trace, i, k);
    HistoryRunsEachMachine(load, trace, i, j, k);
    HistoryRunsEachMachine(load, trace, i, i, k);
    CursorMovesForward(a.runs[k].flow, a.runs[k].run, b.runs[k].inputs[|a.runs[k].inputs|..]);
  }

  /** At every moment of the history, every branch ever committed for a hold with an accepted workflow starts
      where its gate sends the outcome that was read. */
  lemma {:induction false} AnswersDecide(load: string -> Workflow, trace: seq<Moment>, j: nat, k: Key, c: nat)
    requires trace != [] && TraceOk(load, trace) && trace[0].seen.runs == map[]
    requires j < |trace| && k in trace[j].seen.runs && Workflows.Valid(trace[j].seen.runs[k].flow)
    requires c < |trace[j].seen.runs[k].run.commits|
    ensures RightBranch(trace[j].seen.runs[k].flow, trace[j].seen.runs[k].run.commits[c])
  {
    var t := trace[j].seen.runs[k];
    EveryRunWasCreated(load, trace, j, k);
    hide TraceOk, Workflows.Valid, RightBranch, Execute;
    CommitsFollowAnswers(t.flow, t.run, c);
  }

  /** The crash theorems, for the effects the provider really saw. At every moment of the history, whatever
      crashed on the way, a hold's effects hold the crash-free ones in order and beside them at most one for
      each crash of the history that struck it; if each step's guard answered alike in the polls noted for it,
      they are crash-free up to immediate repetitions; and if its walks were too short for anything to be
      overtaken they keep the order of the flow. */
  lemma EffectsOnlyStutter(load: string -> Workflow, trace: seq<Moment>, j: nat, k: Key)
    requires trace != [] && TraceOk(load, trace) && trace[0].seen.runs == map[]
    requires j < |trace| && k in trace[j].seen.runs && Workflows.Valid(trace[j].seen.runs[k].flow)
    ensures var t := trace[j].seen.runs[k];
            var w, s, created := t.flow, t.run, CreatedFrom(t.flow, t.order);
            var effects := EffectsOf(trace[j].effects, k);
            && Sound(w) && Entry(trace[j].seen.watches, k) == s.entry && effects == s.log
            && s.acked == Ideal(w, (e: nat) => e in s.acked, Next(w, 0, ""), Outs(s.commits))
            && Within(Settled(s), effects) && |effects| <= |Settled(s)| + CrashMoments(trace, k, j)
            && (forall allow :: AnswersStay(w, allow, created, t.inputs) ==>
                  && Destutter(effects) <= Ideal(w, allow, Next(w, 0, ""), Outs(s.commits))
                  && (s.completed || CursorOf(s).Waiting? ==>
                        Destutter(effects) == Ideal(w, allow, Next(w, 0, ""), Outs(s.commits)))
                  && |effects| <= |Destutter(effects)| + CrashMoments(trace, k, j))
            && (forall span :: Spans(w, span, t.order.env.day) && Spanned(w, span, t.inputs) ==>
                  (!Overtakes(w, Conditions(t.order.manager, span, -1)) ==> Ascending(w, Destutter(effects))))
  {
    assert Linked(load, trace, j);
    EveryRunWasCreated(load, trace, j, k);
    var m, t := trace[j], trace[j].seen.runs[k];
    assert HoldMirrors(m.deleted, m.effects, m.invites, k, t.run);
    hide TraceOk, MomentOk, WorldMirrors, FlowsMirror, Execute, Overtakes, Ideal, Workflows.Valid, CrashMoments;
    var w, o := t.flow, t.order;
    AcknowledgedEffectsAreCrashFree(w, o.provider, o.watch, o.manager, o.env, t.inputs);
    forall allow | AnswersStay(w, allow, CreatedFrom(w, o), t.inputs) {
      CrashesOnlyStutter(w, allow, o.provider, o.watch, o.manager, o.env, t.inputs);
    }
    forall span | Spans(w, span, o.env.day) && Spanned(w, span, t.inputs)
      ensures !Overtakes(w, Conditions(o.manager, span, -1)) ==> Ascending(w, Destutter(t.run.log))
    {
      var c := Conditions(o.manager, span, -1);
      if !Overtakes(w, c) { NothingOvertakenKeepsOrder(w, c, o.provider, o.watch, o.env, t.inputs); }
    }
  }
}
