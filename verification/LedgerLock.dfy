/** Any number of processes changing the ledger at once, each asking for the file lock, loading, storing
    and unlocking, and possibly dying at any point, which drops its lock. Whatever the interleaving,
    the file is what the calls leave one after another (internal/coverage/coverage.go, withFileLock). */
module LedgerLock {
  import opened Base
  import opened Coverage

  type Caller = nat

  /** What a caller asks for; a booking reads its clock only once it holds the lock. */
  datatype Request = Book(entry: Entry) | Withdraw(holdID: string)

  function CallAt(r: Request, now: int): Call {
    match r
    case Book(e) => Record(e, now)
    case Withdraw(id) => Remove(id)
  }

  datatype Phase =
    | Refused(request: Request)
    | Asking(request: Request)
    | Holding(request: Request)
    | Read(request: Request, now: int, seen: File)
    | Stored(request: Request)
    | Returned(request: Request)
    | Dead(request: Request)

  /** The requests that never get to the file: an empty window, and the removal of no hold. */
  predicate AsksNothing(r: Request) {
    match r
    case Book(e) => !(e.start < e.end)
    case Withdraw(id) => id == ""
  }

  predicate InSection(p: Phase) {
    p.Holding? || p.Read? || p.Stored?
  }

  datatype Entered = Entered(caller: Caller, call: Call)

  /** `log` notes each store, in the order they happen. */
  datatype State = State(file: File, holder: Option<Caller>, phases: map<Caller, Phase>, log: seq<Entered>)

  datatype Event =
    | Ask(c: Caller, request: Request)
    | Lock(c: Caller)
    | Load(c: Caller, now: int)
    | Store(c: Caller)
    | Unlock(c: Caller)
    | Die(c: Caller)

  function At(s: State, c: Caller, p: Phase): State {
    s.(phases := s.phases[c := p])
  }

  /** One action of one process; an action whose turn has not come does nothing. `locking` tells whether
      the file lock is taken at all. */
  function Step(locking: bool, s: State, e: Event): State {
    match e
    case Ask(c, r) =>
      if c in s.phases then s
      else At(s, c, if TouchesNothing(CallAt(r, 0)) then Refused(r) else Asking(r))
    case Lock(c) =>
      if c in s.phases && s.phases[c].Asking? && (locking ==> s.holder.None?) then
        At(s, c, Holding(s.phases[c].request)).(holder := Some(c))
      else s
    case Load(c, now) =>
      if c in s.phases && s.phases[c].Holding? then At(s, c, Read(s.phases[c].request, now, s.file)) else s
    case Store(c) =>
      if c in s.phases && s.phases[c].Read? then
        var Read(r, now, seen) := s.phases[c];
        At(s, c, Phase.Stored(r)).(file := After(seen, CallAt(r, now)), log := s.log + [Entered(c, CallAt(r, now))])
      else s
    case Unlock(c) =>
      if c in s.phases && s.phases[c].Stored? then
        At(s, c, Returned(s.phases[c].request)).(holder := None)
      else s
    case Die(c) =>
      if c in s.phases && !s.phases[c].Returned? && !s.phases[c].Refused? then
        At(s, c, Dead(s.phases[c].request)).(holder := if s.holder == Some(c) then None else s.holder)
      else s
  }

  function Run(locking: bool, s: State, es: seq<Event>): State {
    if es == [] then s else Step(locking, Run(locking, s, es[..|es| - 1]), es[|es| - 1])
  }

  function Start(f: File): State {
    State(f, None, map[], [])
  }

  function Calls(log: seq<Entered>): seq<Call> {
    seq(|log|, i requires 0 <= i < |log| => log[i].call)
  }

  // ---------------------------------------------------------------------------------------
  // The invariant
  // ---------------------------------------------------------------------------------------

  /** The phases a caller can be in after its store. */
  predicate HasStored(p: Phase) {
    p.Stored? || p.Returned? || p.Dead?
  }

  /** Entry `i` of the log is the one store of its caller, for what that caller asked. */
  ghost predicate EntryOk(s: State, i: nat)
    requires i < |s.log|
  {
    var Entered(c, call) := s.log[i];
    && c in s.phases && HasStored(s.phases[c])
    && exists now :: call == CallAt(s.phases[c].request, now)
  }

  ghost predicate InLog(log: seq<Entered>, c: Caller) {
    exists i :: 0 <= i < |log| && log[i].caller == c
  }

  ghost predicate OncePerCaller(log: seq<Entered>) {
    forall i, j :: 0 <= i < j < |log| ==> log[i].caller != log[j].caller
  }

  ghost predicate Inv(f: File, s: State) {
    && s.file == AfterAll(f, Calls(s.log))
    && OncePerCaller(s.log)
    && (forall i :: 0 <= i < |s.log| ==> EntryOk(s, i))
    && (s.holder.Some? ==> s.holder.value in s.phases && InSection(s.phases[s.holder.value]))
    && forall c :: c in s.phases ==> CallerOk(s, c)
  }

  /** A caller inside holds the lock and knows the file, and its store is noted; a request for nothing is
      refused before that. */
  ghost predicate CallerOk(s: State, c: Caller)
    requires c in s.phases
  {
    && (InSection(s.phases[c]) ==> s.holder == Some(c))
    && (s.phases[c].Read? ==> s.phases[c].seen == s.file)
    && (s.phases[c].Stored? || s.phases[c].Returned? ==> InLog(s.log, c))
    && (s.phases[c].Refused? <==> AsksNothing(s.phases[c].request))
  }

  lemma EntryStays(s: State, t: State, i: nat)
    requires i < |s.log| && EntryOk(s, i) && s.log <= t.log
    requires var c := s.log[i].caller;
             c in t.phases && t.phases[c].request == s.phases[c].request && HasStored(t.phases[c])
    ensures EntryOk(t, i)
  {}

  lemma StoreKeeps(f: File, s: State, c: Caller)
    requires Inv(f, s) && c in s.phases && s.phases[c].Read?
    ensures Inv(f, Step(true, s, Store(c)))
  {
    var t := Step(true, s, Store(c));
    var Read(r, now, seen) := s.phases[c];
    var call := CallAt(r, now);
    var n := |s.log|;
    assert Calls(t.log)[..n] == Calls(s.log) && Calls(t.log)[n] == call;
    forall i | 0 <= i < |t.log|
      ensures EntryOk(t, i) && (i < n ==> t.log[i].caller != c)
    {
      if i < n { assert EntryOk(s, i) && t.log[i] == s.log[i]; }
    }
    hide EntryOk, After, CallAt;
    forall d | d in t.phases
      ensures CallerOk(t, d)
    {
      assert CallerOk(s, d);
      if InLog(s.log, d) { InLogStays(s.log, t.log, d); }
      if d == c { assert t.log[n].caller == c; }
    }
    hide CallerOk;
  }

  lemma InLogStays(a: seq<Entered>, b: seq<Entered>, c: Caller)
    requires InLog(a, c) && a <= b
    ensures InLog(b, c)
  {
    var i :| 0 <= i < |a| && a[i].caller == c;
    assert b[i].caller == c;
  }

  /** A step that stores nothing leaves the file, and every caller with its request. */
  lemma QuietStep(s: State, e: Event)
    requires !(e.Store? && e.c in s.phases && s.phases[e.c].Read?)
    ensures var t := Step(true, s, e);
            && t.log == s.log && t.file == s.file
            && forall c :: c in s.phases ==>
                 && c in t.phases && t.phases[c].request == s.phases[c].request
                 && (HasStored(s.phases[c]) ==> HasStored(t.phases[c]))
  {
    hide CallAt, TouchesNothing;
  }

  lemma QuietCaller(s: State, e: Event, c: Caller)
    requires !(e.Store? && e.c in s.phases && s.phases[e.c].Read?)
    requires forall d :: d in s.phases ==> CallerOk(s, d)
    requires c in Step(true, s, e).phases
    ensures CallerOk(Step(true, s, e), c)
  {
    if e.Ask? { assert TouchesNothing(CallAt(e.request, 0)) <==> AsksNothing(e.request); }
    hide InLog, CallAt, TouchesNothing, AsksNothing;
    if c in s.phases { assert CallerOk(s, c); }
  }

  lemma StepKeeps(f: File, s: State, e: Event)
    requires Inv(f, s)
    ensures Inv(f, Step(true, s, e))
  {
    if e.Store? && e.c in s.phases && s.phases[e.c].Read? {
      StoreKeeps(f, s, e.c);
    } else {
      var t := Step(true, s, e);
      QuietStep(s, e);
      forall i | 0 <= i < |t.log|
        ensures EntryOk(t, i)
      {
        assert EntryOk(s, i);
        EntryStays(s, t, i);
      }
      forall c | c in t.phases
        ensures CallerOk(t, c)
      {
        QuietCaller(s, e, c);
      }
      hide EntryOk, AfterAll, OncePerCaller, CallerOk, CallAt, TouchesNothing;
    }
  }

  lemma {:induction false} RunKeeps(f: File, es: seq<Event>)
    ensures Inv(f, Run(true, Start(f), es))
  {
    if es == [] {
      assert Calls([]) == [];
    } else {
      RunKeeps(f, es[..|es| - 1]);
      StepKeeps(f, Run(true, Start(f), es[..|es| - 1]), es[|es| - 1]);
    }
  }

  lemma {:induction false} LogGrows(locking: bool, s: State, es: seq<Event>, k: nat)
    requires k <= |es|
    ensures Run(locking, s, es[..k]).log <= Run(locking, s, es).log
    decreases |es|
  {
    if k < |es| {
      LogGrows(locking, s, es[..|es| - 1], k);
      assert es[..|es| - 1][..k] == es[..k];
    } else {
      assert es[..k] == es;
    }
  }

  // ---------------------------------------------------------------------------------------
  // What the lock guarantees
  // ---------------------------------------------------------------------------------------

  /** Main result. After any interleaving the file is what some order of calls leaves: each call that
      returned is in it once, with the request it asked for, and a caller that died is in it at most
      once. Nobody is ever inside beside the holder, a lock in use belongs to a living process, and exactly the
      requests for nothing are refused. */
  lemma LockedLedgerIsSerial(f: File, es: seq<Event>)
    ensures var s := Run(true, Start(f), es);
            && s.file == AfterAll(f, Calls(s.log))
            && OncePerCaller(s.log)
            && (forall i :: 0 <= i < |s.log| ==> EntryOk(s, i))
            && (forall c :: c in s.phases && s.phases[c].Returned? ==> InLog(s.log, c))
            && (forall c :: c in s.phases && InSection(s.phases[c]) ==> s.holder == Some(c))
            && (s.holder.Some? ==> s.holder.value in s.phases && InSection(s.phases[s.holder.value]))
            && (forall c :: c in s.phases ==> (s.phases[c].Refused? <==> AsksNothing(s.phases[c].request)))
  {
    RunKeeps(f, es);
  }

  lemma {:induction false} RunJoins(s: State, a: seq<Event>, b: seq<Event>)
    ensures Run(true, s, a + b) == Run(true, Run(true, s, a), b)
    decreases |b|
  {
    if b == [] {
      assert a + b == a;
    } else {
      assert (a + b)[..|a + b| - 1] == a + b[..|b| - 1];
      RunJoins(s, a, b[..|b| - 1]);
    }
  }

  lemma OneEvent(s: State, e: Event)
    ensures Run(true, s, [e]) == Step(true, s, e)
  {
    assert [e][..0] == [];
  }

  ghost predicate NobodyDies(es: seq<Event>) {
    forall k :: 0 <= k < |es| ==> !es[k].Die?
  }

  /** A caller inside can always get out by its own events. */
  lemma {:induction false} CanFinish(s: State, c: Caller) returns (more: seq<Event>)
    requires c in s.phases && InSection(s.phases[c])
    ensures var t := Run(true, s, more);
            t.holder.None? && t.phases == s.phases[c := Returned(s.phases[c].request)]
    ensures NobodyDies(more)
    decreases if s.phases[c].Holding? then 2 else if s.phases[c].Read? then 1 else 0
  {
    var e := match s.phases[c]
      case Holding(_) => Load(c, 0)
      case Read(_, _, _) => Store(c)
      case _ => Unlock(c);
    var t := Step(true, s, e);
    OneEvent(s, e);
    more := [e];
    if !s.phases[c].Stored? {
      var rest := CanFinish(t, c);
      RunJoins(s, [e], rest);
      hide Run;
      more := [e] + rest;
    }
  }

  /** And a caller who asked can go through once the lock is free. */
  lemma CanPass(s: State, c: Caller) returns (more: seq<Event>)
    requires c in s.phases && s.phases[c].Asking? && s.holder.None?
    ensures var t := Run(true, s, more); c in t.phases && t.phases[c].Returned?
    ensures NobodyDies(more)
  {
    var t := Step(true, s, Lock(c));
    OneEvent(s, Lock(c));
    hide Run;
    var rest := CanFinish(t, c);
    RunJoins(s, [Lock(c)], rest);
    more := [Lock(c)] + rest;
  }

  lemma CanRelease(f: File, s: State, c: Caller) returns (more: seq<Event>)
    requires Inv(f, s) && c in s.phases && s.phases[c].Asking?
    ensures var t := Run(true, s, more); t.holder.None? && c in t.phases && t.phases[c].Asking?
    ensures NobodyDies(more)
  {
    more := [];
    if s.holder.Some? {
      hide Run;
      more := CanFinish(s, s.holder.value);
    }
  }

  /** Nobody is shut out: whatever happened, a caller that asked can still return, with no other process
      dying. */
  lemma NobodyIsShutOut(f: File, es: seq<Event>, c: Caller) returns (more: seq<Event>)
    requires c in Run(true, Start(f), es).phases && Run(true, Start(f), es).phases[c].Asking?
    ensures c in Run(true, Start(f), es + more).phases && Run(true, Start(f), es + more).phases[c].Returned?
    ensures NobodyDies(more)
  {
    var s := Run(true, Start(f), es);
    RunKeeps(f, es);
    hide Run, Inv, Start;
    var first := CanRelease(f, s, c);
    var last := CanPass(Run(true, s, first), c);
    more := first + last;
    RunJoins(s, first, last);
    RunJoins(Start(f), es, more);
  }

  /** A reader, who takes no lock, only ever sees the file between two calls of that same order. */
  lemma ReadersSeeSerialStates(f: File, es: seq<Event>, k: nat)
    requires k <= |es|
    ensures var now, later := Run(true, Start(f), es[..k]), Run(true, Start(f), es);
            var n := |now.log|;
            n <= |later.log| && now.file == AfterAll(f, Calls(later.log)[..n])
  {
    var now, later := Run(true, Start(f), es[..k]), Run(true, Start(f), es);
    RunKeeps(f, es[..k]);
    LogGrows(true, Start(f), es, k);
    assert Calls(later.log)[..|now.log|] == Calls(now.log);
  }

  /** The order agrees with time: a call that returned before another was asked comes before it. */
  lemma {:induction false} OrderFollowsTime(f: File, es: seq<Event>, k: nat, i: nat, j: nat)
    requires k <= |es|
    requires var now, later := Run(true, Start(f), es[..k]), Run(true, Start(f), es);
             && i < |later.log| && j < |later.log|
             && later.log[i].caller in now.phases && now.phases[later.log[i].caller].Returned?
             && later.log[j].caller !in now.phases
    ensures i < j
  {
    var now, later := Run(true, Start(f), es[..k]), Run(true, Start(f), es);
    RunKeeps(f, es[..k]);
    RunKeeps(f, es);
    LogGrows(true, Start(f), es, k);
    var m :| 0 <= m < |now.log| && now.log[m].caller == later.log[i].caller;
    assert later.log[m] == now.log[m];
    assert i == m;
    forall n | 0 <= n < |now.log|
      ensures now.log[n].caller in now.phases
    {
      assert EntryOk(now, n);
    }
  }

  /** The phase a caller that met a missing file at time 0 is in after its first `n` actions. */
  function PhaseAfter(r: Request, n: nat): Phase {
    if n <= 1 then Asking(r)
    else if n == 2 then Holding(r)
    else if n == 3 then Read(r, 0, Missing)
    else if n == 4 then Phase.Stored(r)
    else Returned(r)
  }

  /** The two bookings' actions, taken in turns. */
  function TakingTurns(amy: Entry, bob: Entry): seq<Event> {
    [Ask(0, Book(amy)), Ask(1, Book(bob)), Lock(0), Lock(1), Load(0, 0), Load(1, 0),
     Store(0), Store(1), Unlock(0), Unlock(1)]
  }

  /** Where the first `n` of them lead when nobody takes the lock. */
  ghost predicate Midway(s: State, n: nat, amy: Entry, bob: Entry) {
    && s.phases.Keys == (if n == 0 then {} else if n == 1 then {0} else {0, 1})
    && (0 in s.phases ==> s.phases[0] == PhaseAfter(Book(amy), (n + 1) / 2))
    && (1 in s.phases ==> s.phases[1] == PhaseAfter(Book(bob), n / 2))
    && s.file == (if n <= 6 then Missing else if n == 7 then Written([amy]) else Written([bob]))
    && s.log == (if n <= 6 then [] else if n == 7 then [Entered(0, Record(amy, 0))]
                 else [Entered(0, Record(amy, 0)), Entered(1, Record(bob, 0))])
  }

  lemma NoTurn(amy: Entry, bob: Entry)
    ensures Midway(Start(Missing), 0, amy, bob) && |TakingTurns(amy, bob)| == 10
  {}

  lemma OneTurn(s: State, n: nat, amy: Entry, bob: Entry)
    requires n < 10 && Midway(s, n, amy, bob)
    requires amy.start < amy.end && bob.start < bob.end
    ensures Midway(Step(false, s, TakingTurns(amy, bob)[n]), n + 1, amy, bob)
  {}

  lemma TurnsTaken(s: State, amy: Entry, bob: Entry)
    requires Midway(s, 10, amy, bob)
    ensures s.phases.Keys == {0, 1} && s.phases[0].Returned? && s.phases[1].Returned?
    ensures s.file == Written([bob]) && s.log == [Entered(0, Record(amy, 0)), Entered(1, Record(bob, 0))]
  {}

  /** Without the lock the main result fails: two bookings at once both return, and the file is what
      neither order of the two leaves. */
  lemma UnlockedUpdatesAreLost() returns (es: seq<Event>)
    ensures var s := Run(false, Start(Missing), es);
            && |s.log| == 2
            && s.phases.Keys == {0, 1} && s.phases[0].Returned? && s.phases[1].Returned?
            && s.file != AfterAll(Missing, [s.log[0].call, s.log[1].call])
            && s.file != AfterAll(Missing, [s.log[1].call, s.log[0].call])
  {
    var amy, bob := Entry("amy", "1", 5, 6, ""), Entry("bob", "2", 5, 6, "");
    NoTurn(amy, bob);
    hide Midway, TakingTurns, Step, AfterAll;
    es := [];
    for i := 0 to 10
      invariant Midway(Run(false, Start(Missing), es), i, amy, bob)
    {
      var e := TakingTurns(amy, bob)[i];
      OneTurn(Run(false, Start(Missing), es), i, amy, bob);
      assert (es + [e])[..|es|] == es;
      es := es + [e];
    }
    TurnsTaken(Run(false, Start(Missing), es), amy, bob);
    BothBooked(amy, bob);
    BothBooked(bob, amy);
  }

  lemma BothBooked(a: Entry, b: Entry)
    requires a.start < a.end && b.start < b.end && a.end > 0
    ensures AfterAll(Missing, [Record(a, 0), Record(b, 0)]) == Written([a, b])
  {
    var first, second := Record(a, 0), Record(b, 0);
    assert [first, second][..1] == [first] && [first][..0] == [];
    assert EndingAfter([], 0) == [];
    assert AfterAll(Missing, [first]) == Written([a]);
    assert [a][..0] == [];
    assert EndingAfter([a], 0) == [a];
  }
}
