/** The ledger of booked time off: what its file holds after each call, and what it answers. Dropping
    past entries never shows in an answer about the present or the future
    (internal/coverage/coverage.go). */
module Coverage {

  datatype Entry = Entry(owner: string, holdID: string, start: int, end: int, subject: string)

  /** Half-open windows: touching ones do not overlap. */
  predicate Overlaps(e: Entry, start: int, end: int) {
    e.start < end && start < e.end
  }

  /** The moment `t` lies in a half-open window. */
  predicate During(t: int, start: int, end: int) {
    start <= t < end
  }

  /** Two windows overlap exactly when some moment lies in both. */
  lemma OverlapsExactly(e: Entry, start: int, end: int)
    requires e.start < e.end && start < end
    ensures Overlaps(e, start, end) <==> exists t :: During(t, e.start, e.end) && During(t, start, end)
  {
    if Overlaps(e, start, end) {
      var t := if e.start < start then start else e.start;
      assert During(t, e.start, e.end) && During(t, start, end);
    }
  }

  /** The ledger's file, which may be missing or unreadable. */
  datatype File = Missing | Unreadable | Written(entries: seq<Entry>)

  /** The entries load() returns, when it does not fail. */
  function Loaded(f: File): seq<Entry> {
    if f.Written? then f.entries else []
  }

  /** A call that rewrites the ledger; `now` is the clock it reads while holding the lock. */
  datatype Call = Record(entry: Entry, now: int) | Remove(holdID: string)

  /** The calls that are refused or return before touching the file. */
  predicate TouchesNothing(c: Call) {
    match c
    case Record(e, _) => e.end <= e.start
    case Remove(id) => id == ""
  }

  // ---------------------------------------------------------------------------------------
  // What a call leaves behind
  // ---------------------------------------------------------------------------------------

  /** The entries ending after `t`, in order. */
  function EndingAfter(s: seq<Entry>, t: int): seq<Entry> {
    if s == [] then []
    else
      var front, last := s[..|s| - 1], s[|s| - 1];
      if last.end > t then EndingAfter(front, t) + [last] else EndingAfter(front, t)
  }

  function WithoutHold(s: seq<Entry>, id: string): (r: seq<Entry>)
    ensures |r| <= |s| && (|r| == |s| ==> r == s)
  {
    if s == [] then []
    else
      var front, last := s[..|s| - 1], s[|s| - 1];
      assert s == front + [last];
      if last.holdID != id then WithoutHold(front, id) + [last] else WithoutHold(front, id)
  }

  function After(f: File, c: Call): File {
    if f.Unreadable? || TouchesNothing(c) then f
    else match c
      case Record(e, now) => Written(EndingAfter(Loaded(f), now) + [e])
      case Remove(id) =>
        if |WithoutHold(Loaded(f), id)| == |Loaded(f)| then f else Written(WithoutHold(Loaded(f), id))
  }

  function AfterAll(f: File, calls: seq<Call>): File {
    if calls == [] then f
    else After(AfterAll(f, calls[..|calls| - 1]), calls[|calls| - 1])
  }

  /** The same calls on a plain log: nothing is ever dropped for being past. */
  function Logged(s: seq<Entry>, calls: seq<Call>): seq<Entry> {
    if calls == [] then s
    else
      var before, c := Logged(s, calls[..|calls| - 1]), calls[|calls| - 1];
      if TouchesNothing(c) then before
      else match c
        case Record(e, _) => before + [e]
        case Remove(id) => WithoutHold(before, id)
  }

  // ---------------------------------------------------------------------------------------
  // What is asked of it
  // ---------------------------------------------------------------------------------------

  /** The entries an Overlapping query selects, before they are sorted. */
  function Selected(s: seq<Entry>, start: int, end: int, exclude: string): seq<Entry> {
    if s == [] then []
    else
      var front, last := s[..|s| - 1], s[|s| - 1];
      var chosen := Selected(front, start, end, exclude);
      if last.owner != exclude && Overlaps(last, start, end) then chosen + [last] else chosen
  }

  lemma {:induction false} EndingAfterHas(s: seq<Entry>, t: int, e: Entry)
    ensures e in EndingAfter(s, t) <==> e in s && e.end > t
  {
    if s != [] {
      assert s == s[..|s| - 1] + [s[|s| - 1]];
      EndingAfterHas(s[..|s| - 1], t, e);
    }
  }

  lemma {:induction false} WithoutHoldHas(s: seq<Entry>, id: string, e: Entry)
    ensures e in WithoutHold(s, id) <==> e in s && e.holdID != id
  {
    if s != [] {
      assert s == s[..|s| - 1] + [s[|s| - 1]];
      WithoutHoldHas(s[..|s| - 1], id, e);
    }
  }

  lemma {:induction false} NothingToDrop(s: seq<Entry>, id: string)
    requires forall e :: e in s ==> e.holdID != id
    ensures WithoutHold(s, id) == s
  {
    if s != [] {
      assert s == s[..|s| - 1] + [s[|s| - 1]];
      NothingToDrop(s[..|s| - 1], id);
    }
  }

  lemma PruneAppend(s: seq<Entry>, e: Entry, t: int)
    ensures EndingAfter(s + [e], t) == if e.end > t then EndingAfter(s, t) + [e] else EndingAfter(s, t)
  {
    assert (s + [e])[..|s|] == s;
  }

  lemma RemoveAppend(s: seq<Entry>, e: Entry, id: string)
    ensures WithoutHold(s + [e], id) == if e.holdID != id then WithoutHold(s, id) + [e] else WithoutHold(s, id)
  {
    assert (s + [e])[..|s|] == s;
  }

  /** Dropping past entries, and dropping a hold's, works on each part of the list on its own: what stays keeps
      its order and its number. */
  lemma {:induction false} DroppingKeepsOrder(a: seq<Entry>, b: seq<Entry>, t: int, id: string)
    ensures EndingAfter(a + b, t) == EndingAfter(a, t) + EndingAfter(b, t)
    ensures WithoutHold(a + b, id) == WithoutHold(a, id) + WithoutHold(b, id)
  {
    if b == [] {
      assert a + b == a;
    } else {
      var front, last := b[..|b| - 1], b[|b| - 1];
      assert a + b == (a + front) + [last] && b == front + [last];
      PruneAppend(a + front, last, t);
      PruneAppend(front, last, t);
      RemoveAppend(a + front, last, id);
      RemoveAppend(front, last, id);
      hide EndingAfter, WithoutHold;
      DroppingKeepsOrder(a, front, t, id);
    }
  }

  lemma {:induction false} SelectedHas(s: seq<Entry>, start: int, end: int, exclude: string, e: Entry)
    ensures e in Selected(s, start, end, exclude) <==> e in s && e.owner != exclude && Overlaps(e, start, end)
  {
    if s != [] {
      assert s == s[..|s| - 1] + [s[|s| - 1]];
      SelectedHas(s[..|s| - 1], start, end, exclude, e);
    }
  }

  function Owners(s: seq<Entry>): set<string> {
    set e | e in s :: e.owner
  }

  /** People are counted, not bookings: one more booking of somebody already off leaves the count, and the
      first one of somebody else adds one. */
  lemma AnotherBooking(s: seq<Entry>, e: Entry, start: int, end: int, exclude: string)
    ensures var off, later := Selected(s, start, end, exclude), Selected(s + [e], start, end, exclude);
            |Owners(later)|
            == |Owners(off)|
               + if e.owner != exclude && Overlaps(e, start, end) && !(exists x :: x in off && x.owner == e.owner)
                 then 1 else 0
  {
    assert (s + [e])[..|s|] == s;
    var off := Selected(s, start, end, exclude);
    assert Owners(off + [e]) == Owners(off) + {e.owner} by {
      assert forall x :: x in off + [e] <==> x in off || x == e;
    }
  }

  ghost predicate NoneStartsAfter(s: seq<Entry>, t: int) {
    forall x :: x in s ==> x.start <= t
  }

  /** Every entry starts no earlier than all before it. */
  ghost predicate StartsInOrder(s: seq<Entry>) {
    forall j :: 0 <= j < |s| ==> NoneStartsAfter(s[..j], s[j].start)
  }

  /** `answer` is what sort.Slice may make of `chosen`: the order of equal starts is left open. */
  ghost predicate IsSortOf(answer: seq<Entry>, chosen: seq<Entry>) {
    multiset(answer) == multiset(chosen) && StartsInOrder(answer)
  }

  lemma OrderGrows(s: seq<Entry>, e: Entry)
    requires StartsInOrder(s) && NoneStartsAfter(s, e.start)
    ensures StartsInOrder(s + [e])
  {
    var r := s + [e];
    forall j | 0 <= j < |r|
      ensures NoneStartsAfter(r[..j], r[j].start)
    {
      assert r[..j] == s[..j];
      if j == |s| { assert s[..j] == s; }
    }
  }

  lemma OrderOfFront(s: seq<Entry>, k: nat)
    requires StartsInOrder(s) && k <= |s|
    ensures StartsInOrder(s[..k])
  {
    forall j | 0 <= j < k
      ensures NoneStartsAfter(s[..k][..j], s[..k][j].start)
    {
      assert s[..k][..j] == s[..j];
    }
  }

  lemma SortHas(answer: seq<Entry>, chosen: seq<Entry>, e: Entry)
    requires IsSortOf(answer, chosen)
    ensures e in answer <==> e in chosen
  {
    assert e in answer <==> e in multiset(answer);
    assert e in chosen <==> e in multiset(chosen);
  }

  /** Insertion at the last place that keeps the order. */
  function Inserted(s: seq<Entry>, e: Entry): seq<Entry> {
    if s == [] || s[|s| - 1].start <= e.start then s + [e]
    else Inserted(s[..|s| - 1], e) + [s[|s| - 1]]
  }

  lemma LastStartsLast(s: seq<Entry>)
    requires s != [] && StartsInOrder(s)
    ensures NoneStartsAfter(s, s[|s| - 1].start)
  {
    assert s == s[..|s| - 1] + [s[|s| - 1]];
    assert NoneStartsAfter(s[..|s| - 1], s[|s| - 1].start);
  }

  lemma {:induction false} SameEntries(r: seq<Entry>, front: seq<Entry>, e: Entry, last: Entry)
    requires multiset(r) == multiset(front + [e])
    ensures multiset(r + [last]) == multiset(front + [last] + [e])
  {}

  lemma {:induction false} InsertedSorts(s: seq<Entry>, e: Entry)
    requires StartsInOrder(s)
    ensures IsSortOf(Inserted(s, e), s + [e])
  {
    hide StartsInOrder;
    if s == [] || s[|s| - 1].start <= e.start {
      if s != [] { LastStartsLast(s); }
      OrderGrows(s, e);
    } else {
      var front, last := s[..|s| - 1], s[|s| - 1];
      OrderOfFront(s, |s| - 1);
      LastStartsLast(s);
      InsertedSorts(front, e);
      var r := Inserted(front, e);
      forall x | x in r
        ensures x.start <= last.start
      {
        SortHas(r, front + [e], x);
      }
      OrderGrows(r, last);
      assert s == front + [last];
      SameEntries(r, front, e, last);
    }
  }

  method SortByStart(s: seq<Entry>) returns (sorted: seq<Entry>)
    ensures IsSortOf(sorted, s)
  {
    sorted := [];
    for i := 0 to |s|
      invariant IsSortOf(sorted, s[..i])
    {
      assert s[..i + 1] == s[..i] + [s[i]];
      assert multiset(sorted + [s[i]]) == multiset(s[..i + 1]);
      InsertedSorts(sorted, s[i]);
      sorted := Inserted(sorted, s[i]);
    }
    assert s[..|s|] == s;
  }

  // ---------------------------------------------------------------------------------------
  // The ledger
  // ---------------------------------------------------------------------------------------

  class Ledger {
    var file: File

    constructor ()
      ensures file == Missing
    {
      file := Missing;
    }

    method RecordEntry(e: Entry, now: int) returns (ok: bool)
      modifies this
      ensures file == After(old(file), Record(e, now))
      ensures ok <==> e.start < e.end && !old(file).Unreadable?
      ensures ok ==> file.Written? && e in file.entries && forall x :: x in file.entries ==> x == e || x.end > now
    {
      if e.end <= e.start { return false; }
      if file.Unreadable? { return false; }
      var entries := Loaded(file);
      var kept := [];
      for i := 0 to |entries|
        invariant kept == EndingAfter(entries[..i], now)
      {
        assert entries[..i + 1][..i] == entries[..i];
        if entries[i].end > now { kept := kept + [entries[i]]; }
      }
      assert entries[..|entries|] == entries;
      file := Written(kept + [e]);
      forall x | x in kept
        ensures x.end > now
      {
        EndingAfterHas(entries, now, x);
      }
      ok := true;
    }

    method RemoveHold(holdID: string) returns (ok: bool)
      modifies this
      ensures file == After(old(file), Remove(holdID))
      ensures ok <==> holdID == "" || !old(file).Unreadable?
      ensures ok && holdID != "" ==> forall x :: x in Loaded(file) ==> x.holdID != holdID
      ensures file != old(file) ==> exists x :: x in Loaded(old(file)) && x.holdID == holdID
    {
      if holdID == "" { return true; }
      if file.Unreadable? { return false; }
      var entries := Loaded(file);
      var kept := [];
      for i := 0 to |entries|
        invariant kept == WithoutHold(entries[..i], holdID)
      {
        assert entries[..i + 1][..i] == entries[..i];
        if entries[i].holdID != holdID { kept := kept + [entries[i]]; }
      }
      assert entries[..|entries|] == entries;
      forall x | x in kept
        ensures x.holdID != holdID
      {
        WithoutHoldHas(entries, holdID, x);
      }
      ok := true;
      if |kept| == |entries| { return; }
      if forall x :: x in entries ==> x.holdID != holdID { NothingToDrop(entries, holdID); }
      file := Written(kept);
    }

    method Overlapping(start: int, end: int, exclude: string) returns (ok: bool, out: seq<Entry>)
      ensures ok <==> !file.Unreadable?
      ensures ok ==> IsSortOf(out, Selected(Loaded(file), start, end, exclude))
    {
      if file.Unreadable? { return false, []; }
      var entries := Loaded(file);
      out := [];
      for i := 0 to |entries|
        invariant out == Selected(entries[..i], start, end, exclude)
      {
        var e := entries[i];
        assert entries[..i + 1][..i] == entries[..i];
        if e.owner == exclude { continue; }
        if Overlaps(e, start, end) { out := out + [e]; }
      }
      assert entries[..|entries|] == entries;
      out := SortByStart(out);
      ok := true;
    }

    /** CountOff: distinct people, however many entries each has. */
    method CountOff(start: int, end: int, exclude: string) returns (ok: bool, n: nat)
      ensures ok <==> !file.Unreadable?
      ensures ok ==> n == |Owners(Selected(Loaded(file), start, end, exclude))|
    {
      var entries: seq<Entry>;
      ok, entries := Overlapping(start, end, exclude);
      if !ok { return false, 0; }
      var owners: set<string> := {};
      for i := 0 to |entries|
        invariant owners == Owners(entries[..i])
      {
        assert entries[..i + 1] == entries[..i] + [entries[i]];
        owners := owners + {entries[i].owner};
      }
      assert entries[..|entries|] == entries;
      SortKeepsOwners(entries, Selected(Loaded(file), start, end, exclude));
      n := |owners|;
    }
  }

  lemma SortKeepsOwners(answer: seq<Entry>, chosen: seq<Entry>)
    requires IsSortOf(answer, chosen)
    ensures Owners(answer) == Owners(chosen)
  {
    forall e
      ensures e in answer <==> e in chosen
    {
      SortHas(answer, chosen, e);
    }
  }

  // ---------------------------------------------------------------------------------------
  // Pruning is invisible
  // ---------------------------------------------------------------------------------------

  lemma {:induction false} PruneTwice(s: seq<Entry>, a: int, t: int)
    requires a <= t
    ensures EndingAfter(EndingAfter(s, a), t) == EndingAfter(s, t)
  {
    if s != [] {
      var front, last := s[..|s| - 1], s[|s| - 1];
      PruneTwice(front, a, t);
      if last.end > a {
        assert (EndingAfter(front, a) + [last])[..|EndingAfter(front, a)|] == EndingAfter(front, a);
      }
    }
  }

  lemma {:induction false} PruneThenRemove(s: seq<Entry>, t: int, id: string)
    ensures EndingAfter(WithoutHold(s, id), t) == WithoutHold(EndingAfter(s, t), id)
  {
    if s != [] {
      var front, last := s[..|s| - 1], s[|s| - 1];
      PruneThenRemove(front, t, id);
      var a, b := WithoutHold(front, id), EndingAfter(front, t);
      assert (a + [last])[..|a|] == a && (b + [last])[..|b|] == b;
    }
  }

  /** A window starting at `t` or later selects nothing that ended by `t`. */
  lemma {:induction false} PastIsNeverSelected(s: seq<Entry>, t: int, start: int, end: int, exclude: string)
    requires t <= start
    ensures Selected(EndingAfter(s, t), start, end, exclude) == Selected(s, start, end, exclude)
  {
    if s != [] {
      var front, last := s[..|s| - 1], s[|s| - 1];
      PastIsNeverSelected(front, t, start, end, exclude);
      var r := EndingAfter(front, t);
      assert (r + [last])[..|r|] == r;
    }
  }

  /** No recorded call read a clock later than `t`. */
  predicate ClocksUpTo(calls: seq<Call>, t: int) {
    forall i :: 0 <= i < |calls| && calls[i].Record? ==> calls[i].now <= t
  }

  /** The ledger and the plain log hold the same entries still running at `t`, in the same order. */
  lemma {:induction false} SameAfter(f: File, calls: seq<Call>, t: int)
    requires !f.Unreadable? && ClocksUpTo(calls, t)
    ensures !AfterAll(f, calls).Unreadable?
    ensures EndingAfter(Loaded(AfterAll(f, calls)), t) == EndingAfter(Logged(Loaded(f), calls), t)
  {
    if calls != [] {
      var front, c := calls[..|calls| - 1], calls[|calls| - 1];
      SameAfter(f, front, t);
      var s, u := Loaded(AfterAll(f, front)), Logged(Loaded(f), front);
      if !TouchesNothing(c) {
        match c
        case Record(e, now) =>
          assert calls[|calls| - 1].now <= t;
          PruneTwice(s, now, t);
          PruneAppend(EndingAfter(s, now), e, t);
          PruneAppend(u, e, t);
        case Remove(id) =>
          PruneThenRemove(s, t, id);
          PruneThenRemove(u, t, id);
      }
    }
  }

  /** Main result. Whatever was recorded and removed, in whatever clock order, a query whose window
      starts at or after every clock value used selects from the pruned ledger exactly what it would
      select from one that never prunes, so both queries answer the same. */
  lemma PruningIsInvisible(f: File, calls: seq<Call>, t: int, start: int, end: int, exclude: string)
    requires !f.Unreadable? && ClocksUpTo(calls, t) && t <= start
    ensures Selected(Loaded(AfterAll(f, calls)), start, end, exclude)
            == Selected(Logged(Loaded(f), calls), start, end, exclude)
  {
    SameAfter(f, calls, t);
    PastIsNeverSelected(Loaded(AfterAll(f, calls)), t, start, end, exclude);
    PastIsNeverSelected(Logged(Loaded(f), calls), t, start, end, exclude);
  }

  /** A booking that is over when the next one is made is gone from the file, but not from the plain log. */
  lemma TwoBookings(past: Entry, next: Entry, a: int, t: int)
    requires past.start < past.end <= t && next.start < next.end
    ensures AfterAll(Missing, [Record(past, a), Record(next, t)]) == Written([next])
    ensures Logged([], [Record(past, a), Record(next, t)]) == [past, next]
  {
    var first, second := Record(past, a), Record(next, t);
    assert [first, second][..1] == [first] && [first][..0] == [] && [past][..0] == [];
    assert EndingAfter([], a) == [] && EndingAfter([past], t) == [];
    assert AfterAll(Missing, [first]) == Written([past]) && Logged([], [first]) == [past];
  }

  /** The bound is sharp: for any earlier start there are calls after which the two differ. */
  lemma EarlierWindowsShowPruning(t: int, start: int) returns (calls: seq<Call>)
    requires start < t
    ensures ClocksUpTo(calls, t)
    ensures Selected(Loaded(AfterAll(Missing, calls)), start, t, "") != Selected(Logged([], calls), start, t, "")
  {
    hide Selected;
    var past := Entry("amy", "1", start, start + 1, "");
    var next := Entry("bob", "2", t, t + 1, "");
    calls := [Record(past, start), Record(next, t)];
    TwoBookings(past, next, start, t);
    hide AfterAll, Logged;
    SelectedHas([past, next], start, t, "", past);
    SelectedHas([next], start, t, "", past);
  }
}
