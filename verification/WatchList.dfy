/** The watch list as a value. A hold is known by its provider and its id there; the list has at most one
    entry for it. Storing an item drops the older entry of its hold and appends the new one, removing takes
    the entry out, and a pass over the list keeps, drops or replaces each entry in its place, so that the
    entry of a hold is all a later process learns about its run (cmd/watch.go, cmd/daemon.go). */
module WatchList {
  import opened Base
  import opened Protocol

  datatype Key = Key(provider: string, holdID: string)

  function KeyOf(item: WatchItem): Key {
    Key(item.provider, item.holdID)
  }

  ghost predicate Unique(items: seq<WatchItem>) {
    forall i, j :: 0 <= i < j < |items| ==> KeyOf(items[i]) != KeyOf(items[j])
  }

  function Without(items: seq<WatchItem>, k: Key): (r: seq<WatchItem>)
    ensures forall x :: x in r <==> x in items && KeyOf(x) != k
    ensures |r| <= |items|
  {
    if items == [] then []
    else
      var front, last := items[..|items| - 1], items[|items| - 1];
      assert items == front + [last];
      if KeyOf(last) == k then Without(front, k) else Without(front, k) + [last]
  }

  /** The list after storing an item: any older entry of its hold is replaced. */
  function Stored(items: seq<WatchItem>, item: WatchItem): seq<WatchItem> {
    Without(items, KeyOf(item)) + [item]
  }

  /** The entry of a hold. */
  function Entry(items: seq<WatchItem>, k: Key): (r: Option<WatchItem>)
    ensures r.Some? ==> r.value in items && KeyOf(r.value) == k
    ensures r.None? <==> forall x :: x in items ==> KeyOf(x) != k
  {
    if items == [] then None
    else if KeyOf(items[|items| - 1]) == k then Some(items[|items| - 1])
    else
      assert items == items[..|items| - 1] + [items[|items| - 1]];
      Entry(items[..|items| - 1], k)
  }

  lemma {:induction false} WithoutKeepsUnique(items: seq<WatchItem>, k: Key)
    requires Unique(items)
    ensures Unique(Without(items, k))
  {
    if items != [] {
      var front, last := items[..|items| - 1], items[|items| - 1];
      WithoutKeepsUnique(front, k);
      if KeyOf(last) != k {
        var r := Without(front, k);
        forall i, j | 0 <= i < j < |r + [last]|
          ensures KeyOf((r + [last])[i]) != KeyOf((r + [last])[j])
        {
          if j == |r| { assert r[i] in front; }
        }
      }
    }
  }

  lemma {:induction false} EntryWithout(items: seq<WatchItem>, k: Key, other: Key)
    requires other != k
    ensures Entry(Without(items, k), other) == Entry(items, other)
  {
    if items != [] {
      var front, last := items[..|items| - 1], items[|items| - 1];
      EntryWithout(front, k, other);
      if KeyOf(last) != k {
        assert (Without(front, k) + [last])[..|Without(front, k)|] == Without(front, k);
      }
    }
  }

  /** Storing an item touches no other hold's entry. */
  lemma StoredEntries(items: seq<WatchItem>, item: WatchItem, other: Key)
    ensures Entry(Stored(items, item), other) == if other == KeyOf(item) then Some(item) else Entry(items, other)
  {
    var r := Without(items, KeyOf(item));
    assert (r + [item])[..|r|] == r;
    if other != KeyOf(item) { EntryWithout(items, KeyOf(item), other); }
  }

  /** Storing an item takes out the items of the same provider and hold, and no others; it comes last. */
  lemma StoredHas(items: seq<WatchItem>, item: WatchItem, x: WatchItem)
    ensures x in Stored(items, item)
            <==> x == item || (x in items && (x.provider != item.provider || x.holdID != item.holdID))
    ensures var r := Stored(items, item); r[|r| - 1] == item
  {}

  /** Taking out a hold works on each part of the list on its own: what stays keeps its order and number. */
  lemma {:induction false} WithoutKeepsOrder(a: seq<WatchItem>, b: seq<WatchItem>, k: Key)
    ensures Without(a + b, k) == Without(a, k) + Without(b, k)
  {
    if b == [] {
      assert a + b == a;
    } else {
      var front, last := b[..|b| - 1], b[|b| - 1];
      assert (a + b)[..|a + b| - 1] == a + front;
      WithoutKeepsOrder(a, front, k);
    }
  }

  lemma StoredKeepsUnique(items: seq<WatchItem>, item: WatchItem)
    requires Unique(items)
    ensures Unique(Stored(items, item))
  {
    WithoutKeepsUnique(items, KeyOf(item));
    var r := Without(items, KeyOf(item));
    assert forall i :: 0 <= i < |r| ==> r[i] in r;
  }

  // ---------------------------------------------------------------------------------------
  // The list a pass writes
  // ---------------------------------------------------------------------------------------

  /** The list of what is kept, in order. */
  function Kept(outcomes: seq<Option<WatchItem>>): seq<WatchItem> {
    if outcomes == [] then []
    else
      var last := outcomes[|outcomes| - 1];
      Kept(outcomes[..|outcomes| - 1]) + if last.Some? then [last.value] else []
  }

  lemma KeptAppends(outcomes: seq<Option<WatchItem>>, o: Option<WatchItem>)
    ensures Kept(outcomes + [o]) == if o.Some? then Kept(outcomes) + [o.value] else Kept(outcomes)
  {
    assert (outcomes + [o])[..|outcomes|] == outcomes;
  }

  /** Whatever is kept is some hold's outcome. */
  lemma {:induction false} KeptFrom(outcomes: seq<Option<WatchItem>>, x: WatchItem) returns (j: nat)
    requires x in Kept(outcomes)
    ensures j < |outcomes| && outcomes[j] == Some(x)
  {
    var n := |outcomes| - 1;
    if outcomes[n] == Some(x) { j := n; } else { j := KeptFrom(outcomes[..n], x); }
  }

  /** Each outcome is for the hold at the same place of the list. */
  ghost predicate OutcomesFor(list: seq<WatchItem>, outcomes: seq<Option<WatchItem>>) {
    && |outcomes| <= |list|
    && forall j :: 0 <= j < |outcomes| && outcomes[j].Some? ==> KeyOf(outcomes[j].value) == KeyOf(list[j])
  }

  /** None of the first `n` places of the list is hold `k`'s. */
  ghost predicate NoneFor(list: seq<WatchItem>, n: nat, k: Key)
    requires n <= |list|
  {
    forall j :: 0 <= j < n ==> KeyOf(list[j]) != k
  }

  lemma AppendEntries(items: seq<WatchItem>, item: WatchItem)
    requires Unique(items) && forall x :: x in items ==> KeyOf(x) != KeyOf(item)
    ensures Unique(items + [item])
    ensures forall k :: Entry(items + [item], k) == if k == KeyOf(item) then Some(item) else Entry(items, k)
  {
    assert (items + [item])[..|items|] == items;
    forall i, j | 0 <= i < j < |items + [item]|
      ensures KeyOf((items + [item])[i]) != KeyOf((items + [item])[j])
    {
      if j == |items| { assert items[i] in items; }
    }
  }

  /** The list holds exactly the outcomes so far, one entry per kept hold. */
  ghost predicate EntriesAre(list: seq<WatchItem>, outcomes: seq<Option<WatchItem>>)
    requires |outcomes| <= |list|
  {
    && Unique(Kept(outcomes))
    && (forall j :: 0 <= j < |outcomes| ==> Entry(Kept(outcomes), KeyOf(list[j])) == outcomes[j])
    && (forall k :: NoneFor(list, |outcomes|, k) ==> Entry(Kept(outcomes), k) == None)
  }

  /** One more outcome is the entry of its own hold and changes no other. */
  lemma KeptGrows(list: seq<WatchItem>, front: seq<Option<WatchItem>>, o: Option<WatchItem>)
    requires |front| < |list| && EntriesAre(list, front) && NoneFor(list, |front|, KeyOf(list[|front|]))
    requires o.Some? ==> KeyOf(o.value) == KeyOf(list[|front|])
    ensures Unique(Kept(front + [o]))
    ensures forall k :: Entry(Kept(front + [o]), k)
                        == if k == KeyOf(list[|front|]) then o else Entry(Kept(front), k)
  {
    hide Entry, Unique;
    assert (front + [o])[..|front|] == front;
    if o.Some? {
      AppendEntries(Kept(front), o.value) by {
        assert Entry(Kept(front), KeyOf(o.value)) == None;
      }
    } else {
      assert Kept(front + [o]) == Kept(front);
    }
  }

  /** The written list has one entry per kept hold, and the entry of each hold is its outcome. */
  lemma {:induction false} KeptEntries(list: seq<WatchItem>, outcomes: seq<Option<WatchItem>>)
    requires Unique(list) && OutcomesFor(list, outcomes)
    ensures EntriesAre(list, outcomes)
    decreases |outcomes|
  {
    if outcomes != [] {
      var n := |outcomes| - 1;
      var front, o := outcomes[..n], outcomes[n];
      assert outcomes == front + [o];
      assert NoneFor(list, n, KeyOf(list[n]));
      KeptEntries(list, front);
      hide Entry, Unique, Kept;
      KeptGrows(list, front, o);
      forall k | NoneFor(list, n + 1, k)
        ensures Entry(Kept(outcomes), k) == None
      {
        assert NoneFor(list, n, k) && KeyOf(list[n]) != k;
      }
      forall j | 0 <= j < n
        ensures Entry(Kept(outcomes), KeyOf(list[j])) == outcomes[j]
      {
        assert KeyOf(list[j]) != KeyOf(list[n]) && front[j] == outcomes[j];
      }
    }
  }
}
