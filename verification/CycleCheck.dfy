/** The acyclicity check: a three-colour depth-first search over an array of colours, exact in
    both directions, and yielding a topological order when it finds no cycle
    (internal/workflow/workflow.go, hasCycle). */
module CycleCheck {
  import opened Base
  import opened Workflows

  datatype Color = White | Gray | Black

  function Whites(colors: seq<Color>): set<int> {
    set k | 0 <= k < |colors| && colors[k] == White
  }

  /** `order` lists every step once, each after all the steps it can move to. */
  ghost predicate IsReverseTopological(w: Workflow, order: seq<int>) {
    && (forall i :: 0 <= i < |w.steps| ==> i in order)
    && Finished(w, order)
  }

  /** The finished steps so far: distinct, each after all of its targets. */
  ghost predicate Finished(w: Workflow, order: seq<int>) {
    && Distinct(order)
    && forall k, j :: 0 <= k < |order| && Edge(w, order[k], j) ==> j in order[..k]
  }

  lemma EdgeGoesEarlier(w: Workflow, order: seq<int>, a: int, b: int) returns (m: int)
    requires Finished(w, order)
    requires 0 <= a < |order| && Edge(w, order[a], b)
    ensures 0 <= m < a && order[m] == b
  {
    m :| 0 <= m < a && order[..a][m] == b;
  }

  lemma {:induction false} PathGoesEarlier(w: Workflow, order: seq<int>, p: seq<int>, a: int) returns (b: int)
    requires Finished(w, order)
    requires |p| >= 2 && IsPath(w, p)
    requires 0 <= a < |order| && order[a] == p[0]
    ensures 0 <= b < a && order[b] == p[|p| - 1]
    decreases |p|
  {
    assert Edge(w, p[0], p[0 + 1]);
    b := EdgeGoesEarlier(w, order, a, p[1]);
    if |p| > 2 {
      var rest := p[1..];
      forall k | 0 <= k < |rest| - 1
        ensures Edge(w, rest[k], rest[k + 1])
      {
        assert Edge(w, p[k + 1], p[k + 1 + 1]);
      }
      b := PathGoesEarlier(w, order, rest, b);
    }
  }

  lemma TopologicalOrderExcludesCycles(w: Workflow, order: seq<int>)
    requires IsReverseTopological(w, order)
    ensures !Cyclic(w)
  {
    if i :| Precedes(w, i, i) {
      PrecedesInRange(w, i, i);
      var p :| IsPathBetween(w, p, i, i);
      assert i in order;
      var a :| 0 <= a < |order| && order[a] == i;
      var b := PathGoesEarlier(w, order, p, a);
      assert false;
    }
  }

  /** What the search knows: the gray steps are the current path, the black ones are finished. */
  ghost predicate Searching(w: Workflow, colors: seq<Color>, path: seq<int>, order: seq<int>) {
    && |colors| == |w.steps|
    && IsPath(w, path)
    && Finished(w, order)
    && (forall k :: 0 <= k < |colors| ==> (colors[k] == Gray <==> k in path))
    && (forall k :: 0 <= k < |colors| ==> (colors[k] == Black <==> k in order))
    && (forall k :: k in path ==> 0 <= k < |colors|)
    && (forall k :: k in order ==> 0 <= k < |colors|)
  }

  lemma BackEdgeClosesCycle(w: Workflow, path: seq<int>, j: int)
    requires path != [] && IsPath(w, path) && j in path && Edge(w, path[|path| - 1], j)
    ensures Cyclic(w)
  {
    var k :| 0 <= k < |path| && path[k] == j;
    var loop := path[k..] + [j];
    forall m | 0 <= m < |loop| - 1
      ensures Edge(w, loop[m], loop[m + 1])
    {
      if m < |path| - k - 1 {
        assert Edge(w, path[k + m], path[k + m + 1]);
      }
    }
    assert IsPathBetween(w, loop, j, j);
    assert Precedes(w, j, j);
  }

  lemma EdgeStays(w: Workflow, i: int, j: int)
    requires Edge(w, i, j)
    ensures 0 <= j < |w.steps|
  {}

  /** The recursive visit of an unseen step. */
  method Visit(w: Workflow, color: array<Color>, i: nat, ghost path: seq<int>, ghost order: seq<int>)
    returns (found: bool, ghost order': seq<int>)
    requires i < |w.steps| && color.Length == |w.steps| && color[i] == White
    requires Searching(w, color[..], path, order)
    requires path != [] ==> Edge(w, path[|path| - 1], i)
    modifies color
    ensures found ==> Cyclic(w)
    ensures !found ==> Searching(w, color[..], path, order') && i in order'
    ensures !found ==> order <= order'
    ensures !found ==> Whites(color[..]) < Whites(old(color[..]))
    decreases Whites(color[..])
  {
    hide Edge, IsPathBetween;
    ghost var start := color[..];
    color[i] := Gray;
    assert i in Whites(start) && i !in Whites(color[..]);
    ghost var here := path + [i];
    order' := order;
    var targets := JumpTargets(w, i);
    assert IsPath(w, here) by {
      forall k | 0 <= k < |here| - 1
        ensures Edge(w, here[k], here[k + 1])
      {
        if k + 1 < |path| { assert Edge(w, path[k], path[k + 1]); }
      }
    }
    for t := 0 to |targets|
      invariant color.Length == |w.steps|
      invariant Searching(w, color[..], here, order')
      invariant order <= order'
      invariant Whites(color[..]) < Whites(start)
      invariant forall u :: 0 <= u < t ==> targets[u] in order'
    {
      var j := targets[t];
      assert j in targets && Edge(w, i, j);
      EdgeStays(w, i, j);
      if color[j] == Gray {
        BackEdgeClosesCycle(w, here, j);
        return true, order';
      }
      if color[j] == White {
        found, order' := Visit(w, color, j, here, order');
        if found { return true, order'; }
      }
    }
    ghost var before := color[..];
    color[i] := Black;
    assert color[..] == before[i := Black];
    assert i in here;
    FinishOne(w, before, path, order', i);
    order' := order' + [i];
    found := false;
  }

  lemma FinishOne(w: Workflow, colors: seq<Color>, path: seq<int>, order: seq<int>, i: nat)
    requires i < |w.steps|
    requires Searching(w, colors, path + [i], order)
    requires i !in path
    requires forall j :: Edge(w, i, j) ==> j in order
    ensures Searching(w, colors[i := Black], path, order + [i])
    ensures Whites(colors[i := Black]) == Whites(colors)
  {
    var here := path + [i];
    assert here[|path|] == i && i in here;
    assert i !in order;
    forall k | 0 <= k < |path| - 1
      ensures Edge(w, path[k], path[k + 1])
    {
      assert Edge(w, here[k], here[k + 1]);
    }
    var longer := order + [i];
    forall k, j | 0 <= k < |longer| && Edge(w, longer[k], j)
      ensures j in longer[..k]
    {
      assert longer[..k] == order[..k];
      if k == |order| { assert order[..k] == order; }
    }
    assert forall k :: k in path ==> k in here;
    assert forall k :: k in here ==> k in path || k == i;
    assert forall k :: k in longer <==> k in order || k == i;
  }

  /** The check itself: it answers true exactly when the step graph has a cycle. */
  method HasCycle(w: Workflow) returns (found: bool, ghost order: seq<int>)
    ensures found <==> Cyclic(w)
    ensures !found ==> IsReverseTopological(w, order)
  {
    var color := new Color[|w.steps|](_ => White);
    order := [];
    for i := 0 to |w.steps|
      invariant color.Length == |w.steps|
      invariant Searching(w, color[..], [], order)
      invariant forall k :: 0 <= k < i ==> k in order
    {
      if color[i] == White {
        found, order := Visit(w, color, i, [], order);
        if found { return true, order; }
      }
    }
    found := false;
    TopologicalOrderExcludesCycles(w, order);
  }
}
