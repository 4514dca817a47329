/** No early fan-out. The file-order check of Validate does not rule out a notify step before the first
    approval was read; what does is that no route leads to one without passing the first approve step. Some
    run notifies early if and only if there is such a route (internal/workflow/workflow.go, cmd/run.go). */
module NotifyOrder {
  import opened Workflows
  import opened Protocol
  import opened Clocks
  import opened Routes
  import opened RouteRuns

  predicate NotifiesAt(w: Workflow, x: Place) {
    0 <= x.step < |w.steps| && w.steps[x.step].verb == Notify && Permits(w, x.step, x.count, x.day)
  }

  /** The routes on which the first approve step is not read. */
  function Unapproved(w: Workflow, manager: string, span: Span): Conditions {
    Conditions(manager, span, FirstApprove(w))
  }

  /** Some route leads to a notify step that may be performed there, the first approve step unread. */
  ghost predicate EarlyRoute(w: Workflow, manager: string, span: Span)
    requires w.steps != []
  {
    exists x :: Reachable(w, Unapproved(w, manager, span), x) && NotifiesAt(w, x)
  }

  predicate HasNotified(w: Workflow, s: Run) {
    exists i :: i in s.log && i < |w.steps| && w.steps[i].verb == Notify
  }

  predicate NotifiedUnread(w: Workflow, s: Run) {
    HasNotified(w, s) && !HasRead(s, FirstApprove(w))
  }

  /** Without an early route, no run whose walks last no longer performs a notify step before an outcome was
      read at the first approve step. */
  lemma {:induction false} NoRouteNoEarlyNotify(w: Workflow, provider: string, watch: bool, manager: string,
                                                span: Span, env: Env, xs: seq<Input>)
    requires Valid(w) && !EarlyRoute(w, manager, span) && Spans(w, span, env.day) && Spanned(w, span, xs)
    ensures !NotifiedUnread(w, Execute(w, Created(w, provider, watch, manager, env), xs))
  {
    RunsFollowRoutes(w, Unapproved(w, manager, span), provider, watch, env, xs);
  }

  // ---------------------------------------------------------------------------------------
  // A simple sufficient condition
  // ---------------------------------------------------------------------------------------

  lemma {:induction false} RoutesStayBefore(w: Workflow, c: Conditions, p: seq<Place>)
    requires w.steps != [] && FlowsToFirstApprove(w) && FirstApprove(w) > 0
    requires IsRoute(w, c, p) && c.avoid == FirstApprove(w)
    ensures p[|p| - 1].step <= FirstApprove(w)
    decreases |p|
  {
    if |p| > 1 {
      RoutesStayBefore(w, c, p[..|p| - 1]);
    }
  }

  /** Main result. When the steps before the first approve step set no explicit next, no run performs a
      notify step before an outcome was read at that approve step. */
  lemma TeamHearsAfterFirstApproval(w: Workflow, provider: string, watch: bool, manager: string,
                                    env: Env, xs: seq<Input>)
    requires Valid(w) && Has(w, Approve) && FlowsToFirstApprove(w)
    ensures !NotifiedUnread(w, Execute(w, Created(w, provider, watch, manager, env), xs))
  {
    assert FirstApprove(w) != 0;
    var c := Unapproved(w, manager, Unbounded);
    if x :| Reachable(w, c, x) && NotifiesAt(w, x) {
      var p :| IsRoute(w, c, p) && p[|p| - 1] == x;
      RoutesStayBefore(w, c, p);
      assert Has(w, Notify);
    } else {
      NoRouteNoEarlyNotify(w, provider, watch, manager, Unbounded, env, xs);
    }
  }

  // ---------------------------------------------------------------------------------------
  // The exact condition
  // ---------------------------------------------------------------------------------------

  /** At a notify step that may be performed, it is. */
  lemma NotifiesHere(w: Workflow, c: Conditions, s: Run, x: Place, h: Wish)
    requires Sound(w) && Stands(w, c, s, x, h) && !h.fails && NotifiesAt(w, x) && c.avoid == FirstApprove(w)
    ensures NotifiedUnread(w, Execute(w, s, [Act]))
  {
    Unvisited(w, s);
    hide Guards.Allows, Next, Stands;
    assert GuardAllows(w, s.pc.env, x.step);
    var t := WalkTurn(w, s);
    assert [Act][1..] == [] && Execute(w, s, [Act]) == t;
    assert t.log[|s.log|] == x.step;
  }

  /** An early route is taken by some run. */
  lemma EarlyRouteNotifiesEarly(w: Workflow, manager: string, span: Span) returns (env: Env, xs: seq<Input>)
    requires Valid(w) && Sound(w) && EarlyRoute(w, manager, span)
    ensures Real(w, span, env, xs) && NotifiedUnread(w, Execute(w, CreatedIn(w, manager, env), xs))
  {
    hide Valid, Stands, Execute, NotifiedUnread, Reachable, OnTime, Clocked, Spans, CreatedIn;
    var c := Unapproved(w, manager, span);
    var x :| Reachable(w, c, x) && NotifiesAt(w, x);
    ReachableSpans(w, c, x);
    var now, later := PickTime(w, span, x.day, 0);
    var h := Wish(SomeHold(x.count), x.day, now, later, -1, false, true);
    NothingPrecedes(w, -1, x.step);
    env, xs := ReachPlace(w, c, x, h);
    NotifiesHere(w, c, Execute(w, CreatedIn(w, manager, env), xs), x, WishAt(w, c, x, h));
    assert [Act][1..] == [];
    hide Sound, NotifiesAt, WishAt, EarlyRoute, NotBehind;
    ActsTakeNoTime(w, span, later, [Act]);
    RealGoesOn(w, span, CreatedIn(w, manager, env), env, xs, [Act]);
    xs := xs + [Act];
  }

  /** Main result. In an accepted workflow no run notifies the team before the first approval was read if
      and only if no early route leads to a notify step; runs and routes are those whose walks last over no
      more midnights than the span, whatever it is. */
  lemma EarlyNotifyExactly(w: Workflow, manager: string, span: Span)
    requires Valid(w)
    ensures (forall env, xs :: Real(w, span, env, xs) ==>
               !NotifiedUnread(w, Execute(w, CreatedIn(w, manager, env), xs)))
            <==> !EarlyRoute(w, manager, span)
  {
    ValidIsSound(w);
    if EarlyRoute(w, manager, span) {
      var env, xs := EarlyRouteNotifiesEarly(w, manager, span);
    } else {
      forall env, xs | Real(w, span, env, xs)
        ensures !NotifiedUnread(w, Execute(w, CreatedIn(w, manager, env), xs))
      {
        OnTimeSpans(w, span, env.day, env.now, env.later);
        ClockedSpans(w, span, env.later, xs);
        NoRouteNoEarlyNotify(w, "", true, manager, span, env, xs);
      }
    }
  }
}
