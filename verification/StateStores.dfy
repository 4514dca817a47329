/** The stores of single-use state tokens behind the OAuth redirects (internal/slack/oauth.go and
    internal/slack/link.go, which differ only in what a token carries). Reaping expired tokens never
    changes an answer, and a token is accepted exactly when its history says so. */
module StateStores {
  import opened Base

  /** What a token stands for, and when it stops being valid. */
  datatype Pending<T> = Pending(value: T, expiry: int)

  /** Ten minutes, in seconds. */
  const TTL := 600

  /** A call, with the clock values it reads and, for an issue, the token the entropy source yields. */
  datatype Call<T> =
    | Issue(token: Option<string>, reapAt: int, now: int, value: T)
    | Consume(tok: string, at: int)

  function Unexpired<T>(m: map<string, Pending<T>>, now: int): map<string, Pending<T>> {
    map t | t in m && now < m[t].expiry :: m[t]
  }

  class StateStore<T> {
    var states: map<string, Pending<T>>

    constructor ()
      ensures states == map[]
    {
      states := map[];
    }

    /** reapLocked: the loop over all tokens, deleting the expired ones. */
    method Reap(now: int)
      modifies this
      ensures states == Unexpired(old(states), now)
    {
      var todo := states.Keys;
      while todo != {}
        invariant todo <= states.Keys <= old(states).Keys
        invariant forall t :: t in states ==> states[t] == old(states)[t]
        invariant forall t :: t in old(states).Keys - todo ==> (t in states <==> now < old(states)[t].expiry)
        decreases todo
      {
        var t :| t in todo;
        if !(now < states[t].expiry) { states := states - {t}; }
        todo := todo - {t};
      }
    }

    /** issue: with no entropy it returns the empty token and records nothing. */
    method IssueToken(entropy: Option<string>, reapAt: int, now: int, value: T) returns (tok: string)
      requires entropy.Some? ==> entropy.value != ""
      modifies this
      ensures states == After(old(states), Issue(entropy, reapAt, now, value))
      ensures tok == "" <==> entropy.None?
      ensures tok != "" ==> tok in states && states[tok] == Pending(value, now + TTL)
      ensures tok != "" ==> forall t :: t in states && t != tok ==> reapAt < states[t].expiry
    {
      if entropy.None? { return ""; }
      tok := entropy.value;
      Reap(reapAt);
      states := states[tok := Pending(value, now + TTL)];
    }

    /** consume: the token is spent whether or not it is still valid. */
    method ConsumeToken(tok: string, at: int) returns (r: Option<Pending<T>>)
      modifies this
      ensures states == After(old(states), Consume(tok, at))
      ensures r == Answer(old(states), tok, at)
      ensures tok != "" ==> tok !in states
    {
      if tok == "" { return None; }
      if tok !in states { return None; }
      var st := states[tok];
      states := states - {tok};
      if !(at < st.expiry) { return None; }
      return Some(st);
    }
  }

  // ---------------------------------------------------------------------------------------
  // The store as a value, with and without reaping
  // ---------------------------------------------------------------------------------------

  function After<T>(m: map<string, Pending<T>>, c: Call<T>): map<string, Pending<T>> {
    match c
    case Issue(token, reapAt, now, v) =>
      if token.None? then m else Unexpired(m, reapAt)[token.value := Pending(v, now + TTL)]
    case Consume(tok, at) => if tok == "" then m else m - {tok}
  }

  function Answer<T>(m: map<string, Pending<T>>, tok: string, at: int): Option<Pending<T>> {
    if tok != "" && tok in m && at < m[tok].expiry then Some(m[tok]) else None
  }

  function AfterAll<T>(calls: seq<Call<T>>): map<string, Pending<T>> {
    if calls == [] then map[]
    else After(AfterAll(calls[..|calls| - 1]), calls[|calls| - 1])
  }

  /** The store that never reaps. */
  function Unreaped<T>(calls: seq<Call<T>>): map<string, Pending<T>> {
    if calls == [] then map[]
    else
      var before := Unreaped(calls[..|calls| - 1]);
      match calls[|calls| - 1]
      case Issue(token, _, now, v) => if token.None? then before else before[token.value := Pending(v, now + TTL)]
      case Consume(tok, _) => if tok == "" then before else before - {tok}
  }

  // ---------------------------------------------------------------------------------------
  // The histories
  // ---------------------------------------------------------------------------------------

  function FirstClock<T>(c: Call<T>): int {
    match c
    case Issue(_, reapAt, _, _) => reapAt
    case Consume(_, at) => at
  }

  function LastClock<T>(c: Call<T>): int {
    match c
    case Issue(_, _, now, _) => now
    case Consume(_, at) => at
  }

  /** The clock never runs back, and the token hex encoding yields is never empty. */
  ghost predicate History<T(!new)>(calls: seq<Call<T>>) {
    && (forall i :: 0 <= i < |calls| ==> FirstClock(calls[i]) <= LastClock(calls[i]))
    && (forall i, j :: 0 <= i < j < |calls| ==> LastClock(calls[i]) <= FirstClock(calls[j]))
    && (forall i :: 0 <= i < |calls| && calls[i].Issue? && calls[i].token.Some? ==> calls[i].token.value != "")
  }

  predicate Issues<T>(c: Call<T>, tok: string) {
    c.Issue? && c.token == Some(tok)
  }

  predicate Touches<T>(c: Call<T>, tok: string) {
    Issues(c, tok) || (c.Consume? && c.tok == tok)
  }

  /** Call `j` issued the token, and nothing has issued or consumed it since. */
  ghost predicate LastIssued<T(!new)>(calls: seq<Call<T>>, tok: string, j: int) {
    && 0 <= j < |calls| && Issues(calls[j], tok)
    && forall i :: j < i < |calls| ==> !Touches(calls[i], tok)
  }

  lemma HistoryPrefix<T(!new)>(calls: seq<Call<T>>, n: nat)
    requires History(calls) && n <= |calls|
    ensures History(calls[..n])
  {
    var front := calls[..n];
    forall i | 0 <= i < n
      ensures front[i] == calls[i]
    {}
  }

  lemma LastIssuedStays<T(!new)>(calls: seq<Call<T>>, c: Call<T>, tok: string, j: int)
    ensures LastIssued(calls + [c], tok, j)
            <==> if Touches(c, tok) then Issues(c, tok) && j == |calls| else LastIssued(calls, tok, j)
  {
    var all := calls + [c];
    assert all[|calls|] == c;
    assert forall i :: 0 <= i < |calls| ==> all[i] == calls[i];
  }

  /** A token is in the unreaped store exactly when its last mention is an issue. */
  lemma {:induction false} UnreapedHoldsLastIssued<T(!new)>(calls: seq<Call<T>>, tok: string) returns (j: int)
    requires History(calls) && tok != ""
    ensures tok in Unreaped(calls) ==>
              LastIssued(calls, tok, j) && Unreaped(calls)[tok] == Pending(calls[j].value, calls[j].now + TTL)
    ensures tok !in Unreaped(calls) ==> forall i :: !LastIssued(calls, tok, i)
  {
    j := -1;
    if calls != [] {
      var front, c := calls[..|calls| - 1], calls[|calls| - 1];
      HistoryPrefix(calls, |calls| - 1);
      assert calls == front + [c];
      j := UnreapedHoldsLastIssued(front, tok);
      if Issues(c, tok) { j := |front|; }
      forall i
        ensures LastIssued(calls, tok, i)
                <==> if Touches(c, tok) then Issues(c, tok) && i == |front| else LastIssued(front, tok, i)
      {
        LastIssuedStays(front, c, tok, i);
      }
    }
  }

  /** What reaping took away had expired; what is left is as it was. */
  lemma {:induction false} ReapedOnlyExpired<T(!new)>(calls: seq<Call<T>>, tok: string)
    requires History(calls)
    ensures tok in AfterAll(calls) ==> tok in Unreaped(calls) && AfterAll(calls)[tok] == Unreaped(calls)[tok]
    ensures tok in Unreaped(calls) && tok !in AfterAll(calls) ==>
              calls != [] && Unreaped(calls)[tok].expiry <= LastClock(calls[|calls| - 1])
  {
    if calls != [] {
      var front := calls[..|calls| - 1];
      HistoryPrefix(calls, |calls| - 1);
      ReapedOnlyExpired(front, tok);
      if front != [] {
        assert LastClock(calls[|front| - 1]) <= FirstClock(calls[|front|]);
      }
    }
  }

  // ---------------------------------------------------------------------------------------
  // The answers
  // ---------------------------------------------------------------------------------------

  /** Main result: reaping is invisible. After any calls, a token consumed no earlier than the last
      clock value gets the answer a store that never reaps would give. */
  lemma {:induction false} ReapingIsInvisible<T(!new)>(calls: seq<Call<T>>, tok: string, at: int)
    requires History(calls) && (calls != [] ==> LastClock(calls[|calls| - 1]) <= at)
    ensures Answer(AfterAll(calls), tok, at) == Answer(Unreaped(calls), tok, at)
  {
    ReapedOnlyExpired(calls, tok);
  }

  /** Main result: a token is accepted exactly when it was issued, was not issued or consumed since, and
      is within its lifetime; and it then yields what it was issued for. */
  lemma {:induction false} ConsumeAnswersExactly<T(!new)>(calls: seq<Call<T>>, tok: string, at: int)
    requires History(calls) && (calls != [] ==> LastClock(calls[|calls| - 1]) <= at)
    ensures Answer(AfterAll(calls), tok, at).Some?
            <==> exists j :: LastIssued(calls, tok, j) && at - calls[j].now < 10 * 60
    ensures forall j :: LastIssued(calls, tok, j) && at < calls[j].now + TTL ==>
              Answer(AfterAll(calls), tok, at) == Some(Pending(calls[j].value, calls[j].now + TTL))
  {
    ReapingIsInvisible(calls, tok, at);
    if tok != "" {
      hide History, AfterAll, Unreaped, LastIssued;
      var j := UnreapedHoldsLastIssued(calls, tok);
      forall i | LastIssued(calls, tok, i)
        ensures i == j
      {
        OneLastIssue(calls, tok, i, j);
      }
    }
  }

  lemma OneLastIssue<T(!new)>(calls: seq<Call<T>>, tok: string, i: int, j: int)
    requires LastIssued(calls, tok, i) && LastIssued(calls, tok, j)
    ensures i == j
  {
    assert Touches(calls[i], tok) && Touches(calls[j], tok);
  }

  function Accepts<T>(calls: seq<Call<T>>, tok: string): nat {
    if calls == [] then 0
    else
      var front, c := calls[..|calls| - 1], calls[|calls| - 1];
      Accepts(front, tok)
      + if c.Consume? && c.tok == tok && Answer(AfterAll(front), tok, c.at).Some? then 1 else 0
  }

  function TimesIssued<T>(calls: seq<Call<T>>, tok: string): nat {
    if calls == [] then 0
    else TimesIssued(calls[..|calls| - 1], tok) + if Issues(calls[|calls| - 1], tok) then 1 else 0
  }

  /** Tokens are single-use: each issue of a token is good for one acceptance, so a token issued once is
      accepted at most once, whatever the clock does; one still in the store has that one left. */
  lemma {:induction false} TokensAreSingleUse<T(!new)>(calls: seq<Call<T>>, tok: string)
    ensures Accepts(calls, tok) + (if tok in AfterAll(calls) then 1 else 0) <= TimesIssued(calls, tok)
  {
    if calls != [] {
      TokensAreSingleUse(calls[..|calls| - 1], tok);
    }
  }

  /** Right after an issue the store holds only tokens issued less than a lifetime before the reap, so
      abandoned flows cannot pile up. */
  lemma IssueLeavesOnlyRecentTokens<T(!new)>(calls: seq<Call<T>>, tok: string) returns (j: int)
    requires History(calls) && calls != [] && calls[|calls| - 1].Issue? && calls[|calls| - 1].token.Some?
    requires tok in AfterAll(calls)
    ensures LastIssued(calls, tok, j) && calls[|calls| - 1].reapAt < calls[j].now + TTL
  {
    ReapedOnlyExpired(calls, tok);
    NoEmptyToken(calls);
    j := UnreapedHoldsLastIssued(calls, tok);
  }

  lemma {:induction false} NoEmptyToken<T(!new)>(calls: seq<Call<T>>)
    requires History(calls)
    ensures "" !in AfterAll(calls)
  {
    if calls != [] {
      HistoryPrefix(calls, |calls| - 1);
      NoEmptyToken(calls[..|calls| - 1]);
    }
  }
}
