/** Small shared vocabulary: an option type and facts about duplicate-free sequences. */
module Base {

  datatype Option<+T> = None | Some(value: T)

  ghost predicate Distinct<T>(s: seq<T>) {
    forall i, j :: 0 <= i < j < |s| ==> s[i] != s[j]
  }

  lemma {:induction false} DistinctIsShort(s: seq<nat>, n: nat)
    requires Distinct(s)
    requires forall i :: 0 <= i < |s| ==> s[i] < n
    ensures |s| <= n
    decreases n
  {
    assert s != [] ==> s[0] < n;
    if s != [] {
      if k :| 0 <= k < |s| && s[k] == n - 1 {
        DistinctIsShort(s[..k] + s[k + 1..], n - 1);
      } else {
        DistinctIsShort(s, n - 1);
      }
    }
  }
}
