/** Small shared vocabulary. */
module Prelude {
  datatype Option<+T> = None | Some(value: T)

  /** No element occurs at two positions. */
  ghost predicate Distinct<T>(s: seq<T>) {
    forall i, j :: 0 <= i < j < |s| ==> s[i] != s[j]
  }

  // ---- weights: counts and measures of sequences ----

  function Weight<T>(s: seq<T>, f: T -> nat): nat {
    if s == [] then 0 else Weight(s[..|s| - 1], f) + f(s[|s| - 1])
  }

  lemma {:induction false} WeightUpdate<T>(s: seq<T>, i: nat, x: T, f: T -> nat)
    requires i < |s|
    ensures Weight(s[i := x], f) + f(s[i]) == Weight(s, f) + f(x)
    ensures f(s[i]) <= Weight(s, f)
    decreases |s|
  {
    var m := |s| - 1;
    if i == m {
      assert s[i := x][..m] == s[..m];
    } else {
      assert s[i := x][..m] == s[..m][i := x];
      WeightUpdate(s[..m], i, x, f);
    }
  }

  lemma {:induction false} WeightZero<T>(s: seq<T>, f: T -> nat)
    ensures Weight(s, f) == 0 <==> forall i :: 0 <= i < |s| ==> f(s[i]) == 0
    decreases |s|
  {
    if s != [] { WeightZero(s[..|s| - 1], f); }
  }

  lemma {:induction false} WeightBound<T>(s: seq<T>, f: T -> nat, g: T -> nat)
    requires forall i :: 0 <= i < |s| ==> f(s[i]) <= g(s[i])
    ensures Weight(s, f) <= Weight(s, g)
    decreases |s|
  {
    if s != [] { WeightBound(s[..|s| - 1], f, g); }
  }

  lemma {:induction false} WeightLength<T>(s: seq<T>, f: T -> nat)
    requires forall i :: 0 <= i < |s| ==> f(s[i]) <= 1
    ensures Weight(s, f) <= |s|
    decreases |s|
  {
    if s != [] { WeightLength(s[..|s| - 1], f); }
  }
}
