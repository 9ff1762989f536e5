/** Facts about concatenation that the solver does not see by itself. */
module Sequences {

  lemma Assoc<T>(a: seq<T>, b: seq<T>, c: seq<T>)
    ensures a + (b + c) == a + b + c
  {
  }

  lemma Reassemble<T>(s: seq<T>, i: nat)
    requires i < |s|
    ensures s[..i] + [s[i]] + s[i + 1..] == s
  {
  }

  lemma SliceSnoc<T>(s: seq<T>, k: nat, n: nat)
    requires k <= n < |s|
    ensures s[k..n + 1] == s[k..n] + [s[n]]
  {
  }

  function FlatMap<S, T>(f: S -> seq<T>, s: seq<S>): seq<T> {
    if s == [] then [] else FlatMap(f, s[..|s| - 1]) + f(s[|s| - 1])
  }

  lemma {:induction false} FlatMapHas<S, T>(f: S -> seq<T>, s: seq<S>, x: T)
    ensures x in FlatMap(f, s) <==> exists k :: 0 <= k < |s| && x in f(s[k])
  {
    if s != [] {
      var n := |s| - 1;
      FlatMapHas(f, s[..n], x);
      assert forall k :: 0 <= k < n ==> s[..n][k] == s[k];
    }
  }
}
