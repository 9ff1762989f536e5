/** Keeping the newest part of a growing sequence within two limits. */
module Bounded {

  function Total<T(!new)>(s: seq<T>, weight: T -> nat): nat {
    if s == [] then 0 else weight(s[0]) + Total(s[1..], weight)
  }

  predicate Fits<T(!new)>(s: seq<T>, weight: T -> nat, maxCount: nat, maxTotal: nat) {
    |s| <= maxCount && Total(s, weight) <= maxTotal
  }

  /** Drops elements from the front until the rest fits. */
  function Newest<T(!new)>(s: seq<T>, weight: T -> nat, maxCount: nat, maxTotal: nat): seq<T> {
    if s == [] || Fits(s, weight, maxCount, maxTotal) then s
    else Newest(s[1..], weight, maxCount, maxTotal)
  }

  /** `s[k..]` fits and no longer suffix does. */
  ghost predicate IsLongestFit<T(!new)>(s: seq<T>, k: nat, weight: T -> nat, maxCount: nat, maxTotal: nat) {
    && k <= |s|
    && Fits(s[k..], weight, maxCount, maxTotal)
    && forall j :: 0 <= j < k ==> !Fits(s[j..], weight, maxCount, maxTotal)
  }

  lemma {:induction false} TotalConcat<T(!new)>(a: seq<T>, b: seq<T>, weight: T -> nat)
    ensures Total(a + b, weight) == Total(a, weight) + Total(b, weight)
  {
    if a == [] {
      assert a + b == b;
    } else {
      TotalConcat(a[1..], b, weight);
      assert (a + b)[1..] == a[1..] + b;
    }
  }

  /** What is kept is the longest suffix within both limits. */
  lemma {:induction false} NewestIsLongestFit<T(!new)>(s: seq<T>, weight: T -> nat, maxCount: nat, maxTotal: nat)
    ensures var k := |s| - |Newest(s, weight, maxCount, maxTotal)|;
      k >= 0 && Newest(s, weight, maxCount, maxTotal) == s[k..] && IsLongestFit(s, k, weight, maxCount, maxTotal)
  {
    if s == [] || Fits(s, weight, maxCount, maxTotal) {
      assert s[0..] == s;
    } else {
      NewestIsLongestFit(s[1..], weight, maxCount, maxTotal);
      var k := |s| - |Newest(s, weight, maxCount, maxTotal)|;
      assert s[1..][k - 1..] == s[k..];
      forall j | 0 <= j < k ensures !Fits(s[j..], weight, maxCount, maxTotal) {
        if j == 0 {
          assert s[0..] == s;
        } else {
          assert s[1..][j - 1..] == s[j..];
        }
      }
    }
  }

  lemma LongestFitIsUnique<T(!new)>(s: seq<T>, j: nat, k: nat, weight: T -> nat, maxCount: nat, maxTotal: nat)
    requires IsLongestFit(s, j, weight, maxCount, maxTotal) && IsLongestFit(s, k, weight, maxCount, maxTotal)
    ensures j == k
  {
  }

  /** Trimming after every append keeps what trimming the whole history keeps. */
  lemma {:induction false} NewestIsIncremental<T(!new)>(s: seq<T>, u: seq<T>, weight: T -> nat, maxCount: nat, maxTotal: nat)
    ensures Newest(Newest(s, weight, maxCount, maxTotal) + u, weight, maxCount, maxTotal)
      == Newest(s + u, weight, maxCount, maxTotal)
  {
    if s != [] && !Fits(s, weight, maxCount, maxTotal) {
      NewestIsIncremental(s[1..], u, weight, maxCount, maxTotal);
      TotalConcat(s, u, weight);
      assert !Fits(s + u, weight, maxCount, maxTotal);
      assert (s + u)[1..] == s[1..] + u;
    }
  }
}
