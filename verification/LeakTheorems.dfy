/** Every text whose redaction shows a pattern has a short part whose redaction
    shows one too, so whether redaction is always clean can be decided. */
module LeakTheorems {
  import opened Wrappers
  import opened Sequences
  import opened Secrets
  import opened RedactionTheorems

  function Longest(ps: seq<Text>): (r: nat)
    ensures NoneLonger(ps, r)
  {
    if ps == [] then 0
    else
      var n, rest := |ps[|ps| - 1]|, Longest(ps[..|ps| - 1]);
      assert forall k :: 0 <= k < |ps| - 1 ==> ps[k] == ps[..|ps| - 1][k];
      if n > rest then n else rest
  }

  predicate NoneLonger(ps: seq<Text>, max: nat) {
    forall k :: 0 <= k < |ps| ==> |ps[k]| <= max
  }

  // ----------------------------------------------------------------- prefixes

  lemma AtInPrefix(q: Text, s: Text, n: nat, i: nat)
    requires n <= |s| && At(q, s[..n], i)
    ensures At(q, s, i) && i + |q| <= n
  {
    AtInside(q, s[..n], s[n..], i);
    assert s[..n] + s[n..] == s;
  }

  /** A first match is the first of every prefix that holds it. */
  lemma FirstInPrefix(ps: seq<Text>, s: Text, n: nat, p: nat, k: nat)
    requires IsFirst(ps, s, p, k) && p + |ps[k]| <= n <= |s|
    ensures IsFirst(ps, s[..n], p, k)
  {
    AtInside(ps[k], s[..n], s[n..], p);
    assert s[..n] + s[n..] == s;
    forall j, i: nat | 0 <= j < |ps| && At(ps[j], s[..n], i)
      ensures p <= i && (i == p ==> |ps[j]| <= |ps[k]|)
    {
      AtInPrefix(ps[j], s, n, i);
    }
  }

  /** Before the first match there is none. */
  lemma PrefixIsKept(ps: seq<Text>, marker: Text, s: Text, n: nat)
    requires Proper(ps) && n <= |s|
    requires forall k, i: nat :: 0 <= k < |ps| && At(ps[k], s, i) ==> n <= i
    ensures Redact(ps, marker, s[..n]) == s[..n]
  {
    forall k, i: nat | 0 <= k < |ps| ensures !At(ps[k], s[..n], i) {
      if At(ps[k], s[..n], i) {
        AtInPrefix(ps[k], s, n, i);
      }
    }
    RedactKeeps(ps, marker, s[..n]);
  }

  /** `s` is `x`, then its first match, of `n` characters, then `rest`. */
  predicate Splits(ps: seq<Text>, s: Text, x: Text, n: nat, rest: Text) {
    First(ps, s) == Some(Match(|x|, n)) && |s| == |x| + n + |rest| && s[..|x|] == x && s[|x| + n..] == rest
  }

  lemma SplitAtMatch(ps: seq<Text>, max: nat, s: Text) returns (x: Text, n: nat, rest: Text)
    requires Proper(ps) && NoneLonger(ps, max) && First(ps, s).Some?
    ensures Splits(ps, s, x, n, rest) && 0 < n <= max
    ensures forall k, i: nat :: 0 <= k < |ps| && At(ps[k], s, i) ==> |x| <= i
  {
    var f := First(ps, s).value;
    var k: nat :| IsFirst(ps, s, f.position, k) && f.length == |ps[k]|;
    x, n, rest := s[..f.position], f.length, s[f.position + f.length..];
  }

  lemma CutRest(s: Text, p: nat, n: nat, m: nat)
    requires p + n + m <= |s|
    ensures s[..p + n + m][..p] == s[..p] && s[..p + n + m][p + n..] == s[p + n..][..m]
  {
  }

  /** A prefix of the text that goes `m` characters past the match. */
  lemma PrefixSplits(ps: seq<Text>, s: Text, x: Text, n: nat, rest: Text, m: nat)
    requires Splits(ps, s, x, n, rest) && m <= |rest|
    ensures Splits(ps, s[..|x| + n + m], x, n, rest[..m])
  {
    var k: nat :| IsFirst(ps, s, |x|, k) && n == |ps[k]|;
    FirstInPrefix(ps, s, |x| + n + m, |x|, k);
    FirstIsUnique(ps, s[..|x| + n + m], |x|, k);
    CutRest(s, |x|, n, m);
  }

  lemma SplitRedacts(ps: seq<Text>, marker: Text, s: Text, x: Text, n: nat, rest: Text)
    requires Proper(ps) && Splits(ps, s, x, n, rest)
    ensures Redact(ps, marker, s) == x + marker + Redact(ps, marker, rest)
  {
    UnfoldRedact(ps, marker, s, |x|, n);
  }

  lemma UnfoldRedact(ps: seq<Text>, marker: Text, s: Text, p: nat, n: nat)
    requires Proper(ps) && First(ps, s) == Some(Match(p, n)) && p + n <= |s|
    ensures Redact(ps, marker, s) == s[..p] + marker + Redact(ps, marker, s[p + n..])
  {
  }

  /** What `n` characters of a redaction take at most to be made, where no pattern
      is longer than `l`: each may be the last of a marker. */
  function Reach(l: nat, n: nat): nat {
    if n == 0 then 0 else l + 1 + Reach(l, n - 1)
  }

  lemma {:induction false} ReachIs(l: nat, n: nat)
    ensures Reach(l, n) == n * (l + 1)
  {
    if n > 0 {
      ReachIs(l, n - 1);
      assert n * (l + 1) == (n - 1) * (l + 1) + (l + 1);
    }
  }

  lemma {:induction false} ReachAdds(l: nat, a: nat, b: nat)
    ensures Reach(l, a + b) == Reach(l, a) + Reach(l, b)
    decreases a
  {
    if a > 0 {
      ReachAdds(l, a - 1, b);
    }
  }

  lemma {:induction false} ReachGrows(l: nat, a: nat)
    ensures a > 0 ==> Reach(l, a) >= a + l
    ensures a == 0 ==> Reach(l, a) == 0
  {
    if a > 1 {
      ReachGrows(l, a - 1);
    }
  }

  /** Going on `d` characters behind the first `a`. */
  lemma ReachPast(l: nat, a: nat, d: nat)
    requires a > 0
    ensures a + l + Reach(l, d) <= Reach(l, a + d)
  {
    ReachAdds(l, a, d);
    ReachGrows(l, a);
  }

  /** They agree on the first `e` characters. */
  predicate SameStart(a: Text, b: Text, e: nat) {
    e <= |a| && e <= |b| && forall i :: 0 <= i < e ==> a[i] == b[i]
  }

  /** How many of the first `e` characters lie behind the first `a`. */
  function Beyond(a: nat, e: nat): nat {
    if e > a then e - a else 0
  }

  lemma SameStartOfTwo(all: Text, part: Text, a: Text, b: Text, c: Text, e: nat)
    requires all == a + b && part == a + c && e <= |all| && SameStart(b, c, Beyond(|a|, e))
    ensures SameStart(all, part, e)
  {
    forall i | 0 <= i < e ensures all[i] == part[i] {
      assert i >= |a| ==> all[i] == b[i - |a|] && part[i] == c[i - |a|];
    }
  }

  /** The first `e` characters of the redaction are those of that of a prefix. */
  ghost predicate Covers(ps: seq<Text>, marker: Text, s: Text, part: Text, e: nat)
    requires Proper(ps)
  {
    part <= s && SameStart(Redact(ps, marker, s), Redact(ps, marker, part), e)
  }

  function Shown(ps: seq<Text>, marker: Text, s: Text): nat
    requires Proper(ps)
  {
    |Redact(ps, marker, s)|
  }

  lemma CoversAtMatch(ps: seq<Text>, marker: Text, s: Text, x: Text, n: nat, rest: Text, part: Text, e: nat) returns (more: Text)
    requires Proper(ps) && Splits(ps, s, x, n, rest) && e <= Shown(ps, marker, s)
    requires Covers(ps, marker, rest, part, Beyond(|x| + |marker|, e))
    ensures |more| == |x| + n + |part| && Covers(ps, marker, s, more, e)
  {
    PrefixSplits(ps, s, x, n, rest, |part|);
    more := s[..|x| + n + |part|];
    assert rest[..|part|] == part;
    SplitRedacts(ps, marker, s, x, n, rest);
    SplitRedacts(ps, marker, more, x, n, part);
    SameStartOfTwo(Redact(ps, marker, s), Redact(ps, marker, more),
                   x + marker, Redact(ps, marker, rest), Redact(ps, marker, part), e);
  }

  lemma CoversBefore(ps: seq<Text>, marker: Text, s: Text, e: nat) returns (part: Text)
    requires Proper(ps) && e <= |s| && e <= Shown(ps, marker, s)
    requires forall k, i: nat :: 0 <= k < |ps| && At(ps[k], s, i) ==> e <= i
    ensures |part| == e && Covers(ps, marker, s, part, e)
  {
    part := s[..e];
    PrefixIsKept(ps, marker, s, e);
    assert part + s[e..] == s;
    forall k, i: nat | 0 <= k < |ps| && i < e ensures !At(ps[k], part + s[e..], i) {
    }
    RedactCopies(ps, marker, part, s[e..]);
    StartOf(part, Redact(ps, marker, s[e..]), e);
  }

  lemma StartOf(a: Text, b: Text, e: nat)
    requires e == |a|
    ensures SameStart(a + b, a, e)
  {
  }

  /** The first `e` characters go beyond `x`, into the first marker. */
  predicate Deep(ps: seq<Text>, max: nat, marker: Text, s: Text, x: Text, n: nat, rest: Text, e: nat)
    requires Proper(ps)
  {
    Splits(ps, s, x, n, rest) && 0 < n <= max && |x| < e <= Shown(ps, marker, s)
  }

  lemma RestIsLeft(ps: seq<Text>, max: nat, marker: Text, s: Text, x: Text, n: nat, rest: Text, e: nat)
    requires Proper(ps) && Deep(ps, max, marker, s, x, n, rest, e)
    ensures Beyond(|x| + |marker|, e) <= Shown(ps, marker, rest) && |rest| < |s|
  {
    SplitRedacts(ps, marker, s, x, n, rest);
  }

  /** A short prefix that covers the first `e` characters. */
  ghost predicate Enough(ps: seq<Text>, max: nat, marker: Text, s: Text, part: Text, e: nat)
    requires Proper(ps)
  {
    |part| <= Reach(max, e) && Covers(ps, marker, s, part, e)
  }

  lemma EnoughBefore(ps: seq<Text>, max: nat, marker: Text, s: Text, e: nat) returns (part: Text)
    requires Proper(ps) && e <= |s| && e <= Shown(ps, marker, s)
    requires forall k, i: nat :: 0 <= k < |ps| && At(ps[k], s, i) ==> e <= i
    ensures Enough(ps, max, marker, s, part, e)
  {
    part := CoversBefore(ps, marker, s, e);
    ReachGrows(max, e);
  }

  lemma EnoughAtMatch(ps: seq<Text>, max: nat, marker: Text, s: Text, x: Text, n: nat, rest: Text, part: Text, e: nat)
    returns (more: Text)
    requires Proper(ps) && marker != [] && Deep(ps, max, marker, s, x, n, rest, e)
    requires Enough(ps, max, marker, rest, part, Beyond(|x| + |marker|, e))
    ensures Enough(ps, max, marker, s, more, e)
  {
    more := CoversAtMatch(ps, marker, s, x, n, rest, part, e);
    ReachHolds(max, |x|, n, |part|, Beyond(|x| + |marker|, e), e);
  }

  /** There always is one. */
  lemma {:induction false} ShortPrefix(ps: seq<Text>, max: nat, marker: Text, s: Text, e: nat) returns (part: Text)
    requires Proper(ps) && NoneLonger(ps, max) && marker != [] && e <= Shown(ps, marker, s)
    ensures Enough(ps, max, marker, s, part, e)
    decreases |s|
  {
    var x, l, rest;
    x, l, rest, part := Begins(ps, max, marker, s, e);
    if Deep(ps, max, marker, s, x, l, rest, e) {
      RestIsLeft(ps, max, marker, s, x, l, rest, e);
      part := ShortPrefix(ps, max, marker, rest, Beyond(|x| + |marker|, e));
      part := EnoughAtMatch(ps, max, marker, s, x, l, rest, part, e);
    }
  }

  /** Either the first `e` characters are copied, or there is a match before. */
  lemma Begins(ps: seq<Text>, max: nat, marker: Text, s: Text, e: nat) returns (x: Text, n: nat, rest: Text, part: Text)
    requires Proper(ps) && NoneLonger(ps, max) && e <= Shown(ps, marker, s)
    ensures Deep(ps, max, marker, s, x, n, rest, e) || Enough(ps, max, marker, s, part, e)
  {
    x, n, rest, part := [], 0, [], [];
    if First(ps, s).None? {
      RedactKeeps(ps, marker, s);
      part := EnoughBefore(ps, max, marker, s, e);
      return;
    }
    x, n, rest := SplitAtMatch(ps, max, s);
    if e <= |x| {
      part := EnoughBefore(ps, max, marker, s, e);
    }
  }

  lemma ReachHolds(l: nat, x: nat, q: nat, m: nat, d: nat, e: nat)
    requires x < e && q <= l && m <= Reach(l, d) && (d == 0 || x + d < e)
    ensures x + q + m <= Reach(l, e)
  {
    ReachPast(l, e - d, d);
  }

  // --------------------------------------------------------------- the theorem

  function Bound(ps: seq<Text>): nat {
    Longest(ps) * (Longest(ps) + 2)
  }

  lemma BoundIs(ps: seq<Text>)
    ensures Bound(ps) == Reach(Longest(ps), Longest(ps)) + Longest(ps)
  {
    var l := Longest(ps);
    ReachIs(l, l);
    assert l * (l + 2) == l * (l + 1) + l;
  }

  lemma BoundHolds(ps: seq<Text>, p: nat, n: nat, d: nat, m: nat)
    requires p < Longest(ps) && n <= Longest(ps) && d < Longest(ps) && m <= Reach(Longest(ps), d)
    ensures p + n + m <= Bound(ps)
  {
    var l := Longest(ps);
    BoundIs(ps);
    ReachPast(l, l - d, d);
  }

  lemma LeakNeedsMatch(ps: seq<Text>, marker: Text, s: Text, k: nat, i: nat)
    requires Proper(ps) && k < |ps| && At(ps[k], Redact(ps, marker, s), i)
    ensures First(ps, s).Some?
  {
  }

  lemma AtInPrefixOf(q: Text, s: Text, t: Text, e: nat, i: nat)
    requires At(q, s, i) && i + |q| <= e && SameStart(s, t, e)
    ensures At(q, t, i)
  {
    forall j | 0 <= j < |q| ensures q[j] == t[i + j] {
      assert s[i + j] == t[i + j];
    }
  }

  /** A leak that begins at the start of the text, or at its first match. */
  lemma LeakAtStart(ps: seq<Text>, marker: Text, s: Text, k: nat, i: nat, x: Text, n: nat, rest: Text) returns (t: Text)
    requires Proper(ps) && marker != [] && k < |ps| && At(ps[k], Redact(ps, marker, s), i)
    requires Splits(ps, s, x, n, rest) && n <= Longest(ps) && (i == 0 || x == []) && i < |x| + |marker|
    ensures |t| <= Bound(ps) && At(ps[k], Redact(ps, marker, t), i)
  {
    SplitRedacts(ps, marker, s, x, n, rest);
    StartsNearMatch(ps, marker, s, k, i, x, n, rest);
    var e := i + |ps[k]|;
    var d := Beyond(|x| + |marker|, e);
    var part := ShortPrefix(ps, Longest(ps), marker, rest, d);
    BoundHolds(ps, |x|, n, d, |part|);
    t := CoversAtMatch(ps, marker, s, x, n, rest, part, e);
    AtInPrefixOf(ps[k], Redact(ps, marker, s), Redact(ps, marker, t), e, i);
  }

  lemma KeptStart(q: Text, s: Text, out: Text, p: nat)
    requires p <= |s| && p <= |out| && s[..p] == out[..p] && At(q, out, 0)
    ensures |q| <= p ==> At(q, s, 0)
  {
    assert forall y :: 0 <= y < p ==> s[..p][y] == out[..p][y];
  }

  /** It reaches the marker of the first match. */
  lemma StartsNearMatch(ps: seq<Text>, marker: Text, s: Text, k: nat, i: nat, x: Text, n: nat, rest: Text)
    requires Proper(ps) && k < |ps| && At(ps[k], Redact(ps, marker, s), i)
    requires Splits(ps, s, x, n, rest) && (i == 0 || x == [])
    ensures |x| < |ps[k]|
  {
    if i == 0 {
      SplitRedacts(ps, marker, s, x, n, rest);
      StartIsKept(x, marker, Redact(ps, marker, rest));
      KeptStart(ps[k], s, Redact(ps, marker, s), |x|);
      var j: nat :| IsFirst(ps, s, |x|, j);
    }
  }

  lemma StartIsKept(x: Text, marker: Text, rest: Text)
    ensures (x + marker + rest)[..|x|] == x
  {
  }

  /** Every leak has a short witness. */
  lemma {:induction false} LeakIsShort(ps: seq<Text>, marker: Text, s: Text, k: nat, i: nat) returns (t: Text)
    requires Proper(ps) && marker != [] && k < |ps| && At(ps[k], Redact(ps, marker, s), i)
    ensures |t| <= Bound(ps) && !NoMatch(ps, Redact(ps, marker, t))
    decreases |s|
  {
    LeakNeedsMatch(ps, marker, s, k, i);
    var x, n, rest := SplitAtMatch(ps, Longest(ps), s);
    var cut := if i < |x| then i else |x|;
    if i >= |x| + |marker| {
      LeakAfterMatch(ps, marker, s, k, i, x, n, rest);
      t := LeakIsShort(ps, marker, rest, k, i - (|x| + |marker|));
    } else if cut > 0 {
      LeakAfterCut(ps, marker, s, cut, k, i);
      t := LeakIsShort(ps, marker, s[cut..], k, i - cut);
    } else {
      t := LeakAtStart(ps, marker, s, k, i, x, n, rest);
      assert !NoMatch(ps, Redact(ps, marker, t));
    }
  }

  lemma LeakAfterMatch(ps: seq<Text>, marker: Text, s: Text, k: nat, i: nat, x: Text, n: nat, rest: Text)
    requires Proper(ps) && k < |ps| && At(ps[k], Redact(ps, marker, s), i) && Splits(ps, s, x, n, rest) && i >= |x| + |marker|
    ensures At(ps[k], Redact(ps, marker, rest), i - (|x| + |marker|))
  {
    SplitRedacts(ps, marker, s, x, n, rest);
    AtBehind(ps[k], x + marker, Redact(ps, marker, rest), i);
  }

  lemma LeakAfterCut(ps: seq<Text>, marker: Text, s: Text, d: nat, k: nat, i: nat)
    requires Proper(ps) && d <= |s| && d <= i && k < |ps| && At(ps[k], Redact(ps, marker, s), i)
    requires forall j, x: nat :: 0 <= j < |ps| && At(ps[j], s, x) ==> d <= x
    ensures At(ps[k], Redact(ps, marker, s[d..]), i - d)
  {
    assert s[..d] + s[d..] == s;
    RedactCopies(ps, marker, s[..d], s[d..]);
    AtBehind(ps[k], s[..d], Redact(ps, marker, s[d..]), i);
  }

  /** Redaction is clean on every text if and only if it is on the short ones;
      the bound depends on the longest pattern alone. */
  lemma AlwaysCleanIffShort(ps: seq<Text>, marker: Text)
    requires Proper(ps) && marker != []
    ensures AlwaysClean(ps, marker) <==> forall s :: |s| <= Bound(ps) ==> NoMatch(ps, Redact(ps, marker, s))
  {
    if forall s :: |s| <= Bound(ps) ==> NoMatch(ps, Redact(ps, marker, s)) {
      forall s ensures NoMatch(ps, Redact(ps, marker, s)) {
        if !NoMatch(ps, Redact(ps, marker, s)) {
          var k, i: nat :| 0 <= k < |ps| && At(ps[k], Redact(ps, marker, s), i);
          var t := LeakIsShort(ps, marker, s, k, i);
        }
      }
    }
  }
}
