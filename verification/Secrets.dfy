/** Batch redaction of credentials (`src/secrets.rs`).

    Text is a sequence of characters. A pattern is one spelling of a configured
    credential; every function here takes the finished list of spellings, which
    `Patterns` makes from the credentials.
    Two patterns that match at the same place are prefixes of one another, so
    comparing them by characters or by UTF-8 bytes selects the same one. */
module Secrets {
  import opened Wrappers

  type Text = seq<char>

  // ---------------------------------------------------------------- searching

  /** `q` agrees with `s` from `i` on, as far as both reach. */
  predicate Compatible(q: Text, s: Text, i: nat) {
    forall j :: 0 <= j < |q| && i + j < |s| ==> q[j] == s[i + j]
  }

  /** `q` occurs in `s` at position `i`. */
  predicate At(q: Text, s: Text, i: nat) {
    i + |q| <= |s| && Compatible(q, s, i)
  }

  /** Every pattern is non-empty; `redaction_patterns` drops empty keys. */
  predicate Proper(ps: seq<Text>) {
    forall k :: 0 <= k < |ps| ==> ps[k] != []
  }

  ghost predicate NoMatch(ps: seq<Text>, s: Text) {
    forall k, i: nat :: 0 <= k < |ps| ==> !At(ps[k], s, i)
  }

  /** Pattern `k` matches at `p`, no pattern matches further left, and none
      that matches at `p` is longer. */
  ghost predicate IsFirst(ps: seq<Text>, s: Text, p: nat, k: nat, from: nat := 0) {
    && from <= k < |ps|
    && At(ps[k], s, p)
    && forall j, i: nat :: from <= j < |ps| && At(ps[j], s, i) ==> p <= i && (i == p ==> |ps[j]| <= |ps[k]|)
  }

  /** `str::find`: the leftmost occurrence at or after `from`. */
  function Find(q: Text, s: Text, from: nat := 0): (r: Option<nat>)
    ensures r.Some? ==> from <= r.value && At(q, s, r.value) && forall i :: from <= i < r.value ==> !At(q, s, i)
    ensures r.None? ==> forall i: nat :: from <= i ==> !At(q, s, i)
    decreases |s| - from
  {
    if from + |q| > |s| then None
    else if At(q, s, from) then Some(from)
    else Find(q, s, from + 1)
  }

  datatype Match = Match(position: nat, length: nat)

  /** Chooses between two candidate matches: leftmost, then longest. */
  function Better(a: Option<Match>, b: Option<Match>): Option<Match> {
    if a.None? then b
    else if b.None? then a
    else if b.value.position < a.value.position
      || (b.value.position == a.value.position && b.value.length > a.value.length) then b
    else a
  }

  /** The match that the patterns from `from` on yield by `find` and `min_by`. */
  function First(ps: seq<Text>, s: Text, from: nat := 0): (r: Option<Match>)
    requires from <= |ps|
    ensures r.Some? ==> exists k: nat :: IsFirst(ps, s, r.value.position, k, from) && r.value.length == |ps[k]|
    ensures r.None? ==> forall k, i: nat :: from <= k < |ps| ==> !At(ps[k], s, i)
    decreases |ps| - from
  {
    if from == |ps| then None
    else
      var here := match Find(ps[from], s) case None => None case Some(i) => Some(Match(i, |ps[from]|));
      Better(here, First(ps, s, from + 1))
  }

  lemma FirstIsUnique(ps: seq<Text>, s: Text, p: nat, k: nat)
    requires IsFirst(ps, s, p, k)
    ensures First(ps, s) == Some(Match(p, |ps[k]|))
  {
    var f := First(ps, s);
    assert f.Some?;
  }

  // ---------------------------------------------------------------- redaction

  /** The text `redact_values` returns for a given marker. */
  function Redact(ps: seq<Text>, marker: Text, s: Text): Text
    requires Proper(ps)
    decreases |s|
  {
    match First(ps, s)
    case None => s
    case Some(f) => s[..f.position] + marker + Redact(ps, marker, s[f.position + f.length..])
  }

  lemma RedactStep(ps: seq<Text>, marker: Text, before: Text, s: Text)
    requires Proper(ps) && First(ps, s).Some?
    ensures var f := First(ps, s).value;
      before + Redact(ps, marker, s) == before + s[..f.position] + marker + Redact(ps, marker, s[f.position + f.length..])
  {
    var f := First(ps, s).value;
    var rest := Redact(ps, marker, s[f.position + f.length..]);
    assert Redact(ps, marker, s) == s[..f.position] + marker + rest;
    assert before + (s[..f.position] + marker + rest) == before + s[..f.position] + marker + rest;
  }

  /** `redact_values`: replaces every leftmost-longest match, left to right. */
  method RedactValues(input: Text, patterns: seq<Text>) returns (result: Text)
    requires Proper(patterns)
    ensures result == Redact(patterns, RedactionMarker(patterns), input)
  {
    if patterns == [] {
      return input;
    }
    var marker := RedactionMarker(patterns);
    var remaining := input;
    result := [];
    var next := First(patterns, remaining);
    while next.Some?
      invariant next == First(patterns, remaining)
      invariant result + Redact(patterns, marker, remaining) == Redact(patterns, marker, input)
      decreases |remaining|
    {
      var Match(position, length) := next.value;
      RedactStep(patterns, marker, result, remaining);
      result := result + remaining[..position] + marker;
      remaining := remaining[position + length..];
      next := First(patterns, remaining);
    }
    result := result + remaining;
  }

  // ------------------------------------------------------------------- marker

  const TEXT: Text := "[REDACTED]"

  const POOL_START := 0xE000
  const POOL_END := 0x10FFFD
  const FALLBACK: char := 0xFFFD as char

  predicate Uses(ps: seq<Text>, c: char) {
    exists k :: 0 <= k < |ps| && c in ps[k]
  }

  /** The readable marker shares nothing with any pattern. */
  predicate TextIsSafe(ps: seq<Text>) {
    forall k :: 0 <= k < |ps| ==> '[' !in ps[k] && ']' !in ps[k] && Find(ps[k], TEXT).None?
  }

  /** The first character of the pool, from `n` on, that no pattern uses. */
  function FreeChar(ps: seq<Text>, n: int := POOL_START): (r: Option<char>)
    requires POOL_START <= n <= POOL_END + 1
    ensures r.Some? ==> POOL_START <= r.value as int <= POOL_END && !Uses(ps, r.value)
    ensures r.None? ==> forall c: char :: n <= c as int <= POOL_END ==> Uses(ps, c)
    decreases POOL_END - n
  {
    if n > POOL_END then None
    else if !Uses(ps, n as char) then Some(n as char)
    else FreeChar(ps, n + 1)
  }

  function RedactionMarker(ps: seq<Text>): Text {
    if TextIsSafe(ps) then TEXT
    else
      var free := FreeChar(ps);
      var ch := if free.Some? then free.value else FALLBACK;
      if exists k :: 0 <= k < |ps| && Find(ps[k], TEXT).Some? then [ch, ch, ch]
      else [ch] + TEXT + [ch]
  }

  /** What the marker is for: it holds no pattern, and no pattern can straddle
      either of its edges because the edge characters occur in no pattern. */
  ghost predicate Guarded(ps: seq<Text>, marker: Text) {
    && marker != []
    && !Uses(ps, marker[0])
    && !Uses(ps, marker[|marker| - 1])
    && NoMatch(ps, marker)
  }

  predicate HasFreeChar(ps: seq<Text>) {
    exists c: char :: POOL_START <= c as int <= POOL_END && !Uses(ps, c)
  }

  lemma PooledMarkerHoldsNoPattern(ps: seq<Text>, marker: Text, ch: char, k: nat, i: nat)
    requires k < |ps| && ps[k] != [] && ch !in ps[k]
    requires marker == [ch, ch, ch] || (marker == [ch] + TEXT + [ch] && Find(ps[k], TEXT).None?)
    ensures !At(ps[k], marker, i)
  {
    if At(ps[k], marker, i) {
      EndsAreNot(ps[k], marker, i, ch);
      assert !At(ps[k], TEXT, i - 1);
      InnerMatch(ps[k], marker, i, ch);
    }
  }

  /** A match touches neither end of the marker. */
  lemma EndsAreNot(q: Text, marker: Text, i: nat, ch: char)
    requires q != [] && ch !in q && At(q, marker, i)
    requires marker == [ch, ch, ch] || marker == [ch] + TEXT + [ch]
    ensures marker == [ch] + TEXT + [ch] && 1 <= i && i + |q| <= |TEXT| + 1
  {
    assert q[0] == marker[i] && q[|q| - 1] == marker[i + |q| - 1];
    assert q[0] in q && q[|q| - 1] in q;
  }

  lemma InnerMatch(q: Text, marker: Text, i: nat, ch: char)
    requires marker == [ch] + TEXT + [ch] && 1 <= i && i + |q| <= |TEXT| + 1 && At(q, marker, i)
    ensures At(q, TEXT, i - 1)
  {
    forall j | 0 <= j < |q| ensures q[j] == TEXT[i - 1 + j] {
      assert marker[i + j] == TEXT[i + j - 1];
    }
  }

  /** The marker keeps its promise exactly when the readable text is safe or
      some pool character is unused; the fallback character is in the pool. */
  lemma MarkerIsGuardedIff(ps: seq<Text>)
    requires Proper(ps)
    ensures Guarded(ps, RedactionMarker(ps)) <==> TextIsSafe(ps) || HasFreeChar(ps)
  {
    var marker := RedactionMarker(ps);
    if TextIsSafe(ps) {
      forall k, i: nat | 0 <= k < |ps| ensures !At(ps[k], TEXT, i) {
        assert Find(ps[k], TEXT).None?;
      }
    } else if HasFreeChar(ps) {
      var ch := marker[0];
      assert !Uses(ps, ch);
      forall k, i: nat | 0 <= k < |ps| ensures !At(ps[k], marker, i) {
        PooledMarkerHoldsNoPattern(ps, marker, ch, k, i);
      }
    } else {
      assert Uses(ps, 0xFFFD as char);
      assert marker[0] == FALLBACK;
    }
  }
}
