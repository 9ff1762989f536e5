/** What streaming redaction guarantees, for every text and every chunking. */
module RedactionTheorems {
  import opened Wrappers
  import opened Sequences
  import opened Secrets
  import opened StreamRedaction

  // ------------------------------------------------ stream against batch form

  /** No pattern occurs inside another except as its suffix. */
  ghost predicate SuffixOnly(ps: seq<Text>) {
    forall j, k, i: nat :: 0 <= j < |ps| && 0 <= k < |ps| && At(ps[j], ps[k], i) ==> i + |ps[j]| == |ps[k]|
  }

  function Concat(chunks: seq<Text>): Text {
    if chunks == [] then [] else chunks[0] + Concat(chunks[1..])
  }

  /** Everything a redactor emits for `chunks`, `finish` included. */
  function Stream(ps: seq<Text>, marker: Text, pending: Text, chunks: seq<Text>): Text
    requires Proper(ps)
    decreases |chunks|
  {
    if chunks == [] then pending
    else
      var step := Pushed(ps, marker, pending, chunks[0]);
      step.output + Stream(ps, marker, step.pending, chunks[1..])
  }

  lemma AtInside(q: Text, s: Text, u: Text, i: nat)
    ensures At(q, s, i) ==> At(q, s + u, i)
    ensures i + |q| <= |s| ==> (At(q, s + u, i) <==> At(q, s, i))
  {
    if i + |q| <= |s| {
      assert (s + u)[i..i + |q|] == s[i..i + |q|];
    }
  }

  lemma AtShift(q: Text, s: Text, d: nat, i: nat)
    requires d <= i && d <= |s|
    ensures At(q, s, i) <==> At(q, s[d..], i - d)
  {
    if i + |q| <= |s| {
      assert s[d..][i - d..i - d + |q|] == s[i..i + |q|];
    }
  }

  /** A first match stays the first match however the text goes on. */
  lemma FirstIsStable(ps: seq<Text>, s: Text, u: Text, p: nat, k: nat)
    requires SuffixOnly(ps) && IsFirst(ps, s, p, k)
    ensures IsFirst(ps, s + u, p, k)
  {
    AtInside(ps[k], s, u, p);
    forall j, i: nat | 0 <= j < |ps| && At(ps[j], s + u, i)
      ensures p <= i && (i == p ==> |ps[j]| <= |ps[k]|)
    {
      AtInside(ps[j], s, u, i);
      if i <= p && i + |ps[j]| > |s| {
        forall x | 0 <= x < |ps[k]| && p - i + |ps[k]| <= |ps[j]| ensures ps[j][p - i + x] == ps[k][x] {
          assert (s + u)[i..i + |ps[j]|][p - i + x] == (s + u)[p + x] == s[p..p + |ps[k]|][x];
        }
        assert p - i + |ps[k]| <= |ps[j]| ==> At(ps[k], ps[j], p - i);
      }
    }
  }

  lemma RedactAtMatch(ps: seq<Text>, marker: Text, s: Text, p: nat, k: nat)
    requires Proper(ps) && IsFirst(ps, s, p, k)
    ensures Redact(ps, marker, s) == s[..p] + marker + Redact(ps, marker, s[p + |ps[k]|..])
  {
    FirstIsUnique(ps, s, p, k);
  }

  lemma CutOfConcat(s: Text, u: Text, p: nat, e: nat)
    requires p <= e <= |s|
    ensures (s + u)[..p] == s[..p] && (s + u)[e..] == s[e..] + u
  {
  }

  /** Text in which no match starts is copied. */
  lemma RedactCopies(ps: seq<Text>, marker: Text, head: Text, t: Text)
    requires Proper(ps)
    requires forall k, i: nat :: 0 <= k < |ps| && i < |head| ==> !At(ps[k], head + t, i)
    ensures Redact(ps, marker, head + t) == head + Redact(ps, marker, t)
  {
    if First(ps, t).Some? {
      var k: nat :| IsFirst(ps, t, First(ps, t).value.position, k);
      RedactBehind(ps, marker, head, t, First(ps, t).value.position, k);
    } else {
      forall k, i: nat | 0 <= k < |ps| ensures !At(ps[k], head + t, i) {
        if |head| <= i {
          AtBehind(ps[k], head, t, i);
        }
      }
      RedactKeeps(ps, marker, head + t);
      RedactKeeps(ps, marker, t);
    }
  }

  lemma AtBehind(q: Text, head: Text, t: Text, i: nat)
    requires |head| <= i
    ensures At(q, head + t, i) <==> At(q, t, i - |head|)
  {
    AtShift(q, head + t, |head|, i);
    assert (head + t)[|head|..] == t;
  }

  lemma FirstBehind(ps: seq<Text>, head: Text, t: Text, p: nat, k: nat)
    requires IsFirst(ps, t, p, k)
    requires forall k, i: nat :: 0 <= k < |ps| && i < |head| ==> !At(ps[k], head + t, i)
    ensures IsFirst(ps, head + t, |head| + p, k)
  {
    AtBehind(ps[k], head, t, |head| + p);
    forall j, i: nat | 0 <= j < |ps| && At(ps[j], head + t, i)
      ensures |head| + p <= i && (i == |head| + p ==> |ps[j]| <= |ps[k]|)
    {
      AtBehind(ps[j], head, t, i);
    }
  }

  lemma RedactBehind(ps: seq<Text>, marker: Text, head: Text, t: Text, p: nat, k: nat)
    requires Proper(ps) && IsFirst(ps, t, p, k)
    requires forall k, i: nat :: 0 <= k < |ps| && i < |head| ==> !At(ps[k], head + t, i)
    ensures Redact(ps, marker, head + t) == head + Redact(ps, marker, t)
  {
    FirstBehind(ps, head, t, p, k);
    RedactAtMatch(ps, marker, t, p, k);
    RedactAtBehind(ps, marker, head, t, p, k);
    Assoc(head, t[..p], marker);
    Assoc(head, t[..p] + marker, Redact(ps, marker, t[p + |ps[k]|..]));
  }

  lemma RedactAtBehind(ps: seq<Text>, marker: Text, head: Text, t: Text, p: nat, k: nat)
    requires Proper(ps) && IsFirst(ps, head + t, |head| + p, k) && At(ps[k], t, p)
    ensures Redact(ps, marker, head + t) == head + t[..p] + marker + Redact(ps, marker, t[p + |ps[k]|..])
  {
    SplitBehind(ps[k], head, t, p);
    RedactSplit(ps, marker, head + t, head + t[..p], k, t[p + |ps[k]|..]);
  }

  lemma SplitBehind(q: Text, head: Text, t: Text, p: nat)
    requires At(q, t, p)
    ensures head + t == head + t[..p] + q + t[p + |q|..] && |head + t[..p]| == |head| + p
  {
    assert t == t[..p] + q + t[p + |q|..];
    Assoc(head, t[..p] + q, t[p + |q|..]);
    Assoc(head, t[..p], q);
  }

  lemma RedactSplit(ps: seq<Text>, marker: Text, s: Text, a: Text, k: nat, rest: Text)
    requires Proper(ps) && IsFirst(ps, s, |a|, k) && s == a + ps[k] + rest
    ensures Redact(ps, marker, s) == a + marker + Redact(ps, marker, rest)
  {
    RedactAtMatch(ps, marker, s, |a|, k);
    SplitAround(a, ps[k], rest);
  }

  lemma RedactKeeps(ps: seq<Text>, marker: Text, s: Text)
    requires Proper(ps) && NoMatch(ps, s)
    ensures Redact(ps, marker, s) == s
  {
  }

  lemma NoMatchAfterShift(ps: seq<Text>, s: Text, d: nat)
    requires d <= |s| && NoMatch(ps, s)
    ensures NoMatch(ps, s[d..])
  {
    forall k, i: nat | 0 <= k < |ps| ensures !At(ps[k], s[d..], i) {
      AtShift(ps[k], s, d, i + d);
    }
  }

  lemma ConsumeLeavesNoMatch(ps: seq<Text>, marker: Text, s: Text)
    requires Proper(ps)
    ensures NoMatch(ps, Consume(ps, marker, s).pending)
    decreases |s|
  {
    var f := First(ps, s);
    if f.Some? {
      ConsumeLeavesNoMatch(ps, marker, s[f.value.position + f.value.length..]);
    }
  }

  lemma ConsumeAtMatch(ps: seq<Text>, marker: Text, s: Text, p: nat, k: nat)
    requires Proper(ps) && IsFirst(ps, s, p, k)
    ensures var next := Consume(ps, marker, s[p + |ps[k]|..]);
      Consume(ps, marker, s) == Step(s[..p] + marker + next.output, next.pending)
  {
    FirstIsUnique(ps, s, p, k);
  }

  lemma RedactConcatAtMatch(ps: seq<Text>, marker: Text, s: Text, u: Text, p: nat, k: nat)
    requires Proper(ps) && SuffixOnly(ps) && IsFirst(ps, s, p, k)
    ensures Redact(ps, marker, s + u) == s[..p] + marker + Redact(ps, marker, s[p + |ps[k]|..] + u)
  {
    FirstIsStable(ps, s, u, p, k);
    RedactAtMatch(ps, marker, s + u, p, k);
    CutOfConcat(s, u, p, p + |ps[k]|);
  }

  /** Replacing early what a chunk already shows agrees with waiting for more. */
  lemma {:induction false} ConsumeThenRedact(ps: seq<Text>, marker: Text, s: Text, u: Text)
    requires Proper(ps) && SuffixOnly(ps)
    ensures var c := Consume(ps, marker, s);
      Redact(ps, marker, s + u) == c.output + Redact(ps, marker, c.pending + u)
    decreases |s|
  {
    if First(ps, s).Some? {
      var p := First(ps, s).value.position;
      var k: nat :| IsFirst(ps, s, p, k);
      var rest := s[p + |ps[k]|..];
      ConsumeThenRedact(ps, marker, rest, u);
      RedactConcatAtMatch(ps, marker, s, u, p, k);
      ConsumeAtMatch(ps, marker, s, p, k);
      var next := Consume(ps, marker, rest);
      Assoc(s[..p] + marker, next.output, Redact(ps, marker, next.pending + u));
    }
  }

  /** A match reaching past `t` starts where `t` was withheld. */
  lemma NothingStartsBeforeKeep(ps: seq<Text>, t: Text, u: Text, k: nat, i: nat)
    requires NoMatch(ps, t) && k < |ps| && i < Keep(ps, t)
    ensures !At(ps[k], t + u, i)
  {
    CompatibleInside(ps[k], t, u, i);
    assert !At(ps[k], t, i) && !Pends(ps, t, i);
  }

  lemma CompatibleInside(q: Text, t: Text, u: Text, i: nat)
    ensures Compatible(q, t + u, i) ==> Compatible(q, t, i)
  {
    if Compatible(q, t + u, i) {
      forall j | 0 <= j < |q| && i + j < |t| ensures q[j] == t[i + j] {
        assert q[j] == (t + u)[i + j];
      }
    }
  }

  lemma RedactCopiesToKeep(ps: seq<Text>, marker: Text, t: Text, u: Text)
    requires Proper(ps) && NoMatch(ps, t)
    ensures var keep := Keep(ps, t);
      Redact(ps, marker, t + u) == t[..keep] + Redact(ps, marker, t[keep..] + u)
  {
    var keep := Keep(ps, t);
    Rejoin(t, u, keep);
    forall k, i: nat | 0 <= k < |ps| && i < keep ensures !At(ps[k], t[..keep] + (t[keep..] + u), i) {
      NothingStartsBeforeKeep(ps, t, u, k, i);
    }
    RedactCopies(ps, marker, t[..keep], t[keep..] + u);
  }

  lemma Rejoin(t: Text, u: Text, n: nat)
    requires n <= |t|
    ensures t[..n] + (t[n..] + u) == t + u
  {
  }

  lemma PushThenRedact(ps: seq<Text>, marker: Text, pending: Text, text: Text, u: Text)
    requires Proper(ps) && SuffixOnly(ps) && (ps == [] ==> pending == [])
    ensures var step := Pushed(ps, marker, pending, text);
      Redact(ps, marker, pending + text + u) == step.output + Redact(ps, marker, step.pending + u)
  {
    if ps != [] {
      var c := Consume(ps, marker, pending + text);
      var t := c.pending;
      var keep := Keep(ps, t);
      ConsumeThenRedact(ps, marker, pending + text, u);
      ConsumeLeavesNoMatch(ps, marker, pending + text);
      RedactCopiesToKeep(ps, marker, t, u);
      Assoc(c.output, t[..keep], Redact(ps, marker, t[keep..] + u));
    } else {
      RedactNothing(ps, marker, text + u);
      RedactNothing(ps, marker, pending + u);
      assert pending + text + u == text + u && pending + u == u;
    }
  }

  lemma RedactNothing(ps: seq<Text>, marker: Text, s: Text)
    requires ps == []
    ensures Redact(ps, marker, s) == s
  {
  }

  lemma PushLeavesNoMatch(ps: seq<Text>, marker: Text, pending: Text, text: Text)
    requires Proper(ps) && (ps == [] ==> pending == [])
    ensures NoMatch(ps, Pushed(ps, marker, pending, text).pending)
  {
    if ps != [] {
      ConsumeLeavesNoMatch(ps, marker, pending + text);
      var t := Consume(ps, marker, pending + text).pending;
      NoMatchAfterShift(ps, t, Keep(ps, t));
    }
  }

  lemma {:induction false} StreamIsRedact(ps: seq<Text>, marker: Text, pending: Text, chunks: seq<Text>)
    requires Proper(ps) && SuffixOnly(ps) && (ps == [] ==> pending == []) && NoMatch(ps, pending)
    ensures Stream(ps, marker, pending, chunks) == Redact(ps, marker, pending + Concat(chunks))
    decreases |chunks|
  {
    if chunks == [] {
      assert pending + Concat(chunks) == pending;
    } else {
      var step := Pushed(ps, marker, pending, chunks[0]);
      PushThenRedact(ps, marker, pending, chunks[0], Concat(chunks[1..]));
      PushLeavesNoMatch(ps, marker, pending, chunks[0]);
      StreamIsRedact(ps, marker, step.pending, chunks[1..]);
      Assoc(pending, chunks[0], Concat(chunks[1..]));
    }
  }

  // ------------------------------------------------------- and only then equal

  lemma {:induction false} ConsumeIsNotEmpty(ps: seq<Text>, marker: Text, s: Text)
    requires Proper(ps) && marker != [] && s != []
    ensures Consume(ps, marker, s).output != [] || Consume(ps, marker, s).pending != []
  {
  }

  lemma {:induction false} StreamIsNotEmpty(ps: seq<Text>, marker: Text, pending: Text, chunks: seq<Text>)
    requires Proper(ps) && marker != [] && pending + Concat(chunks) != []
    ensures Stream(ps, marker, pending, chunks) != []
    decreases |chunks|
  {
    if chunks != [] {
      var step := Pushed(ps, marker, pending, chunks[0]);
      if step.output == [] {
        if ps != [] && pending + chunks[0] != [] {
          ConsumeIsNotEmpty(ps, marker, pending + chunks[0]);
        }
        assert step.pending != [] || Concat(chunks[1..]) != [];
        StreamIsNotEmpty(ps, marker, step.pending, chunks[1..]);
      }
    }
  }

  lemma PushStep(ps: seq<Text>, marker: Text, s: Text, p: nat, k: nat)
    requires Proper(ps) && IsFirst(ps, s, p, k)
    ensures var first, other := Pushed(ps, marker, [], s), Pushed(ps, marker, [], s[p + |ps[k]|..]);
      first.pending == other.pending && first.output == s[..p] + marker + other.output
  {
    var rest := s[p + |ps[k]|..];
    ConsumeAtMatch(ps, marker, s, p, k);
    assert [] + s == s && [] + rest == rest;
    var c := Consume(ps, marker, rest);
    Assoc(s[..p] + marker, c.output, c.pending[..Keep(ps, c.pending)]);
  }

  /** Cutting a pattern right after an inner match makes the stream replace the
      inner match and still emit something for the remainder. */
  lemma CutInsideDiffers(ps: seq<Text>, marker: Text, j: nat, k: nat, i: nat)
    requires Proper(ps) && marker != [] && j < |ps| && k < |ps|
    requires At(ps[j], ps[k], i) && i + |ps[j]| < |ps[k]|
    ensures var e := i + |ps[j]|;
      |Stream(ps, marker, [], [ps[k][..e], ps[k][e..]])| > |marker| == |Redact(ps, marker, ps[k])|
  {
    var s, tail := ps[k][..i + |ps[j]|], ps[k][i + |ps[j]|..];
    WholePatternIsOneMarker(ps, marker, k);
    assert At(ps[j], s, i);
    assert First(ps, s).Some?;
    var m: nat :| IsFirst(ps, s, First(ps, s).value.position, m);
    var p := First(ps, s).value.position;
    MatchThenTail(ps, marker, s, tail, p, m);
  }

  lemma MatchThenTail(ps: seq<Text>, marker: Text, s: Text, tail: Text, p: nat, m: nat)
    requires Proper(ps) && marker != [] && tail != [] && IsFirst(ps, s, p, m)
    ensures |Stream(ps, marker, [], [s, tail])| > |marker|
  {
    var rest := s[p + |ps[m]|..];
    PushStep(ps, marker, s, p, m);
    StreamOfTwo(ps, marker, s, tail);
    StreamOfTwo(ps, marker, rest, tail);
    ConcatOfTwo(rest, tail);
    StreamIsNotEmpty(ps, marker, [], [rest, tail]);
  }

  lemma StreamOfTwo(ps: seq<Text>, marker: Text, a: Text, b: Text)
    requires Proper(ps)
    ensures var step := Pushed(ps, marker, [], a);
      Stream(ps, marker, [], [a, b]) == step.output + Stream(ps, marker, step.pending, [b])
  {
    assert [a, b][1..] == [b];
  }

  lemma ConcatOfTwo(a: Text, b: Text)
    ensures Concat([a, b]) == a + b
  {
    assert [a, b][1..] == [b] && [b][1..] == [];
    assert Concat([b]) == b + Concat([]);
  }

  lemma WholePatternIsOneMarker(ps: seq<Text>, marker: Text, k: nat)
    requires Proper(ps) && k < |ps|
    ensures Redact(ps, marker, ps[k]) == marker
  {
    var q := ps[k];
    assert At(q, q, 0);
    var f := First(ps, q).value;
    assert f == Match(0, |q|);
    assert q[..0] + marker + Redact(ps, marker, q[|q|..]) == marker;
  }

  lemma CutDiffers(ps: seq<Text>, marker: Text, j: nat, k: nat, i: nat) returns (chunks: seq<Text>)
    requires Proper(ps) && marker != [] && j < |ps| && k < |ps|
    requires At(ps[j], ps[k], i) && i + |ps[j]| < |ps[k]|
    ensures Stream(ps, marker, [], chunks) != Redact(ps, marker, Concat(chunks))
  {
    var head, tail := ps[k][..i + |ps[j]|], ps[k][i + |ps[j]|..];
    CutInsideDiffers(ps, marker, j, k, i);
    ConcatOfTwo(head, tail);
    assert head + tail == ps[k];
    chunks := [head, tail];
  }

  lemma OverlapDiffers(ps: seq<Text>, marker: Text) returns (chunks: seq<Text>)
    requires Proper(ps) && marker != [] && !SuffixOnly(ps)
    ensures Stream(ps, marker, [], chunks) != Redact(ps, marker, Concat(chunks))
  {
    var j: nat, k: nat, i: nat :| j < |ps| && k < |ps| && At(ps[j], ps[k], i) && i + |ps[j]| != |ps[k]|;
    chunks := CutDiffers(ps, marker, j, k, i);
  }

  /** Streaming equals batch redaction on every text and every chunking exactly
      when no pattern occurs inside another except as its suffix. */
  lemma StreamEqualsBatchIff(ps: seq<Text>, marker: Text)
    requires Proper(ps) && marker != []
    ensures SuffixOnly(ps)
      <==> forall chunks :: Stream(ps, marker, [], chunks) == Redact(ps, marker, Concat(chunks))
  {
    if SuffixOnly(ps) {
      forall chunks ensures Stream(ps, marker, [], chunks) == Redact(ps, marker, Concat(chunks)) {
        StreamIsRedact(ps, marker, [], chunks);
        assert [] + Concat(chunks) == Concat(chunks);
      }
    } else {
      var chunks := OverlapDiffers(ps, marker);
    }
  }

  /** A pattern and a longer one that begins with it, such as Base64 without and
      with padding, are a pair for which the two differ. */
  lemma PaddedPairDiffers(ps: seq<Text>, marker: Text, j: nat, k: nat, pad: Text)
    requires Proper(ps) && marker != [] && pad != []
    requires j < |ps| && k < |ps| && ps[k] == ps[j] + pad
    ensures Stream(ps, marker, [], [ps[j], pad]) != Redact(ps, marker, Concat([ps[j], pad]))
  {
    assert At(ps[j], ps[k], 0);
    CutInsideDiffers(ps, marker, j, k, 0);
    assert ps[k][..|ps[j]|] == ps[j] && ps[k][|ps[j]|..] == pad;
    ConcatOfTwo(ps[j], pad);
  }

  // -------------------------------------------------- no credential gets out

  /** What a caller may do with a redactor before `finish`. */
  datatype Op = Chunk(text: Text) | Mask

  function Apply(ps: seq<Text>, marker: Text, state: Step, op: Op): Step
    requires Proper(ps)
  {
    var step := match op
      case Chunk(text) => Pushed(ps, marker, state.pending, text)
      case Mask => Masked(marker, state.pending);
    Step(state.output + step.output, step.pending)
  }

  function Run(ps: seq<Text>, marker: Text, ops: seq<Op>): Step
    requires Proper(ps)
  {
    if ops == [] then Step([], [])
    else Apply(ps, marker, Run(ps, marker, ops[..|ops| - 1]), ops[|ops| - 1])
  }

  /** No match can start in the first `n` characters of `s`, whatever follows. */
  ghost predicate Settled(ps: seq<Text>, s: Text, n: nat) {
    forall k, i: nat :: 0 <= k < |ps| && i < n ==> !Compatible(ps[k], s, i)
  }

  /** Empty, or a proper prefix of a pattern. */
  predicate Withheld(ps: seq<Text>, pending: Text) {
    pending == [] || exists k :: 0 <= k < |ps| && |pending| < |ps[k]| && Compatible(ps[k], pending, 0)
  }

  ghost predicate Safe(ps: seq<Text>, state: Step) {
    && Settled(ps, state.output + state.pending, |state.output|)
    && NoMatch(ps, state.pending)
    && Withheld(ps, state.pending)
  }

  lemma SettledExtends(ps: seq<Text>, s: Text, u: Text, n: nat)
    requires Settled(ps, s, n) && n <= |s|
    ensures Settled(ps, s + u, n)
  {
    forall k, i: nat | 0 <= k < |ps| && i < n ensures !Compatible(ps[k], s + u, i) {
      CompatibleInside(ps[k], s, u, i);
    }
  }

  /** Laid over the marker at offset `d`, `q` agrees wherever both reach. */
  predicate Agrees(q: Text, marker: Text, d: int) {
    forall j :: 0 <= j < |q| && 0 <= d + j < |marker| ==> q[j] == marker[d + j]
  }

  /** No pattern can take part in the marker: at every offset at which the two
      overlap they disagree somewhere. */
  predicate Clear(ps: seq<Text>, marker: Text) {
    marker != [] && forall k, d :: 0 <= k < |ps| && -|ps[k]| < d < |marker| ==> !Agrees(ps[k], marker, d)
  }

  /** No pattern can reach across an edge of the marker. */
  predicate NoStraddle(ps: seq<Text>, marker: Text) {
    forall k, d :: 0 <= k < |ps| && -|ps[k]| < d < |marker| && (d < 0 || d + |ps[k]| > |marker|)
      ==> !Agrees(ps[k], marker, d)
  }

  lemma AgreesInside(q: Text, marker: Text, i: nat)
    requires i + |q| <= |marker|
    ensures Agrees(q, marker, i) <==> At(q, marker, i)
  {
    if Agrees(q, marker, i) {
      assert forall j :: 0 <= j < |q| ==> q[j] == marker[i + j];
    }
  }

  lemma ClearIff(ps: seq<Text>, marker: Text)
    requires Proper(ps) && marker != []
    ensures Clear(ps, marker) <==> NoStraddle(ps, marker) && NoMatch(ps, marker)
  {
    if Clear(ps, marker) {
      forall k, i: nat | 0 <= k < |ps| ensures !At(ps[k], marker, i) {
        if i + |ps[k]| <= |marker| {
          AgreesInside(ps[k], marker, i);
        }
      }
    }
    if NoStraddle(ps, marker) && NoMatch(ps, marker) {
      forall k, d | 0 <= k < |ps| && -|ps[k]| < d < |marker| ensures !Agrees(ps[k], marker, d) {
        if 0 <= d && d + |ps[k]| <= |marker| {
          AgreesInside(ps[k], marker, d);
        }
      }
    }
  }

  /** Ends that no pattern uses are one way to be clear. */
  lemma GuardedIsClear(ps: seq<Text>, marker: Text)
    requires Proper(ps) && Guarded(ps, marker)
    ensures Clear(ps, marker)
  {
    forall k, d | 0 <= k < |ps| && -|ps[k]| < d < |marker| && (d < 0 || d + |ps[k]| > |marker|)
      ensures !Agrees(ps[k], marker, d)
    {
      var q := ps[k];
      if d < 0 {
        assert q[-d] in q;
      } else {
        assert q[|marker| - 1 - d] in q;
      }
    }
    ClearIff(ps, marker);
  }

  /** A clear marker closes whatever precedes it. */
  lemma MarkerSettles(ps: seq<Text>, marker: Text, a: Text, rest: Text)
    requires Proper(ps) && Clear(ps, marker) && NoMatch(ps, a)
    ensures Settled(ps, a + marker + rest, |a + marker|)
  {
    var s := a + marker + rest;
    forall k, i: nat | 0 <= k < |ps| && i < |a + marker| ensures !Compatible(ps[k], s, i) {
      var q := ps[k];
      if i + |q| <= |a| {
        assert !At(q, a, i);
        var j :| 0 <= j < |q| && i + j < |a| && q[j] != a[i + j];
        assert s[i + j] == a[i + j];
      } else {
        assert !Agrees(q, marker, i - |a|);
        var j :| 0 <= j < |q| && 0 <= i - |a| + j < |marker| && q[j] != marker[i - |a| + j];
        assert s[i + j] == marker[i - |a| + j];
      }
    }
  }

  /** What is emitted up to a first match of `s` holds no match. */
  lemma PrefixHoldsNoMatch(ps: seq<Text>, out: Text, s: Text, p: nat)
    requires Proper(ps) && Settled(ps, out + s, |out|) && p <= |s|
    requires forall k, i: nat :: 0 <= k < |ps| && At(ps[k], s, i) ==> p <= i
    ensures NoMatch(ps, out + s[..p])
  {
    forall k, i: nat | 0 <= k < |ps| ensures !At(ps[k], out + s[..p], i) {
      assert out + s == out + s[..p] + s[p..];
      AtInside(ps[k], out + s[..p], s[p..], i);
      if i < |out| {
        assert !Compatible(ps[k], out + s, i);
      } else {
        AtShift(ps[k], out + s, |out|, i);
        assert (out + s)[|out|..] == s;
      }
    }
  }

  lemma MarkerIsSafe(ps: seq<Text>, marker: Text, out: Text, s: Text)
    requires Proper(ps) && Clear(ps, marker) && Settled(ps, out + s, |out|) && First(ps, s).Some?
    ensures var f := First(ps, s).value;
      && f.position + f.length <= |s|
      && Settled(ps, out + s[..f.position] + marker + s[f.position + f.length..], |out + s[..f.position] + marker|)
  {
    var f := First(ps, s).value;
    PrefixHoldsNoMatch(ps, out, s, f.position);
    MarkerSettles(ps, marker, out + s[..f.position], s[f.position + f.length..]);
  }

  lemma {:induction false} ConsumeIsSafe(ps: seq<Text>, marker: Text, out: Text, s: Text)
    requires Proper(ps) && Clear(ps, marker) && Settled(ps, out + s, |out|)
    ensures var c := Consume(ps, marker, s);
      Settled(ps, out + c.output + c.pending, |out + c.output|)
    decreases |s|
  {
    var f := First(ps, s);
    if f.Some? {
      var p, rest := f.value.position, s[f.value.position + f.value.length..];
      var c := Consume(ps, marker, rest);
      MarkerIsSafe(ps, marker, out, s);
      ConsumeIsSafe(ps, marker, out + s[..p] + marker, rest);
      Assoc(out, s[..p], marker);
      Assoc(out, s[..p] + marker, c.output);
    } else {
      assert out + [] == out;
    }
  }

  lemma FlushIsSafe(ps: seq<Text>, out: Text, t: Text)
    requires Proper(ps) && NoMatch(ps, t) && Settled(ps, out + t, |out|)
    ensures var keep := Keep(ps, t);
      Safe(ps, Step(out + t[..keep], t[keep..]))
  {
    var keep := Keep(ps, t);
    var state := Step(out + t[..keep], t[keep..]);
    assert out + t[..keep] + t[keep..] == out + t;
    forall k, i: nat | 0 <= k < |ps| && i < |out| + keep ensures !Compatible(ps[k], out + t, i) {
      if i >= |out| {
        assert !Pends(ps, t, i - |out|);
        assert !At(ps[k], t, i - |out|);
        var j :| 0 <= j < |ps[k]| && i - |out| + j < |t| && ps[k][j] != t[i - |out| + j];
        assert (out + t)[i + j] == t[i - |out| + j];
      }
    }
    NoMatchAfterShift(ps, t, keep);
    if keep < |t| {
      var k :| 0 <= k < |ps| && |t| <= keep + |ps[k]| && Compatible(ps[k], t, keep);
      assert !At(ps[k], t, keep);
    }
  }

  lemma PushIsSafe(ps: seq<Text>, marker: Text, out: Text, pending: Text, text: Text)
    requires Proper(ps) && Clear(ps, marker) && ps != [] && Safe(ps, Step(out, pending))
    ensures var step := Pushed(ps, marker, pending, text);
      Safe(ps, Step(out + step.output, step.pending))
  {
    var s := pending + text;
    var c := Consume(ps, marker, s);
    SettledExtends(ps, out + pending, text, |out|);
    Assoc(out, pending, text);
    ConsumeIsSafe(ps, marker, out, s);
    ConsumeLeavesNoMatch(ps, marker, s);
    FlushIsSafe(ps, out + c.output, c.pending);
    Assoc(out, c.output, c.pending[..Keep(ps, c.pending)]);
  }

  lemma MaskIsSafe(ps: seq<Text>, marker: Text, out: Text, pending: Text)
    requires Proper(ps) && Clear(ps, marker) && Safe(ps, Step(out, pending))
    ensures Safe(ps, Step(out + marker, []))
  {
    PrefixHoldsNoMatch(ps, out, pending, 0);
    assert out + pending[..0] == out;
    MarkerSettles(ps, marker, out, []);
    assert out + marker + [] == out + marker;
  }

  lemma ApplyIsSafe(ps: seq<Text>, marker: Text, state: Step, op: Op)
    requires Proper(ps) && Clear(ps, marker) && Safe(ps, state)
    ensures Safe(ps, Apply(ps, marker, state, op))
  {
    assert state.output + [] == state.output;
    if ps != [] {
      match op
      case Chunk(text) => PushIsSafe(ps, marker, state.output, state.pending, text);
      case Mask =>
        if state.pending != [] {
          MaskIsSafe(ps, marker, state.output, state.pending);
        }
    }
  }

  lemma {:induction false} RunIsSafe(ps: seq<Text>, marker: Text, ops: seq<Op>)
    requires Proper(ps) && Clear(ps, marker)
    ensures Safe(ps, Run(ps, marker, ops))
    decreases |ops|
  {
    if ops != [] {
      RunIsSafe(ps, marker, ops[..|ops| - 1]);
      ApplyIsSafe(ps, marker, Run(ps, marker, ops[..|ops| - 1]), ops[|ops| - 1]);
    }
  }

  /** Neither what was emitted nor what `finish` makes of it holds a pattern. */
  lemma SafeIsClean(ps: seq<Text>, out: Text, pending: Text)
    requires Proper(ps) && Safe(ps, Step(out, pending))
    ensures NoMatch(ps, out) && NoMatch(ps, out + pending)
  {
    PrefixHoldsNoMatch(ps, out, pending, |pending|);
    assert pending[..|pending|] == pending;
    PrefixHoldsNoMatch(ps, out, pending, 0);
    assert out + pending[..0] == out;
  }

  /** Over any pushes and masks, nothing emitted so far holds a credential,
      neither does the text after `finish`, not even across marker edges, and
      what is withheld is a proper prefix of a credential. */
  lemma NoPatternEscapes(ps: seq<Text>, marker: Text, ops: seq<Op>)
    requires Proper(ps) && Clear(ps, marker)
    ensures var state := Run(ps, marker, ops);
      && NoMatch(ps, state.output)
      && NoMatch(ps, state.output + state.pending)
      && Withheld(ps, state.pending)
  {
    RunIsSafe(ps, marker, ops);
    var state := Run(ps, marker, ops);
    SafeIsClean(ps, state.output, state.pending);
  }

  /** The same for the marker the code computes, streamed or in one batch. */
  lemma RedactionIsClean(ps: seq<Text>, ops: seq<Op>, s: Text)
    requires Proper(ps) && Clear(ps, RedactionMarker(ps))
    ensures var state := Run(ps, RedactionMarker(ps), ops);
      NoMatch(ps, state.output) && NoMatch(ps, state.output + state.pending) && Withheld(ps, state.pending)
    ensures NoMatch(ps, Redact(ps, RedactionMarker(ps), s))
  {
    var marker := RedactionMarker(ps);
    NoPatternEscapes(ps, marker, ops);
    NoPatternEscapes(ps, marker, [Chunk(s)]);
    OneChunkIsBatch(ps, marker, s);
  }

  /** The marker the code computes is clear if the readable text is safe or
      some pool character is unused. */
  lemma MarkerIsClear(ps: seq<Text>)
    requires Proper(ps) && (TextIsSafe(ps) || HasFreeChar(ps))
    ensures Clear(ps, RedactionMarker(ps))
  {
    MarkerIsGuardedIff(ps);
    GuardedIsClear(ps, RedactionMarker(ps));
  }

  /** Fed in one piece, the stream is the batch form whatever the patterns. */
  lemma OneChunkIsBatch(ps: seq<Text>, marker: Text, s: Text)
    requires Proper(ps)
    ensures var state := Run(ps, marker, [Chunk(s)]);
      state.output + state.pending == Redact(ps, marker, s)
  {
    RunOfOneChunk(ps, marker, s);
    ConsumeIsRedact(ps, marker, s);
    if ps == [] {
      RedactNothing(ps, marker, s);
      assert s + [] == s;
    } else {
      FlushKeepsAll(ps, Consume(ps, marker, s));
    }
  }

  lemma RunOfOneChunk(ps: seq<Text>, marker: Text, s: Text)
    requires Proper(ps)
    ensures Run(ps, marker, [Chunk(s)]) ==
      if ps == [] then Step(s, []) else Flush(ps, Consume(ps, marker, s).output, Consume(ps, marker, s).pending)
  {
    assert [Chunk(s)][..0] == [];
    assert Run(ps, marker, []) == Step([], []);
    assert [] + s == s;
    var step := Pushed(ps, marker, [], s);
    assert [] + step.output == step.output;
  }

  lemma FlushKeepsAll(ps: seq<Text>, c: Step)
    ensures var f := Flush(ps, c.output, c.pending);
      f.output + f.pending == c.output + c.pending
  {
    var keep := Keep(ps, c.pending);
    Assoc(c.output, c.pending[..keep], c.pending[keep..]);
    assert c.pending[..keep] + c.pending[keep..] == c.pending;
  }

  lemma {:induction false} ConsumeIsRedact(ps: seq<Text>, marker: Text, s: Text)
    requires Proper(ps)
    ensures Consume(ps, marker, s).output + Consume(ps, marker, s).pending == Redact(ps, marker, s)
    decreases |s|
  {
    var f := First(ps, s);
    if f.Some? {
      var rest := s[f.value.position + f.value.length..];
      ConsumeIsRedact(ps, marker, rest);
      Assoc(s[..f.value.position] + marker, Consume(ps, marker, rest).output, Consume(ps, marker, rest).pending);
    }
  }

  // ------------------------------------------------- and when one does get out

  /** No text is redacted into one that holds a pattern. */
  ghost predicate AlwaysClean(ps: seq<Text>, marker: Text)
    requires Proper(ps)
  {
    forall s :: NoMatch(ps, Redact(ps, marker, s))
  }

  /** A pattern inside the marker is shown whenever anything is redacted. */
  lemma MarkerHoldsPatternLeaks(ps: seq<Text>, marker: Text, j: nat, i: nat, k: nat)
    requires Proper(ps) && j < |ps| && k < |ps| && At(ps[j], marker, i)
    ensures At(ps[j], Redact(ps, marker, ps[k]), i)
    ensures !AlwaysClean(ps, marker)
  {
    WholePatternIsOneMarker(ps, marker, k);
  }

  /** Where no pattern can straddle an edge of the marker, redaction is clean on
      every text exactly when no pattern lies inside the marker. */
  lemma AlwaysCleanIff(ps: seq<Text>, marker: Text)
    requires Proper(ps) && marker != [] && NoStraddle(ps, marker)
    ensures AlwaysClean(ps, marker) <==> NoMatch(ps, marker)
  {
    if NoMatch(ps, marker) {
      ClearIff(ps, marker);
      forall s ensures NoMatch(ps, Redact(ps, marker, s)) {
        NoPatternEscapes(ps, marker, [Chunk(s)]);
        OneChunkIsBatch(ps, marker, s);
      }
    } else {
      var j, i: nat :| 0 <= j < |ps| && At(ps[j], marker, i);
      MarkerHoldsPatternLeaks(ps, marker, j, i, j);
    }
  }

  lemma LeakIsNotClean(ps: seq<Text>, marker: Text, s: Text, k: nat, i: nat)
    requires Proper(ps) && k < |ps| && At(ps[k], Redact(ps, marker, s), i)
    ensures !AlwaysClean(ps, marker)
  {
    assert !NoMatch(ps, Redact(ps, marker, s));
  }

  /** A pattern `n` that is redacted between `x` and `y` puts the marker there,
      and shows every pattern that this makes. */
  lemma StraddleLeaks(ps: seq<Text>, marker: Text, x: Text, n: nat, y: Text, k: nat, i: nat)
    requires Proper(ps) && k < |ps| && NoMatch(ps, y)
    requires n < |ps| && IsFirst(ps, x + ps[n] + y, |x|, n)
    requires At(ps[k], x + marker + y, i)
    ensures !AlwaysClean(ps, marker)
  {
    RedactBetween(ps, marker, x, n, y);
    LeakIsNotClean(ps, marker, x + ps[n] + y, k, i);
  }

  lemma RedactBetween(ps: seq<Text>, marker: Text, x: Text, n: nat, y: Text)
    requires Proper(ps) && NoMatch(ps, y) && n < |ps| && IsFirst(ps, x + ps[n] + y, |x|, n)
    ensures Redact(ps, marker, x + ps[n] + y) == x + marker + y
  {
    RedactSplit(ps, marker, x + ps[n] + y, x, n, y);
    RedactKeeps(ps, marker, y);
  }

  lemma SplitAround(x: Text, q: Text, y: Text)
    ensures (x + q + y)[..|x|] == x && (x + q + y)[|x| + |q|..] == y
  {
  }
}
