/** Streaming redaction (`StreamRedactor` in `src/provider/openai.rs`): the same
    replacement as `Secrets.Redact`, fed in chunks, withholding only a suffix
    that could still become a credential. */
module StreamRedaction {
  import opened Wrappers
  import opened Secrets

  // ------------------------------------------------------------ specification

  /** All of `s` from `i` on is a prefix of some pattern. */
  predicate Pends(ps: seq<Text>, s: Text, i: nat) {
    exists k :: 0 <= k < |ps| && |s| <= i + |ps[k]| && Compatible(ps[k], s, i)
  }

  /** The first position whose suffix must be withheld. */
  function Keep(ps: seq<Text>, s: Text, i: nat := 0): (r: nat)
    requires i <= |s|
    ensures i <= r <= |s|
    ensures r < |s| ==> Pends(ps, s, r)
    ensures forall j :: i <= j < r ==> !Pends(ps, s, j)
    decreases |s| - i
  {
    if i == |s| || Pends(ps, s, i) then i else Keep(ps, s, i + 1)
  }

  datatype Step = Step(output: Text, pending: Text)

  /** Replaces every match of `s`; the rest holds none. */
  function Consume(ps: seq<Text>, marker: Text, s: Text): Step
    requires Proper(ps)
    decreases |s|
  {
    match First(ps, s)
    case None => Step([], s)
    case Some(f) =>
      var next := Consume(ps, marker, s[f.position + f.length..]);
      Step(s[..f.position] + marker + next.output, next.pending)
  }

  function Flush(ps: seq<Text>, output: Text, rest: Text): Step {
    var keep := Keep(ps, rest);
    Step(output + rest[..keep], rest[keep..])
  }

  function Pushed(ps: seq<Text>, marker: Text, pending: Text, text: Text): Step
    requires Proper(ps)
  {
    if ps == [] then Step(text, pending)
    else
      var c := Consume(ps, marker, pending + text);
      Flush(ps, c.output, c.pending)
  }

  function Masked(marker: Text, pending: Text): Step {
    if pending == [] then Step([], []) else Step(marker, [])
  }

  // ----------------------------------------------------------- implementation

  class StreamRedactor {
    const patterns: seq<Text>
    const marker: Text
    var pending: Text

    constructor (patterns: seq<Text>)
      ensures this.patterns == patterns && marker == RedactionMarker(patterns) && pending == []
    {
      this.patterns := patterns;
      marker := RedactionMarker(patterns);
      pending := [];
    }

    method Push(text: Text) returns (output: Text)
      requires Proper(patterns)
      modifies this`pending
      ensures Step(output, pending) == Pushed(patterns, marker, old(pending), text)
    {
      if patterns == [] {
        return text;
      }
      pending := pending + text;
      ghost var all := Consume(patterns, marker, pending);
      output := [];
      var next := First(patterns, pending);
      while next.Some?
        invariant next == First(patterns, pending)
        invariant output + Consume(patterns, marker, pending).output == all.output
        invariant Consume(patterns, marker, pending).pending == all.pending
        decreases |pending|
      {
        var Match(position, length) := next.value;
        ConsumeStep(patterns, marker, output, pending);
        output := output + pending[..position] + marker;
        pending := pending[position + length..];
        next := First(patterns, pending);
      }
      assert output == all.output;
      var keep := Keep(patterns, pending);
      output := output + pending[..keep];
      pending := pending[keep..];
    }

    method Finish() returns (output: Text)
      modifies this`pending
      ensures output == old(pending) && pending == []
    {
      output := pending;
      pending := [];
    }

    method MaskPending() returns (output: Text)
      modifies this`pending
      ensures Step(output, pending) == Masked(marker, old(pending))
    {
      if pending == [] {
        output := [];
      } else {
        pending := [];
        output := marker;
      }
    }
  }

  lemma ConsumeStep(ps: seq<Text>, marker: Text, before: Text, s: Text)
    requires Proper(ps) && First(ps, s).Some?
    ensures var f := First(ps, s).value;
      var next := Consume(ps, marker, s[f.position + f.length..]);
      && before + Consume(ps, marker, s).output == before + s[..f.position] + marker + next.output
      && Consume(ps, marker, s).pending == next.pending
  {
    var f := First(ps, s).value;
    var next := Consume(ps, marker, s[f.position + f.length..]);
    assert before + (s[..f.position] + marker + next.output) == before + s[..f.position] + marker + next.output;
  }
}
