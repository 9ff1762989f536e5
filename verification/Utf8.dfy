/** Byte lengths of text: limits in the source count UTF-8 bytes, and cuts are
    made at character boundaries. */
module Utf8 {
  import opened Bounded
  import opened Sequences

  function CharBytes(c: char): nat {
    if c as int < 0x80 then 1
    else if c as int < 0x800 then 2
    else if c as int < 0x10000 then 3
    else 4
  }

  function Bytes(s: string): nat {
    Total(s, CharBytes)
  }

  lemma BytesConcat(a: string, b: string)
    ensures Bytes(a + b) == Bytes(a) + Bytes(b)
  {
    TotalConcat(a, b, CharBytes);
  }

  /** `str::is_char_boundary` for a byte offset. */
  predicate IsCharBoundary(s: string, offset: nat) {
    offset == 0 || (s != [] && offset >= CharBytes(s[0]) && IsCharBoundary(s[1..], offset - CharBytes(s[0])))
  }

  /** The first `offset` bytes of `s`. */
  function Cut(s: string, offset: nat): string
    requires IsCharBoundary(s, offset)
  {
    if offset == 0 then [] else [s[0]] + Cut(s[1..], offset - CharBytes(s[0]))
  }

  /** The longest prefix of whole characters within `max` bytes. */
  function Prefix(s: string, max: nat): (r: string)
    ensures |r| <= |s|
  {
    if s == [] || CharBytes(s[0]) > max then [] else [s[0]] + Prefix(s[1..], max - CharBytes(s[0]))
  }

  lemma {:induction false} PrefixIsLongest(s: string, max: nat)
    ensures Prefix(s, max) <= s && Bytes(Prefix(s, max)) <= max
    ensures forall k :: |Prefix(s, max)| < k <= |s| ==> Bytes(s[..k]) > max
  {
    if s != [] && CharBytes(s[0]) <= max {
      PrefixIsLongest(s[1..], max - CharBytes(s[0]));
      var p := Prefix(s, max);
      assert p[1..] == Prefix(s[1..], max - CharBytes(s[0]));
      forall k | |p| < k <= |s| ensures Bytes(s[..k]) > max {
        assert s[..k][1..] == s[1..][..k - 1];
      }
    } else {
      forall k | 0 < k <= |s| ensures Bytes(s[..k]) > max {
        assert s[..k][0] == s[0];
      }
    }
  }

  lemma {:induction false} LastBoundaryIsPrefix(s: string, max: nat, offset: nat)
    requires offset <= max && IsCharBoundary(s, offset)
    requires forall n :: offset < n <= max ==> !IsCharBoundary(s, n)
    ensures Cut(s, offset) == Prefix(s, max)
    decreases |s|
  {
    if s != [] && CharBytes(s[0]) <= max {
      var c := CharBytes(s[0]);
      assert IsCharBoundary(s, c);
      forall n | offset - c < n <= max - c ensures !IsCharBoundary(s[1..], n) {
        assert !IsCharBoundary(s, n + c);
      }
      LastBoundaryIsPrefix(s[1..], max - c, offset - c);
    }
  }

  lemma {:induction false} WholeIsBoundary(s: string, n: nat)
    requires n >= Bytes(s)
    ensures IsCharBoundary(s, Bytes(s))
    ensures n > Bytes(s) ==> !IsCharBoundary(s, n)
  {
    if s != [] {
      WholeIsBoundary(s[1..], n - CharBytes(s[0]));
    }
  }

  /** The backward search for a boundary that every bounded cut makes. */
  method BoundaryAtMost(s: string, max: nat) returns (end: nat)
    ensures IsCharBoundary(s, end) && Cut(s, end) == Prefix(s, max)
  {
    end := if Bytes(s) < max then Bytes(s) else max;
    forall n | end < n <= max ensures !IsCharBoundary(s, n) {
      WholeIsBoundary(s, n);
    }
    while end > 0 && !IsCharBoundary(s, end)
      invariant end <= max
      invariant forall n :: end < n <= max ==> !IsCharBoundary(s, n)
    {
      end := end - 1;
    }
    LastBoundaryIsPrefix(s, max, end);
  }

  /** Appends as much of `delta` as `max` bytes allow. */
  method AppendTextBounded(buffer: string, delta: string, max: nat) returns (r: string)
    ensures r == buffer + Prefix(delta, if max > Bytes(buffer) then max - Bytes(buffer) else 0)
  {
    var remaining := if max > Bytes(buffer) then max - Bytes(buffer) else 0;
    if remaining == 0 {
      return buffer;
    }
    var end := BoundaryAtMost(delta, remaining);
    r := buffer + Cut(delta, end);
  }

  lemma {:induction false} PrefixOfFitting(s: string, max: nat)
    requires Bytes(s) <= max
    ensures Prefix(s, max) == s
  {
    if s != [] {
      PrefixOfFitting(s[1..], max - CharBytes(s[0]));
    }
  }

  /** Appending within what is left of the limit is cutting the whole text. */
  lemma {:induction false} PrefixConcat(a: string, b: string, max: nat)
    requires Bytes(a) <= max
    ensures Prefix(a + b, max) == a + Prefix(b, max - Bytes(a))
  {
    if a == [] {
      assert a + b == b;
    } else {
      PrefixConcat(a[1..], b, max - CharBytes(a[0]));
      assert (a + b)[1..] == a[1..] + b && (a + b)[0] == a[0];
      assert a == [a[0]] + a[1..];
      Assoc([a[0]], a[1..], Prefix(b, max - Bytes(a)));
    }
  }

  // ----------------------------------------------------------------- chunking

  /** What one delta is split into: whole characters within `max` bytes, or
      one character that is wider. */
  function Chunks(text: string, max: nat): seq<string> {
    if text == [] then []
    else [text[..ChunkLength(text, max)]] + Chunks(text[ChunkLength(text, max)..], max)
  }

  function ChunkLength(text: string, max: nat): (n: nat)
    requires text != []
    ensures 0 < n <= |text|
  {
    if Prefix(text, max) == [] then 1 else |Prefix(text, max)|
  }

  function Joined(chunks: seq<string>): string {
    if chunks == [] then [] else chunks[0] + Joined(chunks[1..])
  }

  predicate GoodChunk(chunk: string, max: nat) {
    chunk != [] && (Bytes(chunk) <= max || |chunk| == 1)
  }

  /** Chunking loses nothing and makes no empty and no oversized chunk. */
  lemma {:induction false} ChunksRejoin(text: string, max: nat)
    ensures Joined(Chunks(text, max)) == text
    ensures forall k :: 0 <= k < |Chunks(text, max)| ==> GoodChunk(Chunks(text, max)[k], max)
    decreases |text|
  {
    if text != [] {
      PrefixIsLongest(text, max);
      var n := ChunkLength(text, max);
      ChunksRejoin(text[n..], max);
      assert text[..n] + text[n..] == text;
      assert Prefix(text, max) != [] ==> text[..n] == Prefix(text, max);
    }
  }

  /** Splits one delta into queue payloads (`send_agent_event_bounded`). */
  method Chunk(text: string, maxBytes: nat) returns (chunks: seq<string>)
    ensures chunks == Chunks(text, if maxBytes > 1 then maxBytes else 1)
  {
    var max := if maxBytes > 1 then maxBytes else 1;
    var rest := text;
    chunks := [];
    while rest != []
      invariant chunks + Chunks(rest, max) == Chunks(text, max)
      decreases |rest|
    {
      var end := BoundaryAtMost(rest, max);
      PrefixIsLongest(rest, max);
      CutIsEmptyIff(rest, end);
      var chunk := if end == 0 then rest[..1] else Cut(rest, end);
      assert chunk == rest[..ChunkLength(rest, max)];
      Assoc(chunks, [chunk], Chunks(rest[|chunk|..], max));
      chunks := chunks + [chunk];
      rest := rest[|chunk|..];
    }
    assert chunks + [] == chunks;
  }

  lemma CutIsEmptyIff(s: string, offset: nat)
    requires IsCharBoundary(s, offset)
    ensures Cut(s, offset) == [] <==> offset == 0
  {
  }
}
