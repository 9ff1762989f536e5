/** The spellings of a credential that are looked for (`redaction_patterns` in
    `src/secrets.rs`): itself, its JSON, URL and Base64 forms. */
module Patterns {
  import opened Sequences
  import opened Secrets
  import CanonicalJson
  import Utf8

  type Octet = n: nat | n < 256

  // -------------------------------------------------------------------- UTF-8

  function CharOctets(c: char): (r: seq<Octet>)
    ensures |r| == Utf8.CharBytes(c)
  {
    var n := c as int;
    if n < 0x80 then [n]
    else if n < 0x800 then [0xC0 + n / 64, 0x80 + n % 64]
    else if n < 0x10000 then [0xE0 + n / 4096, 0x80 + n / 64 % 64, 0x80 + n % 64]
    else [0xF0 + n / 262144, 0x80 + n / 4096 % 64, 0x80 + n / 64 % 64, 0x80 + n % 64]
  }

  function Octets(s: Text): (r: seq<Octet>)
    ensures |r| == Utf8.Bytes(s)
  {
    if s == [] then [] else CharOctets(s[0]) + Octets(s[1..])
  }

  // ---------------------------------------------------------------------- URL

  /** What `application/x-www-form-urlencoded` leaves as it is. */
  predicate Plain(b: Octet) {
    0x30 <= b <= 0x39 || 0x41 <= b <= 0x5A || 0x61 <= b <= 0x7A || b in {0x2A, 0x2D, 0x2E, 0x5F}
  }

  function HexDigit(n: nat, upper: bool): char
    requires n < 16
  {
    if upper then "0123456789ABCDEF"[n] else CanonicalJson.HexDigit(n)
  }

  function UrlOctet(b: Octet, upper: bool): Text {
    if Plain(b) then [b as char]
    else if b == 0x20 then "+"
    else ['%', HexDigit(b / 16, upper), HexDigit(b % 16, upper)]
  }

  function UrlForm(bytes: seq<Octet>, upper: bool): Text {
    if bytes == [] then [] else UrlForm(bytes[..|bytes| - 1], upper) + UrlOctet(bytes[|bytes| - 1], upper)
  }

  lemma {:induction false} UrlFormConcat(a: seq<Octet>, b: seq<Octet>, upper: bool)
    ensures UrlForm(a + b, upper) == UrlForm(a, upper) + UrlForm(b, upper)
    decreases |b|
  {
    if b == [] {
      assert a + b == a;
    } else {
      UrlFormConcat(a, b[..|b| - 1], upper);
      assert (a + b)[..|a + b| - 1] == a + b[..|b| - 1];
      Assoc(UrlForm(a, upper), UrlForm(b[..|b| - 1], upper), UrlOctet(b[|b| - 1], upper));
    }
  }

  function Lower(c: char): char {
    if 'A' <= c <= 'Z' then (c as int + 32) as char else c
  }

  lemma OctetForms(b: Octet)
    ensures UrlOctet(b, true)[0] == '%' <==> |UrlOctet(b, true)| == 3
    ensures |UrlOctet(b, true)| == 1 || |UrlOctet(b, true)| == 3
    ensures |UrlOctet(b, true)| == 1 ==> UrlOctet(b, false) == UrlOctet(b, true)
    ensures |UrlOctet(b, true)| == 3 ==>
      UrlOctet(b, false) == ['%', Lower(UrlOctet(b, true)[1]), Lower(UrlOctet(b, true)[2])]
  {
    if !Plain(b) && b != 0x20 {
      LowerHex(b / 16);
      LowerHex(b % 16);
    }
  }

  lemma LowerHex(n: nat)
    requires n < 16
    ensures Lower(HexDigit(n, true)) == HexDigit(n, false)
  {
  }

  /** Where the in-place loop stands: the first `m` octets are done. */
  ghost predicate Lowering(bytes: seq<Octet>, m: nat, index: nat, text: Text) {
    && m <= |bytes| && index == |UrlForm(bytes[..m], true)|
    && text == UrlForm(bytes[..m], false) + UrlForm(bytes[m..], true)
    && |UrlForm(bytes[..m], false)| == index
  }

  lemma LoweringIs(bytes: seq<Octet>, m: nat, index: nat, text: Text)
    requires Lowering(bytes, m, index, text) && m < |bytes|
    ensures text == UrlForm(bytes[..m], false) + (UrlOctet(bytes[m], true) + UrlForm(bytes[m + 1..], true))
  {
    UrlFormRest(bytes, m);
  }

  lemma LoweringNext(bytes: seq<Octet>, m: nat, index: nat, text: Text)
    requires Lowering(bytes, m, index, text) && m < |bytes|
    ensures var head := UrlOctet(bytes[m], true);
      && index + |head| <= |text| && text[index..index + |head|] == head
      && Lowering(bytes, m + 1, index + |head|,
        text[..index] + UrlOctet(bytes[m], false) + text[index + |head|..])
  {
    var b := bytes[m];
    OctetForms(b);
    LoweringIs(bytes, m, index, text);
    UrlFormNext(bytes, m, true);
    UrlFormNext(bytes, m, false);
    Exchange(UrlForm(bytes[..m], false), UrlOctet(b, true), UrlOctet(b, false), UrlForm(bytes[m + 1..], true));
  }

  lemma UrlFormRest(bytes: seq<Octet>, m: nat)
    requires m < |bytes|
    ensures UrlForm(bytes[m..], true) == UrlOctet(bytes[m], true) + UrlForm(bytes[m + 1..], true)
  {
    assert bytes[m..] == [bytes[m]] + bytes[m + 1..];
    UrlFormConcat([bytes[m]], bytes[m + 1..], true);
    UrlFormOne(bytes[m], true);
  }

  lemma UrlFormNext(bytes: seq<Octet>, m: nat, upper: bool)
    requires m < |bytes|
    ensures UrlForm(bytes[..m + 1], upper) == UrlForm(bytes[..m], upper) + UrlOctet(bytes[m], upper)
  {
    assert bytes[..m + 1][..m] == bytes[..m];
  }

  lemma Exchange(done: Text, head: Text, lowered: Text, tail: Text)
    ensures var text, index := done + (head + tail), |done|;
      && text[index..index + |head|] == head
      && text[..index] + lowered + text[index + |head|..] == done + lowered + tail
  {
  }

  lemma UrlFormOne(b: Octet, upper: bool)
    ensures UrlForm([b], upper) == UrlOctet(b, upper)
  {
    assert [b][..0] == [] && UrlForm([], upper) + UrlOctet(b, upper) == UrlOctet(b, upper);
  }

  /** Fewer than three characters hold no escape. */
  lemma {:induction false} ShortIsPlain(bytes: seq<Octet>)
    requires |UrlForm(bytes, true)| < 3
    ensures UrlForm(bytes, false) == UrlForm(bytes, true)
  {
    if bytes != [] {
      ShortIsPlain(bytes[..|bytes| - 1]);
      OctetForms(bytes[|bytes| - 1]);
    }
  }

  /** Lowers the hex digits of every escape in place. */
  method LowerEscapes(encoded: Text, ghost bytes: seq<Octet>) returns (text: Text)
    requires encoded == UrlForm(bytes, true)
    ensures text == UrlForm(bytes, false)
  {
    text := encoded;
    var index := 0;
    ghost var m := 0;
    assert bytes[..0] == [] && bytes[0..] == bytes && [] + encoded == encoded;
    while index + 2 < |text|
      invariant Lowering(bytes, m, index, text)
      decreases |text| - index
    {
      LoweringStep(bytes, m, index, text);
      if text[index] == '%' {
        text := text[index + 1 := Lower(text[index + 1])][index + 2 := Lower(text[index + 2])];
        index := index + 3;
      } else {
        index := index + 1;
      }
      m := m + 1;
    }
    LoweringDone(bytes, m, index, text);
  }

  /** One turn of the loop finishes one more octet. */
  lemma LoweringStep(bytes: seq<Octet>, m: nat, index: nat, text: Text)
    requires Lowering(bytes, m, index, text) && index + 2 < |text|
    ensures m < |bytes|
    ensures text[index] == '%' ==> Lowering(bytes, m + 1, index + 3,
      text[index + 1 := Lower(text[index + 1])][index + 2 := Lower(text[index + 2])])
    ensures text[index] != '%' ==> Lowering(bytes, m + 1, index + 1, text)
  {
    assert bytes[|bytes|..] == [];
    LoweringNext(bytes, m, index, text);
    var head := UrlOctet(bytes[m], true);
    OctetForms(bytes[m]);
    assert text[index] == head[0];
    if text[index] == '%' {
      assert text[index + 1] == head[1] && text[index + 2] == head[2];
      UpdateTwo(text, index, Lower(head[1]), Lower(head[2]));
    } else {
      assert head == [text[index]];
      Reassemble(text, index);
    }
  }

  lemma UpdateTwo(text: Text, i: nat, a: char, b: char)
    requires i + 2 < |text|
    ensures text[i + 1 := a][i + 2 := b] == text[..i] + [text[i], a, b] + text[i + 3..]
  {
  }

  lemma LoweringDone(bytes: seq<Octet>, m: nat, index: nat, text: Text)
    requires Lowering(bytes, m, index, text) && index + 2 >= |text|
    ensures text == UrlForm(bytes, false)
  {
    ShortIsPlain(bytes[m..]);
    assert bytes == bytes[..m] + bytes[m..];
    UrlFormConcat(bytes[..m], bytes[m..], false);
  }

  // ------------------------------------------------------------------- Base64

  function Sextet(n: nat, url: bool): char
    requires n < 64
  {
    if n < 26 then ('A' as int + n) as char
    else if n < 52 then ('a' as int + n - 26) as char
    else if n < 62 then ('0' as int + n - 52) as char
    else if n == 62 then if url then '-' else '+'
    else if url then '_' else '/'
  }

  /** Sections 4 and 5 of RFC 4648, with or without padding. */
  function Base64(bytes: seq<Octet>, url: bool, pad: bool): Text {
    if bytes == [] then []
    else if |bytes| == 1 then
      [Sextet(bytes[0] / 4, url), Sextet(bytes[0] % 4 * 16, url)] + (if pad then "==" else "")
    else if |bytes| == 2 then
      [Sextet(bytes[0] / 4, url), Sextet(bytes[0] % 4 * 16 + bytes[1] / 16, url), Sextet(bytes[1] % 16 * 4, url)]
      + (if pad then "=" else "")
    else
      [Sextet(bytes[0] / 4, url), Sextet(bytes[0] % 4 * 16 + bytes[1] / 16, url),
       Sextet(bytes[1] % 16 * 4 + bytes[2] / 64, url), Sextet(bytes[2] % 64, url)]
      + Base64(bytes[3..], url, pad)
  }

  function Padding(n: nat): Text {
    if n % 3 == 1 then "==" else if n % 3 == 2 then "=" else ""
  }

  /** The two spellings differ by the padding and nothing else. */
  lemma {:induction false} PaddedIsUnpadded(bytes: seq<Octet>, url: bool)
    ensures Base64(bytes, url, true) == Base64(bytes, url, false) + Padding(|bytes|)
    ensures bytes != [] ==> Base64(bytes, url, false) != []
    decreases |bytes|
  {
    if |bytes| >= 3 {
      PaddedIsUnpadded(bytes[3..], url);
      assert (|bytes| - 3) % 3 == |bytes| % 3;
    }
  }

  // ------------------------------------------------------------ pattern lists

  function FormsOf(key: Text): seq<Text> {
    [key, CanonicalJson.EscapeAll(key), UrlForm(Octets(key), false), UrlForm(Octets(key), true),
     Base64(Octets(key), false, true), Base64(Octets(key), false, false),
     Base64(Octets(key), true, true), Base64(Octets(key), true, false)]
  }

  function UsableForms(key: Text): seq<Text> {
    if key == [] then [] else FormsOf(key)
  }

  function AllForms(keys: seq<Text>): seq<Text> {
    FlatMap(UsableForms, keys)
  }

  /** Sorted by bytes, each once. */
  function InsertOnce(q: Text, sorted: seq<Text>): seq<Text> {
    if sorted == [] then [q]
    else if sorted[0] == q then sorted
    else if CanonicalJson.Less(q, sorted[0]) then [q] + sorted
    else [sorted[0]] + InsertOnce(q, sorted[1..])
  }

  function SortOnce(ps: seq<Text>): seq<Text> {
    if ps == [] then [] else InsertOnce(ps[0], SortOnce(ps[1..]))
  }

  function PatternsFor(keys: seq<Text>): seq<Text> {
    SortOnce(AllForms(keys))
  }

  method RedactionPatterns(keys: seq<Text>) returns (patterns: seq<Text>)
    ensures patterns == PatternsFor(keys)
  {
    var all: seq<Text> := [];
    assert keys[..0] == [];
    for n := 0 to |keys|
      invariant all == AllForms(keys[..n])
    {
      assert keys[..n + 1][..n] == keys[..n];
      var key := keys[n];
      if key != [] {
        var encoded := UrlForm(Octets(key), true);
        var lowered := LowerEscapes(encoded, Octets(key));
        all := all + [key, CanonicalJson.EscapeAll(key), lowered, encoded,
                      Base64(Octets(key), false, true), Base64(Octets(key), false, false),
                      Base64(Octets(key), true, true), Base64(Octets(key), true, false)];
        assert all == AllForms(keys[..n]) + FormsOf(key);
      }
    }
    assert keys[..|keys|] == keys;
    patterns := SortOnce(all);
  }

  lemma {:induction false} InsertOnceHas(q: Text, sorted: seq<Text>, p: Text)
    ensures p in InsertOnce(q, sorted) <==> p == q || p in sorted
  {
    if sorted != [] && sorted[0] != q && !CanonicalJson.Less(q, sorted[0]) {
      InsertOnceHas(q, sorted[1..], p);
    }
  }

  lemma {:induction false} SortOnceHas(ps: seq<Text>, p: Text)
    ensures p in SortOnce(ps) <==> p in ps
  {
    if ps != [] {
      SortOnceHas(ps[1..], p);
      InsertOnceHas(ps[0], SortOnce(ps[1..]), p);
    }
  }

  /** `p` is a form of one of the non-empty keys. */
  ghost predicate IsForm(keys: seq<Text>, p: Text) {
    exists k :: 0 <= k < |keys| && p in UsableForms(keys[k])
  }

  /** The list holds the forms of the non-empty keys and nothing else. */
  lemma PatternsAreForms(keys: seq<Text>, p: Text)
    ensures p in PatternsFor(keys) <==> IsForm(keys, p)
  {
    SortOnceHas(AllForms(keys), p);
    FlatMapHas(UsableForms, keys, p);
  }

  lemma OctetsAreNotEmpty(key: Text)
    requires key != []
    ensures Octets(key) != []
  {
    assert Octets(key) == CharOctets(key[0]) + Octets(key[1..]);
  }

  lemma EscapesAreNotEmpty(key: Text)
    requires key != []
    ensures CanonicalJson.EscapeAll(key) != []
  {
    assert CanonicalJson.Escape(key[0]) != [];
  }

  lemma UrlFormIsNotEmpty(bytes: seq<Octet>, upper: bool)
    requires bytes != []
    ensures UrlForm(bytes, upper) != []
  {
    assert UrlOctet(bytes[|bytes| - 1], upper) != [];
  }

  lemma FormsAreNotEmpty(key: Text, p: Text)
    requires key != [] && p in FormsOf(key)
    ensures p != []
  {
    var bytes := Octets(key);
    OctetsAreNotEmpty(key);
    PaddedIsUnpadded(bytes, false);
    PaddedIsUnpadded(bytes, true);
    UrlFormIsNotEmpty(bytes, true);
    UrlFormIsNotEmpty(bytes, false);
    EscapesAreNotEmpty(key);
  }

  /** No pattern is empty. */
  lemma PatternsAreProper(keys: seq<Text>)
    ensures Proper(PatternsFor(keys))
  {
    var ps := PatternsFor(keys);
    forall k | 0 <= k < |ps| ensures ps[k] != [] {
      PatternsAreForms(keys, ps[k]);
      var n :| 0 <= n < |keys| && ps[k] in UsableForms(keys[n]);
      FormsAreNotEmpty(keys[n], ps[k]);
    }
  }
}
