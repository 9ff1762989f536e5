/** Redaction with the pattern list that the program derives from its keys. */
module PatternTheorems {
  import opened Wrappers
  import opened Secrets
  import opened StreamRedaction
  import opened RedactionTheorems
  import opened PatternDecoding
  import opened Patterns
  import opened Sequences
  import CanonicalJson
  import CanonicalJsonTheorems

  // --------------------------------------------------- the order of the keys

  /** Lists with the same elements redact alike, so the order in which the keys
      come out of their map does not matter. */
  ghost predicate SameElements(ps: seq<Text>, qs: seq<Text>) {
    forall p :: p in ps <==> p in qs
  }

  lemma FirstIgnoresOrder(ps: seq<Text>, qs: seq<Text>, s: Text)
    requires SameElements(ps, qs) && First(ps, s).Some?
    ensures First(ps, s) == First(qs, s)
  {
    var p := First(ps, s).value.position;
    var k: nat :| IsFirst(ps, s, p, k) && First(ps, s).value.length == |ps[k]|;
    assert ps[k] in qs;
    var n: nat :| n < |qs| && qs[n] == ps[k];
    forall j, i: nat | 0 <= j < |qs| && At(qs[j], s, i) ensures p <= i && (i == p ==> |qs[j]| <= |qs[n]|) {
      assert qs[j] in ps;
      var m: nat :| m < |ps| && ps[m] == qs[j];
      assert At(ps[m], s, i);
    }
    FirstIsUnique(qs, s, p, n);
  }

  lemma {:induction false} RedactIgnoresOrder(ps: seq<Text>, qs: seq<Text>, marker: Text, s: Text)
    requires Proper(ps) && Proper(qs) && SameElements(ps, qs)
    ensures Redact(ps, marker, s) == Redact(qs, marker, s)
    decreases |s|
  {
    if First(ps, s).Some? {
      FirstIgnoresOrder(ps, qs, s);
      var f := First(ps, s).value;
      RedactIgnoresOrder(ps, qs, marker, s[f.position + f.length..]);
    } else if First(qs, s).Some? {
      FirstIgnoresOrder(qs, ps, s);
    }
  }

  /** In strictly ascending order, so each once. */
  ghost predicate Ascending(ps: seq<Text>) {
    forall i, j :: 0 <= i < j < |ps| ==> CanonicalJson.Less(ps[i], ps[j])
  }

  lemma {:induction false} InsertOnceAscends(q: Text, ps: seq<Text>)
    requires Ascending(ps)
    ensures Ascending(InsertOnce(q, ps))
  {
    if ps != [] && ps[0] != q {
      if CanonicalJson.Less(q, ps[0]) {
        forall j | 0 <= j < |ps| ensures CanonicalJson.Less(q, ps[j]) {
          if j > 0 {
            CanonicalJsonTheorems.LessIsTransitive(q, ps[0], ps[j]);
          }
        }
      } else {
        CanonicalJsonTheorems.LessIsTotal(q, ps[0]);
        InsertOnceAscends(q, ps[1..]);
        forall p | p in InsertOnce(q, ps[1..]) ensures CanonicalJson.Less(ps[0], p) {
          InsertOnceHas(q, ps[1..], p);
        }
      }
    }
  }

  lemma {:induction false} SortOnceAscends(ps: seq<Text>)
    ensures Ascending(SortOnce(ps))
  {
    if ps != [] {
      SortOnceAscends(ps[1..]);
      InsertOnceAscends(ps[0], SortOnce(ps[1..]));
    }
  }

  /** The list is sorted and holds each pattern once. */
  lemma PatternsAscend(keys: seq<Text>)
    ensures Ascending(PatternsFor(keys))
    ensures forall i, j :: 0 <= i < j < |PatternsFor(keys)| ==> PatternsFor(keys)[i] != PatternsFor(keys)[j]
  {
    var ps := PatternsFor(keys);
    SortOnceAscends(AllForms(keys));
    forall i, j | 0 <= i < j < |ps| ensures ps[i] != ps[j] {
      CanonicalJsonTheorems.LessIsIrreflexive(ps[i]);
    }
  }

  // ------------------------------------------------- the characters in use

  predicate Ascii(s: Text) {
    forall i :: 0 <= i < |s| ==> s[i] as int < 0x80
  }

  lemma {:induction false} UrlFormIsAscii(bytes: seq<Octet>, upper: bool)
    ensures Ascii(UrlForm(bytes, upper))
  {
    if bytes != [] {
      UrlFormIsAscii(bytes[..|bytes| - 1], upper);
      OctetIsAscii(bytes[|bytes| - 1], upper);
    }
  }

  lemma OctetIsAscii(b: Octet, upper: bool)
    ensures Ascii(UrlOctet(b, upper))
  {
  }

  lemma {:induction false} Base64IsAscii(bytes: seq<Octet>, url: bool, pad: bool)
    ensures Ascii(Base64(bytes, url, pad))
    decreases |bytes|
  {
    if |bytes| >= 3 {
      Base64IsAscii(bytes[3..], url, pad);
    }
  }

  lemma {:induction false} EscapesKeepCharacters(s: Text, c: char)
    requires c as int >= 0x80 && c in CanonicalJson.EscapeAll(s)
    ensures c in s
  {
    if c !in CanonicalJson.Escape(s[0]) {
      EscapesKeepCharacters(s[1..], c);
    }
  }

  lemma FormsUse(key: Text, p: Text, c: char)
    requires p in FormsOf(key) && c as int >= 0x80 && c in p
    ensures c in key
  {
    var bytes := Octets(key);
    UrlFormIsAscii(bytes, true);
    UrlFormIsAscii(bytes, false);
    Base64IsAscii(bytes, false, true);
    Base64IsAscii(bytes, false, false);
    Base64IsAscii(bytes, true, true);
    Base64IsAscii(bytes, true, false);
    if p == CanonicalJson.EscapeAll(key) {
      EscapesKeepCharacters(key, c);
    }
  }

  /** Beyond ASCII the patterns use the characters of the keys and no others. */
  lemma PatternsUse(keys: seq<Text>, c: char)
    requires c as int >= 0x80
    ensures Uses(PatternsFor(keys), c) <==> Uses(keys, c)
  {
    var ps := PatternsFor(keys);
    if Uses(ps, c) {
      var k :| 0 <= k < |ps| && c in ps[k];
      PatternsAreForms(keys, ps[k]);
      var n :| 0 <= n < |keys| && ps[k] in UsableForms(keys[n]);
      FormsUse(keys[n], ps[k], c);
    }
    if Uses(keys, c) {
      var n :| 0 <= n < |keys| && c in keys[n];
      KeyIsPattern(keys, n);
    }
  }

  lemma KeyIsPattern(keys: seq<Text>, n: nat)
    requires n < |keys| && keys[n] != []
    ensures keys[n] in PatternsFor(keys)
  {
    assert FormsOf(keys[n])[0] == keys[n];
    assert keys[n] in UsableForms(keys[n]);
    PatternsAreForms(keys, keys[n]);
  }

  // ------------------------------------------------------------- pigeonhole

  function Codes(s: Text): set<int> {
    set i | 0 <= i < |s| :: s[i] as int
  }

  lemma {:induction false} CodesAreFew(s: Text)
    ensures |Codes(s)| <= |s|
  {
    if s == [] {
      assert Codes(s) == {};
    } else {
      var n := |s| - 1;
      CodesAreFew(s[..n]);
      assert Codes(s) == Codes(s[..n]) + {s[n] as int};
    }
  }

  ghost function Range(a: int, n: nat): (r: set<int>)
    ensures |r| == n && forall i :: i in r <==> a <= i < a + n
  {
    if n == 0 then {} else Range(a, n - 1) + {a + n - 1}
  }

  lemma SubsetIsSmaller(a: set<int>, b: set<int>)
    requires a <= b
    ensures |a| <= |b|
  {
    assert b == a + (b - a);
  }

  /** Of `n` codes in a row a text of fewer than `n` characters leaves one out. */
  lemma OneIsLeftOut(s: Text, a: int, n: nat) returns (i: int)
    requires |s| < n
    ensures a <= i < a + n && forall c :: c in s ==> c as int != i
  {
    CodesAreFew(s);
    if Range(a, n) <= Codes(s) {
      SubsetIsSmaller(Range(a, n), Codes(s));
    }
    i :| i in Range(a, n) && i !in Codes(s);
  }

  /** A text shorter than the pool leaves a pool character out. */
  lemma ShortTextLeavesOneFree(s: Text) returns (c: char)
    requires |s| <= POOL_END - POOL_START
    ensures POOL_START <= c as int <= POOL_END && c !in s
  {
    var i := OneIsLeftOut(s, POOL_START, POOL_END - POOL_START + 1);
    c := i as char;
  }

  lemma {:induction false} ConcatUses(keys: seq<Text>, c: char)
    ensures c in Concat(keys) <==> Uses(keys, c)
  {
    if keys != [] {
      ConcatUses(keys[1..], c);
      if Uses(keys[1..], c) {
        var k :| 0 <= k < |keys[1..]| && c in keys[1..][k];
        assert c in keys[k + 1];
      }
      if Uses(keys, c) && c !in keys[0] {
        var k :| 0 <= k < |keys| && c in keys[k];
        assert keys[1..][k - 1] == keys[k];
      }
    }
  }

  // ---------------------------------------------------------- clean redaction

  /** Nothing that spells a non-empty key occurs in `s`. */
  ghost predicate ShowsNoKey(keys: seq<Text>, s: Text) {
    forall k, p, i: nat :: 0 <= k < |keys| && keys[k] != [] && Spells(p, keys[k]) ==> !At(p, s, i)
  }

  lemma NoMatchShowsNoKey(keys: seq<Text>, s: Text)
    requires NoMatch(PatternsFor(keys), s)
    ensures ShowsNoKey(keys, s)
  {
    var ps := PatternsFor(keys);
    forall k, p, i: nat | 0 <= k < |keys| && keys[k] != [] && Spells(p, keys[k]) ensures !At(p, s, i) {
      PatternsSpell(keys, p);
      var n: nat :| n < |ps| && ps[n] == p;
      assert !At(ps[n], s, i);
    }
  }

  /** Of keys that together are shorter than the pool nothing shows, in no
      spelling, in a batch or in a stream, before or after `finish`. */
  lemma KeysNeverShow(keys: seq<Text>, ops: seq<Op>, s: Text)
    requires |Concat(keys)| <= POOL_END - POOL_START
    ensures Proper(PatternsFor(keys))
    ensures var ps := PatternsFor(keys);
      var state := Run(ps, RedactionMarker(ps), ops);
      && ShowsNoKey(keys, state.output) && ShowsNoKey(keys, state.output + state.pending)
      && ShowsNoKey(keys, Redact(ps, RedactionMarker(ps), s))
  {
    var ps := PatternsFor(keys);
    PatternsAreProper(keys);
    var c := ShortTextLeavesOneFree(Concat(keys));
    ConcatUses(keys, c);
    PatternsUse(keys, c);
    assert HasFreeChar(ps);
    MarkerIsClear(ps);
    RedactionIsClean(ps, ops, s);
    var state := Run(ps, RedactionMarker(ps), ops);
    NoMatchShowsNoKey(keys, state.output);
    NoMatchShowsNoKey(keys, state.output + state.pending);
    NoMatchShowsNoKey(keys, Redact(ps, RedactionMarker(ps), s));
  }

  /** Keys that between them use the whole pool and match the marker text. */
  const EXHAUSTED: seq<Text> := ["["] + seq(POOL_END - POOL_START + 1, i requires 0 <= i <= POOL_END - POOL_START => [(POOL_START + i) as char])

  /** With them, redacting any pattern shows the key that is the fallback
      character. */
  lemma ExhaustedPoolLeaks(k: nat)
    requires k < |PatternsFor(EXHAUSTED)|
    ensures Proper(PatternsFor(EXHAUSTED))
    ensures var ps := PatternsFor(EXHAUSTED);
      && [FALLBACK] in EXHAUSTED
      && At([FALLBACK], Redact(ps, RedactionMarker(ps), ps[k]), 0)
      && !AlwaysClean(ps, RedactionMarker(ps))
  {
    var ps := PatternsFor(EXHAUSTED);
    PatternsAreProper(EXHAUSTED);
    ExhaustedMarker();
    var n := 1 + FALLBACK as int - POOL_START;
    assert EXHAUSTED[n] == [FALLBACK];
    KeyIsPattern(EXHAUSTED, n);
    var j: nat :| j < |ps| && ps[j] == [FALLBACK];
    MarkerHoldsPatternLeaks(ps, RedactionMarker(ps), j, 0, k);
  }

  lemma ExhaustedMarker()
    ensures RedactionMarker(PatternsFor(EXHAUSTED)) == [FALLBACK, FALLBACK, FALLBACK]
  {
    var ps := PatternsFor(EXHAUSTED);
    assert EXHAUSTED[0] == "[";
    KeyIsPattern(EXHAUSTED, 0);
    var j: nat :| j < |ps| && ps[j] == "[";
    assert At("[", TEXT, 0);
    assert Find(ps[j], TEXT).Some?;
    forall c: char | POOL_START <= c as int <= POOL_END ensures Uses(ps, c) {
      assert c in EXHAUSTED[1 + c as int - POOL_START];
      PatternsUse(EXHAUSTED, c);
    }
  }

  // ------------------------------------------------------ stream against batch

  /** A key whose UTF-8 length is not a multiple of three has a padded and an
      unpadded Base64 form, and between the two a stream differs from the batch. */
  lemma PaddedKeyDiffers(keys: seq<Text>, n: nat, marker: Text) returns (chunks: seq<Text>)
    requires n < |keys| && |Octets(keys[n])| % 3 != 0 && marker != []
    ensures Proper(PatternsFor(keys)) && !SuffixOnly(PatternsFor(keys))
    ensures Stream(PatternsFor(keys), marker, [], chunks) != Redact(PatternsFor(keys), marker, Concat(chunks))
    ensures chunks == [Base64(Octets(keys[n]), false, false), Padding(|Octets(keys[n])|)]
  {
    var ps, bytes := PatternsFor(keys), Octets(keys[n]);
    PatternsAreProper(keys);
    PaddedIsUnpadded(bytes, false);
    var plain, pad := Base64(bytes, false, false), Padding(|bytes|);
    FormIsPattern(keys, n, 4);
    FormIsPattern(keys, n, 5);
    var j: nat :| j < |ps| && ps[j] == plain;
    var k: nat :| k < |ps| && ps[k] == plain + pad;
    PaddedPairDiffers(ps, marker, j, k, pad);
    StreamEqualsBatchIff(ps, marker);
    chunks := [plain, pad];
  }

  lemma FormIsPattern(keys: seq<Text>, n: nat, m: nat)
    requires n < |keys| && keys[n] != [] && m < 8
    ensures FormsOf(keys[n])[m] in PatternsFor(keys)
  {
    assert FormsOf(keys[n])[m] in UsableForms(keys[n]);
    PatternsAreForms(keys, FormsOf(keys[n])[m]);
  }
}
