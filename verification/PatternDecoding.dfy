/** What the spellings of a credential mean: each is the one text that a strict
    decoder reads back as the credential. */
module PatternDecoding {
  import opened Wrappers
  import opened Sequences
  import opened Secrets
  import opened Patterns
  import CanonicalJson

  function Cons<T>(x: T, rest: Option<seq<T>>): Option<seq<T>> {
    if rest.Some? then Some([x] + rest.value) else None
  }

  lemma ConsIs<T>(x: T, rest: Option<seq<T>>, all: seq<T>)
    ensures Cons(x, rest) == Some(all) <==> all != [] && all[0] == x && rest == Some(all[1..])
  {
    if all != [] && all[0] == x && rest == Some(all[1..]) {
      assert all == [x] + all[1..];
    }
  }

  // -------------------------------------------------------------------- UTF-8

  predicate Trails(b: Octet) {
    0x80 <= b < 0xC0
  }

  predicate IsScalar(n: int) {
    0 <= n < 0xD800 || 0xE000 <= n < 0x110000
  }

  function Two(a: int, b: int): int {
    (a - 0xC0) * 64 + (b - 0x80)
  }

  function Three(a: int, b: int, c: int): int {
    (a - 0xE0) * 4096 + (b - 0x80) * 64 + (c - 0x80)
  }

  function Four(a: int, b: int, c: int, d: int): int {
    (a - 0xF0) * 262144 + (b - 0x80) * 4096 + (c - 0x80) * 64 + (d - 0x80)
  }

  /** The scalar value at the front, in its shortest form, and how many octets it
      takes: section 4 of RFC 3629. */
  function FirstScalar(o: seq<Octet>): Option<(int, nat)>
    requires o != []
    ensures FirstScalar(o).Some? ==> IsScalar(FirstScalar(o).value.0) && 0 < FirstScalar(o).value.1 <= |o|
  {
    if o[0] < 0x80 then Some((o[0], 1))
    else if |o| >= 2 && 0xC2 <= o[0] <= 0xDF && Trails(o[1]) then Some((Two(o[0], o[1]), 2))
    else if |o| >= 3 && 0xE0 <= o[0] <= 0xEF && Trails(o[1]) && Trails(o[2]) then
      var n := Three(o[0], o[1], o[2]);
      if n >= 0x800 && IsScalar(n) then Some((n, 3)) else None
    else if |o| >= 4 && 0xF0 <= o[0] <= 0xF4 && Trails(o[1]) && Trails(o[2]) && Trails(o[3]) then
      var n := Four(o[0], o[1], o[2], o[3]);
      if n >= 0x10000 && IsScalar(n) then Some((n, 4)) else None
    else None
  }

  function DecodeUtf8(o: seq<Octet>): Option<Text>
    decreases |o|
  {
    if o == [] then Some([])
    else
      var first := FirstScalar(o);
      if first.None? then None else Cons(first.value.0 as char, DecodeUtf8(o[first.value.1..]))
  }

  lemma TwoIs(n: int)
    requires 0x80 <= n < 0x800
    ensures Two(0xC0 + n / 64, 0x80 + n % 64) == n && 0xC2 <= 0xC0 + n / 64 <= 0xDF
  {
  }

  lemma ThreeIs(n: int)
    requires 0x800 <= n < 0x10000
    ensures Three(0xE0 + n / 4096, 0x80 + n / 64 % 64, 0x80 + n % 64) == n && 0xE0 <= 0xE0 + n / 4096 <= 0xEF
  {
  }

  lemma FourIs(n: int)
    requires 0x10000 <= n < 0x110000
    ensures Four(0xF0 + n / 262144, 0x80 + n / 4096 % 64, 0x80 + n / 64 % 64, 0x80 + n % 64) == n
    ensures 0xF0 <= 0xF0 + n / 262144 <= 0xF4
  {
    var a, b := n / 64, n / 4096;
    assert n == a * 64 + n % 64;
    assert a == b * 64 + a % 64;
    assert b == n / 262144 * 64 + b % 64;
  }

  lemma ScalarIs(c: char, rest: seq<Octet>)
    ensures FirstScalar(CharOctets(c) + rest) == Some((c as int, |CharOctets(c)|))
  {
    var n := c as int;
    var o := CharOctets(c);
    assert forall i :: 0 <= i < |o| ==> (o + rest)[i] == o[i];
    if 0x80 <= n < 0x800 {
      TwoIs(n);
    } else if 0x800 <= n < 0x10000 {
      ThreeIs(n);
    } else if 0x10000 <= n {
      FourIs(n);
    }
  }

  lemma TwoSplits(a: int, b: int)
    requires 0xC2 <= a <= 0xDF && 0x80 <= b < 0xC0
    ensures var n := Two(a, b);
      0x80 <= n < 0x800 && 0xC0 + n / 64 == a && 0x80 + n % 64 == b
  {
  }

  lemma ThreeSplits(a: int, b: int, c: int)
    requires 0xE0 <= a <= 0xEF && 0x80 <= b < 0xC0 && 0x80 <= c < 0xC0
    ensures var n := Three(a, b, c);
      n < 0x10000 && 0xE0 + n / 4096 == a && 0x80 + n / 64 % 64 == b && 0x80 + n % 64 == c
  {
    assert Three(a, b, c) / 64 == (a - 0xE0) * 64 + (b - 0x80);
  }

  lemma FourSplits(a: int, b: int, c: int, d: int)
    requires 0xF0 <= a <= 0xF4 && 0x80 <= b < 0xC0 && 0x80 <= c < 0xC0 && 0x80 <= d < 0xC0
    ensures var n := Four(a, b, c, d);
      0xF0 + n / 262144 == a && 0x80 + n / 4096 % 64 == b && 0x80 + n / 64 % 64 == c && 0x80 + n % 64 == d
  {
    var n := Four(a, b, c, d);
    assert n / 64 == (a - 0xF0) * 4096 + (b - 0x80) * 64 + (c - 0x80);
    assert n / 4096 == (a - 0xF0) * 64 + (b - 0x80);
  }

  lemma ScalarIsOctets(o: seq<Octet>)
    requires o != [] && FirstScalar(o).Some?
    ensures var (c, n) := FirstScalar(o).value;
      o[..n] == CharOctets(c as char)
  {
    var (c, n) := FirstScalar(o).value;
    if n == 2 {
      TwoSplits(o[0], o[1]);
    } else if n == 3 {
      ThreeSplits(o[0], o[1], o[2]);
    } else if n == 4 {
      FourSplits(o[0], o[1], o[2], o[3]);
    }
  }

  lemma {:induction false} DecodeUtf8Iff(o: seq<Octet>, s: Text)
    ensures DecodeUtf8(o) == Some(s) <==> o == Octets(s)
    decreases |o| + |s|
  {
    if s != [] && o == Octets(s) {
      var c, rest := s[0], Octets(s[1..]);
      ScalarIs(c, rest);
      assert o[|CharOctets(c)|..] == rest;
      DecodeUtf8Iff(rest, s[1..]);
      ConsIs(c, DecodeUtf8(rest), s);
    }
    if o != [] && DecodeUtf8(o) == Some(s) {
      var (c, n) := FirstScalar(o).value;
      ConsIs(c as char, DecodeUtf8(o[n..]), s);
      ScalarIsOctets(o);
      DecodeUtf8Iff(o[n..], s[1..]);
      assert o == o[..n] + o[n..];
    }
  }

  // --------------------------------------------------------------------- JSON

  function HexValue(c: char, upper: bool): nat {
    if '0' <= c <= '9' then c as int - '0' as int
    else if upper && 'A' <= c <= 'F' then c as int - 'A' as int + 10
    else if !upper && 'a' <= c <= 'f' then c as int - 'a' as int + 10
    else 16
  }

  lemma HexValueIs(n: nat, upper: bool)
    requires n < 16
    ensures HexValue(HexDigit(n, upper), upper) == n
  {
  }

  lemma HexDigitIs(c: char, upper: bool)
    requires HexValue(c, upper) < 16
    ensures HexDigit(HexValue(c, upper), upper) == c
  {
  }

  /** The two-character escapes that are used. */
  function Named(c: char): Option<char> {
    if c == '"' then Some('"')
    else if c == '\\' then Some('\\')
    else if c == 'n' then Some('\n')
    else if c == 'r' then Some('\r')
    else if c == 't' then Some('\t')
    else if c == 'b' then Some(8 as char)
    else if c == 'f' then Some(12 as char)
    else None
  }

  /** What must be escaped and has no name. */
  predicate Nameless(n: int) {
    0 <= n < 32 && n != 8 && n != 9 && n != 10 && n != 12 && n != 13
  }

  /** The character that a JSON string shows first, and how many characters spell
      it; nothing is escaped without need. */
  function FirstEscaped(t: Text): Option<(char, nat)>
    requires t != []
    ensures FirstEscaped(t).Some? ==> 0 < FirstEscaped(t).value.1 <= |t|
  {
    if t[0] == '\\' then
      if |t| < 2 then None
      else if Named(t[1]).Some? then Some((Named(t[1]).value, 2))
      else if |t| < 6 || t[1..4] != "u00" then None
      else
        var high, low := HexValue(t[4], false), HexValue(t[5], false);
        if high < 16 && low < 16 && Nameless(16 * high + low) then Some(((16 * high + low) as char, 6)) else None
    else if t[0] == '"' || (t[0] as int) < 32 then None
    else Some((t[0], 1))
  }

  function Unescape(t: Text): Option<Text>
    decreases |t|
  {
    if t == [] then Some([])
    else
      var first := FirstEscaped(t);
      if first.None? then None else Cons(first.value.0, Unescape(t[first.value.1..]))
  }

  lemma EscapedIs(c: char, rest: Text)
    ensures FirstEscaped(CanonicalJson.Escape(c) + rest) == Some((c, |CanonicalJson.Escape(c)|))
  {
    var e := CanonicalJson.Escape(c);
    assert forall i :: 0 <= i < |e| ==> (e + rest)[i] == e[i];
    if Nameless(c as int) {
      HexValueIs(c as int / 16, false);
      HexValueIs(c as int % 16, false);
      assert (e + rest)[1..4] == "u00";
    }
  }

  lemma EscapedIsEscape(t: Text)
    requires t != [] && FirstEscaped(t).Some?
    ensures var (c, n) := FirstEscaped(t).value;
      n <= |t| && t[..n] == CanonicalJson.Escape(c)
  {
    var (c, n) := FirstEscaped(t).value;
    if n == 6 {
      HexDigitIs(t[4], false);
      HexDigitIs(t[5], false);
      assert t[1..4] == "u00";
      assert t[1] == t[1..4][0] && t[2] == t[1..4][1] && t[3] == t[1..4][2];
    }
  }

  lemma UnescapeStep(c: char, e: Text, rest: Text)
    requires e != [] && FirstEscaped(e + rest) == Some((c, |e|))
    ensures Unescape(e + rest) == Cons(c, Unescape(rest))
  {
    assert (e + rest)[|e|..] == rest;
  }

  lemma {:induction false} UnescapeEscaped(s: Text)
    ensures Unescape(CanonicalJson.EscapeAll(s)) == Some(s)
  {
    if s != [] {
      UnescapeEscaped(s[1..]);
      EscapedIs(s[0], CanonicalJson.EscapeAll(s[1..]));
      UnescapeStep(s[0], CanonicalJson.Escape(s[0]), CanonicalJson.EscapeAll(s[1..]));
      assert [s[0]] + s[1..] == s;
    }
  }

  lemma EscapeStep(c: char, t: Text, n: nat, s: Text)
    requires 0 < n <= |t| && t[..n] == CanonicalJson.Escape(c) && t[n..] == CanonicalJson.EscapeAll(s)
    ensures t == CanonicalJson.EscapeAll([c] + s)
  {
    assert t == t[..n] + t[n..];
    assert ([c] + s)[1..] == s;
  }

  lemma {:induction false} EscapedUnescaped(t: Text)
    requires Unescape(t).Some?
    ensures t == CanonicalJson.EscapeAll(Unescape(t).value)
    decreases |t|
  {
    if t != [] {
      var (c, n) := FirstEscaped(t).value;
      EscapedUnescaped(t[n..]);
      EscapedIsEscape(t);
      EscapeStep(c, t, n, Unescape(t[n..]).value);
    }
  }

  /** The JSON form is the one text that reads back as the credential. */
  lemma UnescapeIff(t: Text, s: Text)
    ensures Unescape(t) == Some(s) <==> t == CanonicalJson.EscapeAll(s)
  {
    UnescapeEscaped(s);
    if Unescape(t) == Some(s) {
      EscapedUnescaped(t);
    }
  }

  // ---------------------------------------------------------------------- URL

  const UPPER: Text := "ABCDEFGHIJKLMNOPQRSTUVWXYZ"
  const LOWER: Text := "abcdefghijklmnopqrstuvwxyz"
  const DIGITS: Text := "0123456789"

  lemma UpperIs(n: nat)
    ensures |UPPER| == 26 && (n < 26 ==> UPPER[n] as int == 'A' as int + n)
  {
  }

  lemma LowerIs(n: nat)
    ensures |LOWER| == 26 && (n < 26 ==> LOWER[n] as int == 'a' as int + n)
  {
  }

  lemma DigitIs(n: nat)
    ensures |DIGITS| == 10 && (n < 10 ==> DIGITS[n] as int == '0' as int + n)
  {
  }

  /** What `application/x-www-form-urlencoded` leaves as it is. */
  function Unescaped(): Text {
    UPPER + LOWER + DIGITS + "*-._"
  }

  predicate Unreserved(c: char) {
    Find([c], Unescaped()).Some?
  }

  lemma CharAt(c: char, s: Text, n: nat)
    requires n < |s| && s[n] as int == c as int
    ensures Find([c], s).Some?
  {
    assert s[n] == c;
    assert At([c], s, n);
  }

  /** The code of the `n`th of them. */
  function CodeAt(n: nat): int {
    if n < 26 then 65 + n
    else if n < 52 then 71 + n
    else if n < 62 then n - 4
    else if n == 62 then 0x2A else if n == 63 then 0x2D else if n == 64 then 0x2E else 0x5F
  }

  function IndexOfCode(b: int): int {
    if b >= 97 then b - 71
    else if b == 0x5F then 65
    else if b >= 65 then b - 65
    else if b >= 48 then b + 4
    else if b == 0x2A then 62 else if b == 0x2D then 63 else 64
  }

  lemma UnescapedIs(n: nat)
    requires n < 66
    ensures |Unescaped()| == 66 && Unescaped()[n] as int == CodeAt(n)
  {
    UpperIs(n);
    if n >= 26 {
      LowerIs(n - 26);
    }
    if n >= 52 {
      DigitIs(n - 52);
    }
  }

  lemma CodesArePlain(n: nat)
    requires n < 66
    ensures Plain(CodeAt(n))
  {
  }

  lemma PlainHasCode(b: Octet)
    requires Plain(b)
    ensures 0 <= IndexOfCode(b) < 66 && CodeAt(IndexOfCode(b)) == b
  {
  }

  lemma UnreservedIs(c: char)
    ensures Unreserved(c) <==> c as int < 256 && Plain(c as int)
  {
    UnescapedIs(0);
    var found := Find([c], Unescaped());
    if found.Some? {
      UnescapedIs(found.value);
      assert [c][0] == c && Unescaped()[found.value] == c;
      CodesArePlain(found.value);
    }
    if c as int < 256 && Plain(c as int) {
      PlainHasCode(c as int);
      var n: nat := IndexOfCode(c as int);
      UnescapedIs(n);
      CharAt(c, Unescaped(), n);
    }
  }

  /** The octet that the text shows first, and how many characters spell it; what
      needs no escape has none, and a space is a plus sign. */
  function FirstUrl(t: Text, upper: bool): Option<(Octet, nat)>
    requires t != []
    ensures FirstUrl(t, upper).Some? ==> 0 < FirstUrl(t, upper).value.1 <= |t|
  {
    if t[0] == '%' then
      if |t| < 3 then None
      else
        var high, low := HexValue(t[1], upper), HexValue(t[2], upper);
        if high < 16 && low < 16 && !Unreserved((16 * high + low) as char) && 16 * high + low != 0x20
        then Some((16 * high + low, 3)) else None
    else if t[0] == '+' then Some((0x20, 1))
    else if Unreserved(t[0]) && t[0] as int < 256 then Some((t[0] as int, 1))
    else None
  }

  function DecodeUrl(t: Text, upper: bool): Option<seq<Octet>>
    decreases |t|
  {
    if t == [] then Some([])
    else
      var first := FirstUrl(t, upper);
      if first.None? then None else Cons(first.value.0, DecodeUrl(t[first.value.1..], upper))
  }

  lemma UrlIs(b: Octet, rest: Text, upper: bool)
    ensures FirstUrl(UrlOctet(b, upper) + rest, upper) == Some((b, |UrlOctet(b, upper)|))
  {
    if Plain(b) {
      UnreservedIs(b as char);
    } else if b != 0x20 {
      EscapeIs(b, HexDigit(b / 16, upper), HexDigit(b % 16, upper), rest, upper);
    }
  }

  lemma EscapeIs(b: Octet, high: char, low: char, rest: Text, upper: bool)
    requires !Plain(b) && b != 0x20 && high == HexDigit(b / 16, upper) && low == HexDigit(b % 16, upper)
    ensures FirstUrl(['%', high, low] + rest, upper) == Some((b, 3))
  {
    UnreservedIs(b as char);
    HexValueIs(b / 16, upper);
    HexValueIs(b % 16, upper);
  }

  lemma HexPairIs(high: nat, low: nat, upper: bool)
    requires high < 16 && low < 16
    ensures (16 * high + low) / 16 == high && (16 * high + low) % 16 == low
  {
  }

  lemma UrlIsOctet(t: Text, upper: bool)
    requires t != [] && FirstUrl(t, upper).Some?
    ensures var (b, n) := FirstUrl(t, upper).value;
      t[..n] == UrlOctet(b, upper)
  {
    if t[0] == '%' {
      EscapeIsOctet(t[1], t[2], upper);
      FirstThree(t);
    } else {
      SignIsOctet(t[0], upper);
      FirstOne(t);
    }
  }

  lemma FirstThree(t: Text)
    requires |t| >= 3
    ensures t[..3] == [t[0], t[1], t[2]]
  {
  }

  lemma FirstOne(t: Text)
    requires t != []
    ensures t[..1] == [t[0]]
  {
  }

  lemma SignIsOctet(c: char, upper: bool)
    ensures c == '+' ==> [c] == UrlOctet(0x20, upper)
    ensures Unreserved(c) && c as int < 256 ==> [c] == UrlOctet(c as int, upper)
  {
    UnreservedIs(c);
  }

  lemma EscapeIsOctet(c: char, d: char, upper: bool)
    requires HexValue(c, upper) < 16 && HexValue(d, upper) < 16
    ensures var b := 16 * HexValue(c, upper) + HexValue(d, upper);
      b != 0x20 && !Unreserved(b as char) ==> ['%', c, d] == UrlOctet(b, upper)
  {
    var high, low := HexValue(c, upper), HexValue(d, upper);
    UnreservedIs((16 * high + low) as char);
    HexDigitIs(c, upper);
    HexDigitIs(d, upper);
    HexPairIs(high, low, upper);
  }

  lemma DecodeUrlStep(b: Octet, e: Text, rest: Text, upper: bool)
    requires e != [] && FirstUrl(e + rest, upper) == Some((b, |e|))
    ensures DecodeUrl(e + rest, upper) == Cons(b, DecodeUrl(rest, upper))
  {
    assert (e + rest)[|e|..] == rest;
  }

  lemma {:induction false} DecodeUrlForm(bytes: seq<Octet>, upper: bool)
    ensures DecodeUrl(UrlForm(bytes, upper), upper) == Some(bytes)
  {
    if bytes != [] {
      DecodeUrlForm(bytes[1..], upper);
      UrlFormFront(bytes, upper);
      UrlIs(bytes[0], UrlForm(bytes[1..], upper), upper);
      DecodeUrlStep(bytes[0], UrlOctet(bytes[0], upper), UrlForm(bytes[1..], upper), upper);
      assert [bytes[0]] + bytes[1..] == bytes;
    }
  }

  lemma UrlFormStep(b: Octet, t: Text, n: nat, bytes: seq<Octet>, upper: bool)
    requires 0 < n <= |t| && t[..n] == UrlOctet(b, upper) && t[n..] == UrlForm(bytes, upper)
    ensures t == UrlForm([b] + bytes, upper)
  {
    assert t == t[..n] + t[n..];
    assert ([b] + bytes)[1..] == bytes;
    UrlFormFront([b] + bytes, upper);
  }

  lemma {:induction false} UrlFormDecoded(t: Text, upper: bool)
    requires DecodeUrl(t, upper).Some?
    ensures t == UrlForm(DecodeUrl(t, upper).value, upper)
    decreases |t|
  {
    if t != [] {
      var (b, n) := FirstUrl(t, upper).value;
      UrlFormDecoded(t[n..], upper);
      UrlIsOctet(t, upper);
      UrlFormStep(b, t, n, DecodeUrl(t[n..], upper).value, upper);
    }
  }

  /** The URL form is the one text that reads back as the octets. */
  lemma DecodeUrlIff(t: Text, bytes: seq<Octet>, upper: bool)
    ensures DecodeUrl(t, upper) == Some(bytes) <==> t == UrlForm(bytes, upper)
  {
    DecodeUrlForm(bytes, upper);
    if DecodeUrl(t, upper) == Some(bytes) {
      UrlFormDecoded(t, upper);
    }
  }

  lemma UrlFormFront(bytes: seq<Octet>, upper: bool)
    requires bytes != []
    ensures UrlForm(bytes, upper) == UrlOctet(bytes[0], upper) + UrlForm(bytes[1..], upper)
  {
    assert bytes == [bytes[0]] + bytes[1..];
    UrlFormConcat([bytes[0]], bytes[1..], upper);
    UrlFormOne(bytes[0], upper);
  }

  // ------------------------------------------------------------------- Base64

  type Sixbit = n: nat | n < 64

  /** Tables 1 and 2 of RFC 4648. */
  function Alphabet(url: bool): Text {
    UPPER + LOWER + DIGITS + (if url then "-_" else "+/")
  }

  lemma SextetIs(n: nat, url: bool)
    requires n < 64
    ensures |Alphabet(url)| == 64 && Alphabet(url)[n] == Sextet(n, url)
  {
    UpperIs(n);
    if n >= 26 {
      LowerIs(n - 26);
    }
    if n >= 52 {
      DigitIs(n - 52);
    }
  }

  lemma SextetsDiffer(m: nat, n: nat, url: bool)
    requires m < 64 && n < 64 && Sextet(m, url) == Sextet(n, url)
    ensures m == n
  {
  }

  lemma FoundChar(c: char, s: Text)
    ensures Find([c], s).Some? ==> Find([c], s).value < |s| && s[Find([c], s).value] == c
  {
    assert [c][0] == c;
  }

  /** The value of a character. */
  function Value(c: char, url: bool): Option<Sixbit> {
    SextetIs(0, url);
    FoundChar(c, Alphabet(url));
    Find([c], Alphabet(url))
  }

  lemma ValueIff(c: char, n: Sixbit, url: bool)
    ensures Value(c, url) == Some(n) <==> c == Sextet(n, url)
  {
    SextetIs(n, url);
    FoundChar(c, Alphabet(url));
    var found := Find([c], Alphabet(url));
    if c == Sextet(n, url) {
      CharAt(c, Alphabet(url), n);
      SextetIs(found.value, url);
      SextetsDiffer(found.value, n, url);
    }
  }

  /** The values of all characters. */
  function Values(t: Text, url: bool): Option<seq<Sixbit>> {
    if t == [] then Some([])
    else if Value(t[0], url).None? then None
    else Cons(Value(t[0], url).value, Values(t[1..], url))
  }

  function Signs(values: seq<Sixbit>, url: bool): Text {
    if values == [] then [] else [Sextet(values[0], url)] + Signs(values[1..], url)
  }

  lemma {:induction false} ValuesIff(t: Text, values: seq<Sixbit>, url: bool)
    ensures Values(t, url) == Some(values) <==> t == Signs(values, url)
  {
    if t != [] && values != [] {
      ValueIff(t[0], values[0], url);
      ValuesIff(t[1..], values[1..], url);
      ConsIs(values[0], Values(t[1..], url), values);
      if t[0] == Sextet(values[0], url) && t[1..] == Signs(values[1..], url) {
        assert t == [t[0]] + t[1..];
      }
    }
  }

  function FirstOctet(a: Sixbit, b: Sixbit): Octet {
    a * 4 + b / 16
  }

  function SecondOctet(b: Sixbit, c: Sixbit): Octet {
    b % 16 * 16 + c / 4
  }

  function ThirdOctet(c: Sixbit, d: Sixbit): Octet {
    c % 4 * 64 + d
  }

  /** The octets in groups of six bits; the bits beyond the last octet must be zero. */
  function Regroup(v: seq<Sixbit>): Option<seq<Octet>> {
    if v == [] then Some([])
    else if |v| == 1 then None
    else if |v| == 2 then if v[1] % 16 == 0 then Some([FirstOctet(v[0], v[1])]) else None
    else if |v| == 3 then
      if v[2] % 4 == 0 then Some([FirstOctet(v[0], v[1]), SecondOctet(v[1], v[2])]) else None
    else
      Cons(FirstOctet(v[0], v[1]), Cons(SecondOctet(v[1], v[2]), Cons(ThirdOctet(v[2], v[3]), Regroup(v[4..]))))
  }

  function Opening(x: Octet): Sixbit {
    x / 4
  }

  function Inner(x: Octet, y: Octet): Sixbit {
    x % 4 * 16 + y / 16
  }

  function Outer(y: Octet, z: Octet): Sixbit {
    y % 16 * 4 + z / 64
  }

  function Closing(z: Octet): Sixbit {
    z % 64
  }

  /** The groups of six bits of the octets. */
  function Groups(bytes: seq<Octet>): seq<Sixbit> {
    if bytes == [] then []
    else if |bytes| == 1 then [Opening(bytes[0]), Inner(bytes[0], 0)]
    else if |bytes| == 2 then [Opening(bytes[0]), Inner(bytes[0], bytes[1]), Outer(bytes[1], 0)]
    else Group(bytes[0], bytes[1], bytes[2]) + Groups(bytes[3..])
  }

  function Group(x: Octet, y: Octet, z: Octet): (g: seq<Sixbit>)
    ensures |g| == 4
  {
    [Opening(x), Inner(x, y), Outer(y, z), Closing(z)]
  }

  /** Three octets and the four values that carry them. */
  lemma OctetsOfGroup(x: Octet, y: Octet, z: Octet)
    ensures FirstOctet(Opening(x), Inner(x, y)) == x
    ensures SecondOctet(Inner(x, y), Outer(y, z)) == y
    ensures ThirdOctet(Outer(y, z), Closing(z)) == z
    ensures Inner(x, 0) % 16 == 0 && Outer(y, 0) % 4 == 0
  {
  }

  lemma GroupOfOctets(a: Sixbit, b: Sixbit, c: Sixbit, d: Sixbit)
    ensures Opening(FirstOctet(a, b)) == a
    ensures Inner(FirstOctet(a, b), SecondOctet(b, c)) == b
    ensures Outer(SecondOctet(b, c), ThirdOctet(c, d)) == c
    ensures Closing(ThirdOctet(c, d)) == d
    ensures b % 16 == 0 ==> Inner(FirstOctet(a, b), 0) == b
    ensures c % 4 == 0 ==> Outer(SecondOctet(b, c), 0) == c
  {
  }

  lemma ConsThree<T>(x: T, y: T, z: T, rest: Option<seq<T>>, all: seq<T>)
    ensures Cons(x, Cons(y, Cons(z, rest))) == Some(all) <==>
      |all| >= 3 && all[0] == x && all[1] == y && all[2] == z && rest == Some(all[3..])
  {
    ConsIs(x, Cons(y, Cons(z, rest)), all);
    if all != [] {
      ConsIs(y, Cons(z, rest), all[1..]);
      if |all| > 1 {
        assert all[1..][1..] == all[2..];
        ConsIs(z, rest, all[2..]);
        if |all| > 2 {
          assert all[2..][1..] == all[3..];
        }
      }
    }
  }

  lemma {:induction false} RegroupGroups(bytes: seq<Octet>)
    ensures Regroup(Groups(bytes)) == Some(bytes)
    decreases |bytes|
  {
    if |bytes| >= 3 {
      RegroupGroups(bytes[3..]);
      RegroupMore(bytes[0], bytes[1], bytes[2], Groups(bytes[3..]));
      ConsThree(bytes[0], bytes[1], bytes[2], Some(bytes[3..]), bytes);
    } else if |bytes| == 2 {
      RegroupTwo(bytes, bytes[0], bytes[1]);
    } else if |bytes| == 1 {
      RegroupOne(bytes, bytes[0]);
    }
  }

  lemma RegroupOne(bytes: seq<Octet>, x: Octet)
    requires bytes == [x]
    ensures Regroup(Groups(bytes)) == Some(bytes)
  {
    OctetsOfGroup(x, 0, 0);
    RegroupPair(Opening(x), Inner(x, 0));
  }

  lemma RegroupTwo(bytes: seq<Octet>, x: Octet, y: Octet)
    requires bytes == [x, y]
    ensures Regroup(Groups(bytes)) == Some(bytes)
  {
    OctetsOfGroup(x, y, 0);
    RegroupTriple(Opening(x), Inner(x, y), Outer(y, 0));
  }

  lemma RegroupPair(a: Sixbit, b: Sixbit)
    requires b % 16 == 0
    ensures Regroup([a, b]) == Some([FirstOctet(a, b)])
  {
  }

  lemma RegroupTriple(a: Sixbit, b: Sixbit, c: Sixbit)
    requires c % 4 == 0
    ensures Regroup([a, b, c]) == Some([FirstOctet(a, b), SecondOctet(b, c)])
  {
  }

  lemma RegroupMore(x: Octet, y: Octet, z: Octet, rest: seq<Sixbit>)
    ensures Regroup(Group(x, y, z) + rest) == Cons(x, Cons(y, Cons(z, Regroup(rest))))
  {
    OctetsOfGroup(x, y, z);
    assert (Group(x, y, z) + rest)[4..] == rest;
  }

  lemma {:induction false} GroupsRegrouped(v: seq<Sixbit>, bytes: seq<Octet>)
    requires Regroup(v) == Some(bytes)
    ensures v == Groups(bytes)
    decreases |v|
  {
    if |v| >= 4 {
      GroupOfOctets(v[0], v[1], v[2], v[3]);
      ConsThree(FirstOctet(v[0], v[1]), SecondOctet(v[1], v[2]), ThirdOctet(v[2], v[3]), Regroup(v[4..]), bytes);
      GroupsRegrouped(v[4..], bytes[3..]);
      assert v == [v[0], v[1], v[2], v[3]] + v[4..];
    } else if |v| == 3 {
      GroupOfOctets(v[0], v[1], v[2], 0);
      assert v == [v[0], v[1], v[2]];
    } else if |v| == 2 {
      GroupOfOctets(v[0], v[1], 0, 0);
      assert v == [v[0], v[1]];
    }
  }

  /** Without padding, the form is the signs of the groups of six bits. */
  lemma {:induction false} Base64IsSigns(bytes: seq<Octet>, url: bool)
    ensures Base64(bytes, url, false) == Signs(Groups(bytes), url)
    decreases |bytes|
  {
    if |bytes| >= 3 {
      var (x, y, z) := (bytes[0], bytes[1], bytes[2]);
      Base64IsSigns(bytes[3..], url);
      SignsOfGroup(Opening(x), Inner(x, y), Outer(y, z), Closing(z), Groups(bytes[3..]), url);
    } else if |bytes| == 2 {
      SignsOfThree(Opening(bytes[0]), Inner(bytes[0], bytes[1]), Outer(bytes[1], 0), url);
    } else if |bytes| == 1 {
      SignsOfThree(Opening(bytes[0]), Inner(bytes[0], 0), 0, url);
    }
  }

  lemma SignsOfOne(n: Sixbit, rest: seq<Sixbit>, url: bool)
    ensures Signs([n] + rest, url) == [Sextet(n, url)] + Signs(rest, url)
  {
    assert ([n] + rest)[1..] == rest;
  }

  lemma SignsOfTwo(m: Sixbit, n: Sixbit, rest: seq<Sixbit>, url: bool)
    ensures Signs([m, n] + rest, url) == [Sextet(m, url), Sextet(n, url)] + Signs(rest, url)
  {
    SignsOfOne(n, rest, url);
    SignsOfOne(m, [n] + rest, url);
    assert [m, n] + rest == [m] + ([n] + rest);
  }

  lemma SignsOfGroup(a: Sixbit, b: Sixbit, c: Sixbit, d: Sixbit, rest: seq<Sixbit>, url: bool)
    ensures Signs([a, b, c, d] + rest, url)
      == [Sextet(a, url), Sextet(b, url), Sextet(c, url), Sextet(d, url)] + Signs(rest, url)
  {
    TwoPairs(a, b, c, d, rest);
    SignsOfTwo(c, d, rest, url);
    SignsOfTwo(a, b, [c, d] + rest, url);
    TwoPairs(Sextet(a, url), Sextet(b, url), Sextet(c, url), Sextet(d, url), Signs(rest, url));
  }

  lemma TwoPairs<T>(a: T, b: T, c: T, d: T, rest: seq<T>)
    ensures [a, b, c, d] + rest == [a, b] + ([c, d] + rest)
  {
  }

  lemma SignsOfThree(a: Sixbit, b: Sixbit, c: Sixbit, url: bool)
    ensures Signs([a, b, c], url) == [Sextet(a, url), Sextet(b, url), Sextet(c, url)]
    ensures Signs([a, b], url) == [Sextet(a, url), Sextet(b, url)]
  {
    SignsOfOne(c, [], url);
    SignsOfOne(b, [], url);
    SignsOfOne(b, [c], url);
    SignsOfOne(a, [b, c], url);
    SignsOfOne(a, [b], url);
    assert [a] + [b, c] == [a, b, c] && [b] + [c] == [b, c] && [a] + [b] == [a, b];
    assert [b] + [] == [b] && [c] + [] == [c];
  }

  /** What stands before at most two equals signs at the end. */
  function Strip(t: Text): (body: Text)
    ensures |body| <= |t| && t[..|body|] == body
  {
    if |t| >= 2 && t[|t| - 1] == '=' && t[|t| - 2] == '=' then t[..|t| - 2]
    else if |t| >= 1 && t[|t| - 1] == '=' then t[..|t| - 1]
    else t
  }

  /** Sections 4 and 5 of RFC 4648, strictly: padded exactly if asked. */
  function DecodeBase64(t: Text, url: bool, pad: bool): Option<seq<Octet>> {
    if pad && |t| % 4 != 0 then None
    else
      var values := Values(if pad then Strip(t) else t, url);
      if values.None? then None else Regroup(values.value)
  }

  lemma BodyIff(body: Text, bytes: seq<Octet>, url: bool)
    ensures DecodeBase64(body, url, false) == Some(bytes) <==> body == Base64(bytes, url, false)
  {
    Base64IsSigns(bytes, url);
    RegroupGroups(bytes);
    ValuesIff(body, Groups(bytes), url);
    var values := Values(body, url);
    if values.Some? && Regroup(values.value) == Some(bytes) {
      GroupsRegrouped(values.value, bytes);
    }
  }

  predicate IsPad(pad: Text) {
    |pad| <= 2 && forall i :: 0 <= i < |pad| ==> pad[i] == '='
  }

  lemma StripSplits(t: Text)
    ensures t == Strip(t) + t[|Strip(t)|..] && IsPad(t[|Strip(t)|..])
  {
  }

  lemma StripIs(body: Text, pad: Text)
    requires IsPad(pad) && (body != [] ==> body[|body| - 1] != '=')
    ensures Strip(body + pad) == body
  {
    var t := body + pad;
    assert t[..|body|] == body;
    if |pad| == 2 {
      assert t[|t| - 1] == pad[1] && t[|t| - 2] == pad[0];
    } else if |pad| == 1 {
      assert t[|t| - 1] == pad[0] && (body != [] ==> t[|t| - 2] == body[|body| - 1]);
    } else {
      assert t == body;
    }
  }

  lemma {:induction false} SignsEnd(values: seq<Sixbit>, url: bool)
    ensures |Signs(values, url)| == |values|
    ensures values != [] ==> Signs(values, url)[|values| - 1] != '='
  {
    if values != [] {
      SignsEnd(values[1..], url);
    }
  }

  lemma {:induction false} GroupsFit(bytes: seq<Octet>)
    ensures Fits(|Groups(bytes)|, |bytes|)
    decreases |bytes|
  {
    if |bytes| >= 3 {
      GroupsFit(bytes[3..]);
      FitsMore(|Groups(bytes[3..])|, |bytes| - 3);
    }
  }

  /** The numbers, beyond whole groups, of six-bit values and of octets. */
  predicate Fits(values: nat, octets: nat) {
    values % 4 == if octets % 3 == 0 then 0 else octets % 3 + 1
  }

  lemma FitsMore(values: nat, octets: nat)
    requires Fits(values, octets)
    ensures Fits(values + 4, octets + 3)
  {
  }

  lemma PadsFit(values: nat, octets: nat)
    requires Fits(values, octets)
    ensures IsPad(Padding(octets)) && (values + |Padding(octets)|) % 4 == 0
  {
  }

  lemma SamePad(a: Text, b: Text, values: nat)
    requires IsPad(a) && IsPad(b) && (values + |a|) % 4 == 0 && (values + |b|) % 4 == 0
    ensures a == b
  {
    assert |a| == |b|;
  }

  /** The length and the end of an unpadded form. */
  lemma BodyShape(bytes: seq<Octet>, url: bool)
    ensures var body := Base64(bytes, url, false);
      Fits(|body|, |bytes|) && (body != [] ==> body[|body| - 1] != '=')
  {
    Base64IsSigns(bytes, url);
    SignsEnd(Groups(bytes), url);
    GroupsFit(bytes);
  }

  /** A Base64 form is the one text that reads back as the octets. */
  lemma DecodeBase64Iff(t: Text, bytes: seq<Octet>, url: bool, pad: bool)
    ensures DecodeBase64(t, url, pad) == Some(bytes) <==> t == Base64(bytes, url, pad)
  {
    if pad {
      BodyIff(Strip(t), bytes, url);
      PaddedIff(t, bytes, url);
    } else {
      BodyIff(t, bytes, url);
    }
  }

  lemma PaddedIff(t: Text, bytes: seq<Octet>, url: bool)
    ensures |t| % 4 == 0 && Strip(t) == Base64(bytes, url, false) <==> t == Base64(bytes, url, true)
  {
    PaddedIsUnpadded(bytes, url);
    BodyShape(bytes, url);
    StripIff(t, Base64(bytes, url, false), Padding(|bytes|), |bytes|);
  }

  lemma StripIff(t: Text, body: Text, pad: Text, octets: nat)
    requires Fits(|body|, octets) && (body != [] ==> body[|body| - 1] != '=') && pad == Padding(octets)
    ensures |t| % 4 == 0 && Strip(t) == body <==> t == body + pad
  {
    PadsFit(|body|, octets);
    if t == body + pad {
      StripIs(body, pad);
    }
    if |t| % 4 == 0 && Strip(t) == body {
      StripSplits(t);
      PadIsOwed(t, body, t[|body|..], pad);
    }
  }

  lemma PadIsOwed(t: Text, body: Text, end: Text, pad: Text)
    requires t == body + end && |t| % 4 == 0 && IsPad(end) && IsPad(pad) && (|body| + |pad|) % 4 == 0
    ensures t == body + pad
  {
    SamePad(end, pad, |body|);
  }

  // ----------------------------------------------------------- all the forms

  /** `t` spells the key: as it is, in JSON, in a URL, or in Base64. */
  predicate Spells(t: Text, key: Text) {
    || t == key
    || Unescape(t) == Some(key)
    || UrlSpells(t, key, false) || UrlSpells(t, key, true)
    || Base64Spells(t, key, false, true) || Base64Spells(t, key, false, false)
    || Base64Spells(t, key, true, true) || Base64Spells(t, key, true, false)
  }

  predicate UrlSpells(t: Text, key: Text, upper: bool) {
    var bytes := DecodeUrl(t, upper);
    bytes.Some? && DecodeUtf8(bytes.value) == Some(key)
  }

  predicate Base64Spells(t: Text, key: Text, url: bool, pad: bool) {
    var bytes := DecodeBase64(t, url, pad);
    bytes.Some? && DecodeUtf8(bytes.value) == Some(key)
  }

  lemma UrlSpellsIff(t: Text, key: Text, upper: bool)
    ensures UrlSpells(t, key, upper) <==> t == UrlForm(Octets(key), upper)
  {
    DecodeUrlIff(t, Octets(key), upper);
    DecodeUtf8Iff(Octets(key), key);
    if DecodeUrl(t, upper).Some? {
      DecodeUtf8Iff(DecodeUrl(t, upper).value, key);
    }
  }

  lemma Base64SpellsIff(t: Text, key: Text, url: bool, pad: bool)
    ensures Base64Spells(t, key, url, pad) <==> t == Base64(Octets(key), url, pad)
  {
    DecodeBase64Iff(t, Octets(key), url, pad);
    DecodeUtf8Iff(Octets(key), key);
    if DecodeBase64(t, url, pad).Some? {
      DecodeUtf8Iff(DecodeBase64(t, url, pad).value, key);
    }
  }

  /** The forms of a key are the texts that spell it. */
  lemma FormsSpell(t: Text, key: Text)
    ensures t in FormsOf(key) <==> Spells(t, key)
  {
    UnescapeIff(t, key);
    UrlSpellsIff(t, key, false);
    UrlSpellsIff(t, key, true);
    Base64SpellsIff(t, key, false, true);
    Base64SpellsIff(t, key, false, false);
    Base64SpellsIff(t, key, true, true);
    Base64SpellsIff(t, key, true, false);
  }

  /** The list holds what spells a non-empty key, and nothing else. */
  lemma PatternsSpell(keys: seq<Text>, t: Text)
    ensures t in PatternsFor(keys) <==> exists k :: 0 <= k < |keys| && keys[k] != [] && Spells(t, keys[k])
  {
    PatternsAreForms(keys, t);
    forall k | 0 <= k < |keys| ensures t in UsableForms(keys[k]) <==> keys[k] != [] && Spells(t, keys[k]) {
      FormsSpell(t, keys[k]);
    }
  }
}
