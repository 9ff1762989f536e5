/** Two values have the same canonical text exactly when they are equal up to
    the order of object keys. */
module CanonicalJsonTheorems {
  import opened CanonicalJson

  // ---------------------------------------------- the text of a sorted value

  /** The value with every object sorted by key. */
  function Norm(v: Json): Json
    decreases v, 0
  {
    match v
    case Obj(fields) => Obj(SortByKey(NormValues(fields)))
    case Arr(items) => Arr(NormItems(items))
    case _ => v
  }

  function NormItems(items: seq<Json>): seq<Json>
    decreases items, 0
  {
    if items == [] then [] else [Norm(items[0])] + NormItems(items[1..])
  }

  function NormValues(fields: seq<Field<Json>>): seq<Field<Json>>
    decreases fields, 0
  {
    if fields == [] then []
    else [Field(fields[0].key, Norm(fields[0].value))] + NormValues(fields[1..])
  }

  /** Compact text in the stored order of fields. */
  function Render(v: Json): string
    decreases v, 0
  {
    match v
    case Obj(fields) => "{" + Join(FieldTexts(RenderValues(fields))) + "}"
    case Arr(items) => "[" + Join(RenderItems(items)) + "]"
    case _ => Atom(v)
  }

  function RenderItems(items: seq<Json>): seq<string>
    decreases items, 0
  {
    if items == [] then [] else [Render(items[0])] + RenderItems(items[1..])
  }

  function RenderValues(fields: seq<Field<Json>>): seq<Field<string>>
    decreases fields, 0
  {
    if fields == [] then []
    else [Field(fields[0].key, Render(fields[0].value))] + RenderValues(fields[1..])
  }

  lemma {:induction false} InsertCommutes(field: Field<Json>, sorted: seq<Field<Json>>)
    ensures RenderValues(Insert(field, sorted)) == Insert(Field(field.key, Render(field.value)), RenderValues(sorted))
  {
    if sorted != [] && Less(sorted[0].key, field.key) {
      InsertCommutes(field, sorted[1..]);
      var rest := Insert(field, sorted[1..]);
      assert ([sorted[0]] + rest)[1..] == rest;
      assert RenderValues(sorted)[1..] == RenderValues(sorted[1..]);
    } else {
      assert ([field] + sorted)[1..] == sorted;
    }
  }

  lemma {:induction false} SortCommutes(fields: seq<Field<Json>>)
    ensures RenderValues(SortByKey(fields)) == SortByKey(RenderValues(fields))
  {
    if fields != [] {
      SortCommutes(fields[1..]);
      InsertCommutes(fields[0], SortByKey(fields[1..]));
      assert RenderValues(fields)[1..] == RenderValues(fields[1..]);
    }
  }

  lemma {:induction false} CanonicalIsRender(v: Json)
    ensures Canonical(v) == Render(Norm(v))
    decreases v, 1
  {
    match v
    case Obj(fields) =>
      ValuesAreRender(fields);
      SortCommutes(NormValues(fields));
    case Arr(items) =>
      ItemsAreRender(items);
    case _ =>
  }

  lemma {:induction false} ItemsAreRender(items: seq<Json>)
    ensures CanonicalItems(items) == RenderItems(NormItems(items))
    decreases items, 0
  {
    if items != [] {
      CanonicalIsRender(items[0]);
      ItemsAreRender(items[1..]);
      assert NormItems(items)[1..] == NormItems(items[1..]);
    }
  }

  lemma {:induction false} ValuesAreRender(fields: seq<Field<Json>>)
    ensures CanonicalValues(fields) == RenderValues(NormValues(fields))
    decreases fields, 0
  {
    if fields != [] {
      CanonicalIsRender(fields[0].value);
      ValuesAreRender(fields[1..]);
      assert NormValues(fields)[1..] == NormValues(fields[1..]);
    }
  }

  // ------------------------------------------------- reading the text back

  lemma SplitHead(p: string, q: string, r: string, s: string)
    requires p + r == q + s && |p| == |q|
    ensures p == q && r == s
  {
    assert (p + r)[..|p|] == p && (q + s)[..|q|] == q;
    assert (p + r)[|p|..] == r && (q + s)[|q|..] == s;
  }

  /** What can follow a value inside a document. */
  predicate Follow(x: string) {
    x == [] || x[0] in ",]}"
  }

  lemma EscapePrefixFree(a: char, b: char, x: string, y: string)
    requires Escape(a) + x == Escape(b) + y
    ensures a == b && x == y
  {
    var s, t := Escape(a), Escape(b);
    assert s[0] == (s + x)[0] == (t + y)[0] == t[0];
    if s[0] == '\\' {
      assert s[1] == (s + x)[1] == (t + y)[1] == t[1];
      if s[1] == 'u' {
        assert s[4] == (s + x)[4] == (t + y)[4] == t[4];
        assert s[5] == (s + x)[5] == (t + y)[5] == t[5];
      }
    }
    assert a == b;
    SplitHead(s, t, x, y);
  }

  /** The quoted rest of a string, with whatever follows the closing quote. */
  function Closed(s: string, x: string): string {
    EscapeAll(s) + "\"" + x
  }

  lemma ClosedHead(s: string, x: string)
    ensures Closed(s, x) != [] && (Closed(s, x)[0] == '"' <==> s == [])
    ensures s == [] ==> Closed(s, x) == "\"" + x
    ensures s != [] ==> Closed(s, x) == Escape(s[0]) + Closed(s[1..], x)
  {
    if s != [] {
      assert Escape(s[0]) + EscapeAll(s[1..]) + "\"" + x == Escape(s[0]) + (EscapeAll(s[1..]) + "\"" + x);
      assert Closed(s, x)[0] == Escape(s[0])[0];
    }
  }

  lemma {:induction false} ClosedPrefixFree(a: string, b: string, x: string, y: string)
    requires Closed(a, x) == Closed(b, y)
    ensures a == b && x == y
  {
    ClosedHead(a, x);
    ClosedHead(b, y);
    if a == [] {
      SplitHead("\"", "\"", x, y);
    } else {
      EscapePrefixFree(a[0], b[0], Closed(a[1..], x), Closed(b[1..], y));
      ClosedPrefixFree(a[1..], b[1..], x, y);
      assert a == [a[0]] + a[1..] && b == [b[0]] + b[1..];
    }
  }

  lemma QuoteIsClosed(s: string, x: string)
    ensures Quote(s) + x == "\"" + Closed(s, x)
  {
  }

  lemma QuotePrefixFree(a: string, b: string, x: string, y: string)
    requires Quote(a) + x == Quote(b) + y
    ensures a == b && x == y
  {
    QuoteIsClosed(a, x);
    QuoteIsClosed(b, y);
    SplitHead("\"", "\"", Closed(a, x), Closed(b, y));
    ClosedPrefixFree(a, b, x, y);
  }

  lemma NumberPrefixFree(a: string, b: string, x: string, y: string)
    requires IsNumber(a) && IsNumber(b) && Follow(x) && Follow(y) && a + x == b + y
    ensures a == b && x == y
  {
    if |a| < |b| {
      NumberRunsOn(a, b, x, y);
      assert false;
    } else if |b| < |a| {
      NumberRunsOn(b, a, y, x);
      assert false;
    }
    SplitHead(a, b, x, y);
  }

  lemma NumberRunsOn(a: string, b: string, x: string, y: string)
    requires IsNumber(b) && a + x == b + y && |a| < |b|
    ensures x != [] && IsNumberChar(x[0])
  {
    assert (a + x)[|a|] == (b + y)[|a|] == b[|a|];
  }

  /** The first character tells the kind of value. */
  predicate Starts(v: Json, c: char) {
    match v
    case Null => c == 'n'
    case Bool(b) => c == if b then 't' else 'f'
    case Num(_) => IsNumberChar(c)
    case Str(_) => c == '"'
    case Arr(_) => c == '['
    case Obj(_) => c == '{'
  }

  lemma RenderStarts(v: Json)
    requires WellFormed(v)
    ensures Render(v) != [] && Starts(v, Render(v)[0])
  {
  }

  function JoinRest(parts: seq<string>): string {
    if parts == [] then [] else "," + parts[0] + JoinRest(parts[1..])
  }

  lemma {:induction false} JoinIsHeadAndRest(parts: seq<string>)
    requires parts != []
    ensures Join(parts) == parts[0] + JoinRest(parts[1..])
    decreases |parts|
  {
    if |parts| > 1 {
      JoinIsHeadAndRest(parts[1..]);
      assert parts[1..][0] == parts[1];
      assert parts[0] + "," + (parts[1] + JoinRest(parts[1..][1..])) == parts[0] + ("," + parts[1] + JoinRest(parts[1..][1..]));
    } else {
      assert parts[0] + [] == parts[0];
    }
  }

  // ------------------------------------------------------------ injectivity

  /** The remaining parts of a list, its closing character, then `x`. */
  function Tail(parts: seq<string>, close: char, x: string): string {
    JoinRest(parts) + ([close] + x)
  }

  lemma TailHead(parts: seq<string>, close: char, x: string)
    requires close == ']' || close == '}'
    ensures Tail(parts, close, x) != [] && Follow(Tail(parts, close, x))
    ensures parts == [] ==> Tail(parts, close, x) == [close] + x
    ensures parts != [] ==> Tail(parts, close, x) == "," + (parts[0] + Tail(parts[1..], close, x))
  {
    if parts != [] {
      var p, r, e := parts[0], JoinRest(parts[1..]), [close] + x;
      assert ("," + p + r) + e == "," + (p + (r + e));
    }
  }

  lemma ListHead(parts: seq<string>, open: char, close: char, x: string)
    ensures [open] + Join(parts) + [close] + x ==
      [open] + (if parts == [] then [close] + x else parts[0] + Tail(parts[1..], close, x))
  {
    if parts != [] {
      JoinIsHeadAndRest(parts);
      var p, r, e := parts[0], JoinRest(parts[1..]), [close] + x;
      assert [open] + (p + r) + [close] + x == [open] + (p + (r + e));
    } else {
      assert [open] + [] + [close] + x == [open] + ([close] + x);
    }
  }

  lemma {:induction false} RenderPrefixFree(a: Json, b: Json, x: string, y: string)
    requires WellFormed(a) && WellFormed(b) && Follow(x) && Follow(y)
    requires Render(a) + x == Render(b) + y
    ensures a == b && x == y
    decreases a, 2
  {
    RenderStarts(a);
    RenderStarts(b);
    assert Render(a)[0] == (Render(a) + x)[0] == (Render(b) + y)[0] == Render(b)[0];
    match a
    case Obj(fields) =>
      FieldsPrefixFree(fields, b.fields, x, y);
    case Arr(items) =>
      ItemsPrefixFree(items, b.items, x, y);
    case Str(s) =>
      QuotePrefixFree(s, b.s, x, y);
    case Num(text) =>
      NumberPrefixFree(text, b.text, x, y);
    case _ =>
      SplitHead(Render(a), Render(b), x, y);
  }

  lemma {:induction false} ItemsRestPrefixFree(a: seq<Json>, b: seq<Json>, x: string, y: string)
    requires (forall i :: 0 <= i < |a| ==> WellFormed(a[i])) && (forall i :: 0 <= i < |b| ==> WellFormed(b[i]))
    requires Tail(RenderItems(a), ']', x) == Tail(RenderItems(b), ']', y)
    ensures a == b && x == y
    decreases a, 0
  {
    var p, q := RenderItems(a), RenderItems(b);
    TailHead(p, ']', x);
    TailHead(q, ']', y);
    if a == [] {
      SplitHead("]", "]", x, y);
    } else {
      TailHead(p[1..], ']', x);
      TailHead(q[1..], ']', y);
      SplitHead(",", ",", p[0] + Tail(p[1..], ']', x), q[0] + Tail(q[1..], ']', y));
      RenderPrefixFree(a[0], b[0], Tail(p[1..], ']', x), Tail(q[1..], ']', y));
      assert p[1..] == RenderItems(a[1..]) && q[1..] == RenderItems(b[1..]);
      ItemsRestPrefixFree(a[1..], b[1..], x, y);
      assert a == [a[0]] + a[1..] && b == [b[0]] + b[1..];
    }
  }

  /** What follows the opening bracket of a non-empty or empty list. */
  function Opened(parts: seq<string>, close: char, x: string): string {
    if parts == [] then [close] + x else parts[0] + Tail(parts[1..], close, x)
  }

  lemma OpenedAgree(p: seq<string>, q: seq<string>, open: char, close: char, x: string, y: string)
    requires [open] + Join(p) + [close] + x == [open] + Join(q) + [close] + y
    requires (p != [] ==> p[0] != [] && p[0][0] != close) && (q != [] ==> q[0] != [] && q[0][0] != close)
    ensures Opened(p, close, x) == Opened(q, close, y)
    ensures (p == [] <==> q == []) && (p == [] ==> x == y)
  {
    ListHead(p, open, close, x);
    ListHead(q, open, close, y);
    SplitHead([open], [open], Opened(p, close, x), Opened(q, close, y));
    assert Opened(p, close, x)[0] == if p == [] then close else p[0][0];
    assert Opened(q, close, y)[0] == if q == [] then close else q[0][0];
    if p == [] {
      SplitHead([close], [close], x, y);
    }
  }

  lemma ItemsOpen(items: seq<Json>)
    requires forall i :: 0 <= i < |items| ==> WellFormed(items[i])
    ensures items == [] <==> RenderItems(items) == []
    ensures items != [] ==>
      && RenderItems(items)[0] == Render(items[0]) && RenderItems(items)[1..] == RenderItems(items[1..])
      && RenderItems(items)[0] != [] && RenderItems(items)[0][0] != ']'
  {
    if items != [] {
      RenderStarts(items[0]);
    }
  }

  lemma SameHeadAndTail<T>(a: seq<T>, b: seq<T>)
    requires a != [] && b != [] && a[0] == b[0] && a[1..] == b[1..]
    ensures a == b
  {
    assert a == [a[0]] + a[1..] && b == [b[0]] + b[1..];
  }

  lemma {:induction false} ItemsPrefixFree(a: seq<Json>, b: seq<Json>, x: string, y: string)
    requires (forall i :: 0 <= i < |a| ==> WellFormed(a[i])) && (forall i :: 0 <= i < |b| ==> WellFormed(b[i]))
    requires Render(Arr(a)) + x == Render(Arr(b)) + y
    ensures a == b && x == y
    decreases a, 1
  {
    ItemsOpen(a);
    ItemsOpen(b);
    OpenedAgree(RenderItems(a), RenderItems(b), '[', ']', x, y);
    if a != [] {
      var u, v := Tail(RenderItems(a[1..]), ']', x), Tail(RenderItems(b[1..]), ']', y);
      TailHead(RenderItems(a[1..]), ']', x);
      TailHead(RenderItems(b[1..]), ']', y);
      RenderPrefixFree(a[0], b[0], u, v);
      ItemsRestPrefixFree(a[1..], b[1..], x, y);
      SameHeadAndTail(a, b);
    }
  }

  predicate FieldsFormed(fields: seq<Field<Json>>) {
    forall i :: 0 <= i < |fields| ==> WellFormed(fields[i].value)
  }

  lemma {:induction false} FieldPrefixFree(a: Field<Json>, b: Field<Json>, x: string, y: string)
    requires WellFormed(a.value) && WellFormed(b.value) && Follow(x) && Follow(y)
    requires Quote(a.key) + ":" + Render(a.value) + x == Quote(b.key) + ":" + Render(b.value) + y
    ensures a == b && x == y
    decreases a, 3
  {
    Regroup(Quote(a.key), Render(a.value), x);
    Regroup(Quote(b.key), Render(b.value), y);
    QuotePrefixFree(a.key, b.key, ":" + (Render(a.value) + x), ":" + (Render(b.value) + y));
    SplitHead(":", ":", Render(a.value) + x, Render(b.value) + y);
    RenderPrefixFree(a.value, b.value, x, y);
  }

  lemma Regroup(key: string, value: string, x: string)
    ensures key + ":" + value + x == key + (":" + (value + x))
  {
  }

  function Parts(fields: seq<Field<Json>>): seq<string> {
    FieldTexts(RenderValues(fields))
  }

  lemma PartsHead(fields: seq<Field<Json>>)
    requires fields != []
    ensures Parts(fields) != [] && Parts(fields)[0] == Quote(fields[0].key) + ":" + Render(fields[0].value)
    ensures Parts(fields)[1..] == Parts(fields[1..])
  {
    assert RenderValues(fields)[1..] == RenderValues(fields[1..]);
  }

  lemma {:induction false} FieldsRestPrefixFree(a: seq<Field<Json>>, b: seq<Field<Json>>, x: string, y: string)
    requires FieldsFormed(a) && FieldsFormed(b)
    requires Tail(Parts(a), '}', x) == Tail(Parts(b), '}', y)
    ensures a == b && x == y
    decreases a, 0
  {
    var p, q := Parts(a), Parts(b);
    TailHead(p, '}', x);
    TailHead(q, '}', y);
    if a != [] { PartsHead(a); }
    if b != [] { PartsHead(b); }
    if a == [] {
      SplitHead("}", "}", x, y);
    } else {
      TailHead(p[1..], '}', x);
      TailHead(q[1..], '}', y);
      SplitHead(",", ",", p[0] + Tail(p[1..], '}', x), q[0] + Tail(q[1..], '}', y));
      FieldPrefixFree(a[0], b[0], Tail(p[1..], '}', x), Tail(q[1..], '}', y));
      FieldsRestPrefixFree(a[1..], b[1..], x, y);
      assert a == [a[0]] + a[1..] && b == [b[0]] + b[1..];
    }
  }

  lemma FieldsOpen(fields: seq<Field<Json>>)
    ensures fields == [] <==> Parts(fields) == []
    ensures fields != [] ==>
      && Parts(fields)[0] == Quote(fields[0].key) + ":" + Render(fields[0].value) && Parts(fields)[1..] == Parts(fields[1..])
      && Parts(fields)[0] != [] && Parts(fields)[0][0] != '}'
  {
    if fields != [] {
      PartsHead(fields);
    }
  }

  lemma {:induction false} FieldsPrefixFree(a: seq<Field<Json>>, b: seq<Field<Json>>, x: string, y: string)
    requires FieldsFormed(a) && FieldsFormed(b)
    requires Render(Obj(a)) + x == Render(Obj(b)) + y
    ensures a == b && x == y
    decreases a, 1
  {
    FieldsOpen(a);
    FieldsOpen(b);
    OpenedAgree(Parts(a), Parts(b), '{', '}', x, y);
    if a != [] {
      TailHead(Parts(a[1..]), '}', x);
      TailHead(Parts(b[1..]), '}', y);
      FieldPrefixFree(a[0], b[0], Tail(Parts(a[1..]), '}', x), Tail(Parts(b[1..]), '}', y));
      FieldsRestPrefixFree(a[1..], b[1..], x, y);
      SameHeadAndTail(a, b);
    }
  }

  // ---------------------------------------------- sorting forgets the order

  lemma {:induction false} LessIsTotal(a: string, b: string)
    ensures Less(a, b) || a == b || Less(b, a)
  {
    if a != [] && b != [] {
      LessIsTotal(a[1..], b[1..]);
      assert a == [a[0]] + a[1..] && b == [b[0]] + b[1..];
    }
  }

  lemma {:induction false} LessIsTransitive(a: string, b: string, c: string)
    requires Less(a, b) && Less(b, c)
    ensures Less(a, c) && a != c
  {
    if a != [] && a[0] == b[0] == c[0] {
      LessIsTransitive(a[1..], b[1..], c[1..]);
    }
  }

  lemma {:induction false} LessIsIrreflexive(a: string)
    ensures !Less(a, a)
  {
    if a != [] {
      LessIsIrreflexive(a[1..]);
    }
  }

  predicate Sorted(s: seq<Field<Json>>) {
    s == [] || (AllAfter(s[0].key, s[1..]) && Sorted(s[1..]))
  }

  predicate AllAfter(key: string, s: seq<Field<Json>>) {
    s == [] || (Less(key, s[0].key) && AllAfter(key, s[1..]))
  }

  predicate HasKey(s: seq<Field<Json>>, key: string) {
    s != [] && (s[0].key == key || HasKey(s[1..], key))
  }

  lemma {:induction false} AfterIsTransitive(a: string, b: string, s: seq<Field<Json>>)
    requires Less(a, b) && AllAfter(b, s)
    ensures AllAfter(a, s)
  {
    if s != [] {
      LessIsTransitive(a, b, s[0].key);
      AfterIsTransitive(a, b, s[1..]);
    }
  }

  lemma {:induction false} AfterMeans(key: string, s: seq<Field<Json>>, x: Field<Json>)
    requires AllAfter(key, s) && x in s
    ensures Less(key, x.key)
  {
    if x != s[0] {
      assert x in s[1..];
      AfterMeans(key, s[1..], x);
    }
  }

  lemma {:induction false} HasKeyMeans(s: seq<Field<Json>>, key: string)
    ensures HasKey(s, key) <==> exists i :: 0 <= i < |s| && s[i].key == key
  {
    if s != [] {
      HasKeyMeans(s[1..], key);
      if i :| 0 <= i < |s| && s[i].key == key && i > 0 {
        assert s[1..][i - 1].key == key;
      }
      if i :| 0 <= i < |s| - 1 && s[1..][i].key == key {
        assert s[i + 1].key == key;
      }
    }
  }

  lemma {:induction false} InsertKeepsSorted(field: Field<Json>, s: seq<Field<Json>>)
    requires Sorted(s) && !HasKey(s, field.key)
    ensures Sorted(Insert(field, s)) && multiset(Insert(field, s)) == multiset([field] + s)
    ensures forall k :: Less(k, field.key) && AllAfter(k, s) ==> AllAfter(k, Insert(field, s))
    ensures forall k :: HasKey(Insert(field, s), k) <==> k == field.key || HasKey(s, k)
  {
    if s != [] && Less(s[0].key, field.key) {
      var rest := Insert(field, s[1..]);
      InsertKeepsSorted(field, s[1..]);
      assert ([s[0]] + rest)[1..] == rest;
      assert s == [s[0]] + s[1..];
    } else {
      assert ([field] + s)[1..] == s;
      if s != [] {
        LessIsTotal(s[0].key, field.key);
        AfterIsTransitive(field.key, s[0].key, s[1..]);
      }
    }
  }

  lemma {:induction false} SortSorts(s: seq<Field<Json>>)
    requires DistinctKeys(s)
    ensures Sorted(SortByKey(s)) && multiset(SortByKey(s)) == multiset(s)
    ensures forall k :: HasKey(SortByKey(s), k) <==> HasKey(s, k)
  {
    if s != [] {
      SortSorts(s[1..]);
      HasKeyMeans(s[1..], s[0].key);
      InsertKeepsSorted(s[0], SortByKey(s[1..]));
      assert s == [s[0]] + s[1..];
    }
  }

  lemma TailElements(a: seq<Field<Json>>)
    requires a != []
    ensures multiset(a[1..]) == multiset(a) - multiset{a[0]}
  {
    assert a == [a[0]] + a[1..];
  }

  lemma FirstsAgree(a: seq<Field<Json>>, b: seq<Field<Json>>)
    requires Sorted(a) && Sorted(b) && multiset(a) == multiset(b) && a != [] && b != []
    ensures a[0] == b[0]
  {
    assert a == [a[0]] + a[1..] && b == [b[0]] + b[1..];
    assert a[0] in multiset(b) && b[0] in multiset(a);
    if a[0] != b[0] {
      AfterMeans(b[0].key, b[1..], a[0]);
      AfterMeans(a[0].key, a[1..], b[0]);
      LessIsTransitive(a[0].key, b[0].key, a[0].key);
      assert false;
    }
  }

  /** A sorted list is determined by its elements. */
  lemma {:induction false} SortedIsUnique(a: seq<Field<Json>>, b: seq<Field<Json>>)
    requires Sorted(a) && Sorted(b) && multiset(a) == multiset(b)
    ensures a == b
  {
    if a == [] || b == [] {
      assert |multiset(a)| == |a| && |multiset(b)| == |b|;
    } else {
      FirstsAgree(a, b);
      TailElements(a);
      TailElements(b);
      SortedIsUnique(a[1..], b[1..]);
      assert a == [a[0]] + a[1..] && b == [b[0]] + b[1..];
    }
  }

  // ------------------------------------------------------------ the theorem

  lemma {:induction false} NormValuesAt(fields: seq<Field<Json>>)
    ensures |NormValues(fields)| == |fields|
    ensures forall i :: 0 <= i < |fields| ==> NormValues(fields)[i] == Field(fields[i].key, Norm(fields[i].value))
    decreases |fields|
  {
    if fields != [] {
      NormValuesAt(fields[1..]);
    }
  }

  lemma {:induction false} NormItemsAt(items: seq<Json>)
    ensures |NormItems(items)| == |items|
    ensures forall i :: 0 <= i < |items| ==> NormItems(items)[i] == Norm(items[i])
    decreases |items|
  {
    if items != [] {
      NormItemsAt(items[1..]);
    }
  }

  lemma SortedIsDistinct(s: seq<Field<Json>>)
    requires Sorted(s)
    ensures DistinctKeys(s)
  {
    if s != [] {
      SortedIsDistinct(s[1..]);
      forall j | 1 <= j < |s| ensures s[0].key != s[j].key {
        AfterMeans(s[0].key, s[1..], s[j]);
        LessIsIrreflexive(s[0].key);
      }
    }
  }

  lemma {:induction false} NormIsWellFormed(v: Json)
    requires WellFormed(v)
    ensures WellFormed(Norm(v))
    decreases v
  {
    match v
    case Obj(fields) =>
      var values := NormValues(fields);
      NormValuesAt(fields);
      SortSorts(values);
      SortedIsDistinct(SortByKey(values));
      forall i | 0 <= i < |SortByKey(values)| ensures WellFormed(SortByKey(values)[i].value) {
        assert SortByKey(values)[i] in multiset(values);
        var j :| 0 <= j < |values| && values[j] == SortByKey(values)[i];
        NormIsWellFormed(fields[j].value);
      }
    case Arr(items) =>
      NormItemsAt(items);
      forall i | 0 <= i < |items| ensures WellFormed(NormItems(items)[i]) {
        NormIsWellFormed(items[i]);
      }
    case _ =>
  }

  lemma {:induction false} DistinctOccursOnce(s: seq<Field<Json>>, x: Field<Json>)
    requires DistinctKeys(s)
    ensures multiset(s)[x] <= 1
  {
    if s != [] {
      DistinctOccursOnce(s[1..], x);
      assert s == [s[0]] + s[1..];
      assert x in s[1..] ==> x.key != s[0].key;
    }
  }

  lemma SameSizeSubset(a: seq<Field<Json>>, b: seq<Field<Json>>)
    requires DistinctKeys(a) && |a| == |b| && forall i :: 0 <= i < |a| ==> a[i] in b
    ensures multiset(a) == multiset(b)
  {
    forall x ensures multiset(a)[x] <= multiset(b)[x] {
      DistinctOccursOnce(a, x);
      assert x in multiset(a) ==> x in a;
    }
    assert multiset(b) == multiset(a) + (multiset(b) - multiset(a));
    assert |multiset(b) - multiset(a)| == 0;
  }

  lemma {:induction false} NormIffEquivalent(a: Json, b: Json)
    requires WellFormed(a) && WellFormed(b)
    ensures Norm(a) == Norm(b) <==> Equivalent(a, b)
    decreases a
  {
    match a
    case Obj(x) =>
      if b.Obj? {
        ObjectsIffEquivalent(x, b.fields);
      }
    case Arr(x) =>
      if b.Arr? {
        var y := b.items;
        NormItemsAt(x);
        NormItemsAt(y);
        forall i | 0 <= i < |x| && |x| == |y| ensures Norm(x[i]) == Norm(y[i]) <==> Equivalent(x[i], y[i]) {
          NormIffEquivalent(x[i], y[i]);
        }
        if Equivalent(a, b) {
          assert NormItems(x) == NormItems(y);
        }
      }
    case _ =>
  }

  lemma {:induction false} ObjectsIffEquivalent(x: seq<Field<Json>>, y: seq<Field<Json>>)
    requires WellFormed(Obj(x)) && WellFormed(Obj(y))
    ensures Norm(Obj(x)) == Norm(Obj(y)) <==> Equivalent(Obj(x), Obj(y))
    decreases x
  {
    var p, q := NormValues(x), NormValues(y);
    NormValuesAt(x);
    NormValuesAt(y);
    forall i, j | 0 <= i < |x| && 0 <= j < |y|
      ensures p[i] == q[j] <==> x[i].key == y[j].key && Equivalent(x[i].value, y[j].value)
    {
      NormIffEquivalent(x[i].value, y[j].value);
    }
    SortSorts(p);
    SortSorts(q);
    if SortByKey(p) == SortByKey(q) {
      SameElementsAreEquivalent(x, y, p, q);
    }
    if Equivalent(Obj(x), Obj(y)) {
      EquivalentHaveSameElements(x, y, p, q);
      SortedIsUnique(SortByKey(p), SortByKey(q));
    }
  }

  ghost predicate Paired(x: seq<Field<Json>>, y: seq<Field<Json>>, p: seq<Field<Json>>, q: seq<Field<Json>>) {
    && |p| == |x| && |q| == |y|
    && forall i, j :: 0 <= i < |x| && 0 <= j < |y| ==>
      (p[i] == q[j] <==> x[i].key == y[j].key && Equivalent(x[i].value, y[j].value))
  }

  lemma SameElementsAreEquivalent(x: seq<Field<Json>>, y: seq<Field<Json>>, p: seq<Field<Json>>, q: seq<Field<Json>>)
    requires Paired(x, y, p, q) && multiset(p) == multiset(q)
    ensures Equivalent(Obj(x), Obj(y))
  {
    assert |multiset(p)| == |p| && |multiset(q)| == |q|;
    forall i | 0 <= i < |x| ensures exists j :: 0 <= j < |y| && x[i].key == y[j].key && Equivalent(x[i].value, y[j].value) {
      assert p[i] in multiset(q);
      var j :| 0 <= j < |q| && q[j] == p[i];
    }
  }

  lemma EquivalentHaveSameElements(x: seq<Field<Json>>, y: seq<Field<Json>>, p: seq<Field<Json>>, q: seq<Field<Json>>)
    requires Paired(x, y, p, q) && DistinctKeys(p) && Equivalent(Obj(x), Obj(y))
    ensures multiset(p) == multiset(q)
  {
    forall i | 0 <= i < |p| ensures p[i] in q {
      var j :| 0 <= j < |y| && x[i].key == y[j].key && Equivalent(x[i].value, y[j].value);
      assert p[i] == q[j];
    }
    SameSizeSubset(p, q);
  }

  /** Equal text means equal up to key order, and the other way round. */
  lemma CanonicalIffEquivalent(a: Json, b: Json)
    requires WellFormed(a) && WellFormed(b)
    ensures Canonical(a) == Canonical(b) <==> Equivalent(a, b)
  {
    CanonicalIsRender(a);
    CanonicalIsRender(b);
    NormIffEquivalent(a, b);
    if Canonical(a) == Canonical(b) {
      NormIsWellFormed(a);
      NormIsWellFormed(b);
      assert Render(Norm(a)) + [] == Render(Norm(b)) + [];
      RenderPrefixFree(Norm(a), Norm(b), [], []);
    }
  }
}
