/** Canonical text of tool arguments (`canonical_json` in `src/agent.rs`). */
module CanonicalJson {

  datatype Field<+T> = Field(key: string, value: T)

  /** A number is kept as the text it serializes to. */
  datatype Json =
    | Null
    | Bool(b: bool)
    | Num(text: string)
    | Str(s: string)
    | Arr(items: seq<Json>)
    | Obj(fields: seq<Field<Json>>)

  // ------------------------------------------------------------------- values

  predicate IsNumberChar(c: char) {
    '0' <= c <= '9' || c in "+-.eE"
  }

  predicate IsNumber(text: string) {
    text != [] && forall i :: 0 <= i < |text| ==> IsNumberChar(text[i])
  }

  predicate DistinctKeys<T>(fields: seq<Field<T>>) {
    forall i, j :: 0 <= i < j < |fields| ==> fields[i].key != fields[j].key
  }

  /** Numbers are spelled with number characters, object keys are unique. */
  predicate WellFormed(v: Json)
    decreases v
  {
    match v
    case Num(text) => IsNumber(text)
    case Arr(items) => forall i :: 0 <= i < |items| ==> WellFormed(items[i])
    case Obj(fields) => DistinctKeys(fields) && forall i :: 0 <= i < |fields| ==> WellFormed(fields[i].value)
    case _ => true
  }

  /** Equal up to the order of object keys, at every depth. */
  predicate Equivalent(a: Json, b: Json)
    decreases a
  {
    match (a, b)
    case (Arr(x), Arr(y)) => |x| == |y| && forall i :: 0 <= i < |x| ==> Equivalent(x[i], y[i])
    case (Obj(x), Obj(y)) =>
      |x| == |y| && forall i :: 0 <= i < |x| ==> exists j :: 0 <= j < |y| && x[i].key == y[j].key && Equivalent(x[i].value, y[j].value)
    case (Arr(_), _) => false
    case (Obj(_), _) => false
    case (_, _) => a == b
  }

  // --------------------------------------------------------------- atom texts

  function HexDigit(n: nat): char
    requires n < 16
  {
    "0123456789abcdef"[n]
  }

  /** The string escapes of serde_json, within section 7 of RFC 8259. */
  function Escape(c: char): string {
    if c == '"' then "\\\""
    else if c == '\\' then "\\\\"
    else if c == '\n' then "\\n"
    else if c == '\r' then "\\r"
    else if c == '\t' then "\\t"
    else if c as int == 8 then "\\b"
    else if c as int == 12 then "\\f"
    else if (c as int) < 32 then "\\u00" + [HexDigit(c as int / 16), HexDigit(c as int % 16)]
    else [c]
  }

  function EscapeAll(s: string): string {
    if s == [] then [] else Escape(s[0]) + EscapeAll(s[1..])
  }

  function Quote(s: string): string {
    "\"" + EscapeAll(s) + "\""
  }

  function Atom(v: Json): string
    requires !v.Arr? && !v.Obj?
  {
    match v
    case Null => "null"
    case Bool(b) => if b then "true" else "false"
    case Num(text) => text
    case Str(s) => Quote(s)
  }

  // ----------------------------------------------------------- canonical text

  /** Byte order of UTF-8 text is code point order. */
  predicate Less(a: string, b: string) {
    b != [] && (a == [] || a[0] < b[0] || (a[0] == b[0] && Less(a[1..], b[1..])))
  }

  function Insert<T>(field: Field<T>, sorted: seq<Field<T>>): seq<Field<T>> {
    if sorted == [] || !Less(sorted[0].key, field.key) then [field] + sorted
    else [sorted[0]] + Insert(field, sorted[1..])
  }

  /** `sort_unstable_by_key`; keys are distinct, so stability is immaterial. */
  function SortByKey<T>(fields: seq<Field<T>>): seq<Field<T>> {
    if fields == [] then [] else Insert(fields[0], SortByKey(fields[1..]))
  }

  function Join(parts: seq<string>): string {
    if parts == [] then []
    else if |parts| == 1 then parts[0]
    else parts[0] + "," + Join(parts[1..])
  }

  /** Keys alone decide the order, so formatting the values first and sorting
      after gives the same text as sorting first. */
  function Canonical(v: Json): string
    decreases v, 0
  {
    match v
    case Obj(fields) => "{" + Join(FieldTexts(SortByKey(CanonicalValues(fields)))) + "}"
    case Arr(items) => "[" + Join(CanonicalItems(items)) + "]"
    case _ => Atom(v)
  }

  function CanonicalItems(items: seq<Json>): seq<string>
    decreases items, 0
  {
    if items == [] then [] else [Canonical(items[0])] + CanonicalItems(items[1..])
  }

  function CanonicalValues(fields: seq<Field<Json>>): seq<Field<string>>
    decreases fields, 0
  {
    if fields == [] then []
    else [Field(fields[0].key, Canonical(fields[0].value))] + CanonicalValues(fields[1..])
  }

  function FieldTexts(fields: seq<Field<string>>): seq<string> {
    if fields == [] then [] else [Quote(fields[0].key) + ":" + fields[0].value] + FieldTexts(fields[1..])
  }
}
