/** Redaction inside JSON values (`redact_json` in `src/secrets.rs`). */
module JsonRedaction {
  import opened Wrappers
  import opened Secrets
  import opened RedactionTheorems
  import opened CanonicalJson

  /** `Map::insert`: a later value takes the place of an earlier one. */
  function InsertField(fields: seq<Field<Json>>, field: Field<Json>): seq<Field<Json>> {
    if fields == [] then [field]
    else if fields[0].key == field.key then [field] + fields[1..]
    else [fields[0]] + InsertField(fields[1..], field)
  }

  function InsertFields(fields: seq<Field<Json>>): seq<Field<Json>> {
    if fields == [] then [] else InsertField(InsertFields(fields[..|fields| - 1]), fields[|fields| - 1])
  }

  function RedactField(ps: seq<Text>, marker: Text, field: Field<Json>): Field<Json>
    requires Proper(ps)
    decreases field.value, 1
  {
    Field(Redact(ps, marker, field.key), RedactJson(ps, marker, field.value))
  }

  /** Strings and keys at every depth; of keys that become equal the last value
      stays. */
  function RedactJson(ps: seq<Text>, marker: Text, v: Json): Json
    requires Proper(ps)
    decreases v, 0
  {
    match v
    case Str(s) => Str(Redact(ps, marker, s))
    case Arr(items) => Arr(seq(|items|, i requires 0 <= i < |items| => RedactJson(ps, marker, items[i])))
    case Obj(fields) => Obj(InsertFields(seq(|fields|, i requires 0 <= i < |fields| => RedactField(ps, marker, fields[i]))))
    case _ => v
  }

  /** No string and no key, at any depth, holds a pattern. */
  ghost predicate JsonIsClean(ps: seq<Text>, v: Json)
    decreases v
  {
    match v
    case Str(s) => NoMatch(ps, s)
    case Arr(items) => forall i :: 0 <= i < |items| ==> JsonIsClean(ps, items[i])
    case Obj(fields) => forall i :: 0 <= i < |fields| ==> NoMatch(ps, fields[i].key) && JsonIsClean(ps, fields[i].value)
    case _ => true
  }

  // ------------------------------------------------------------------ objects

  /** Where keys are distinct, a field is inserted in place of the one with its key. */
  lemma {:induction false} InsertFieldHas(fields: seq<Field<Json>>, field: Field<Json>, x: Field<Json>)
    requires DistinctKeys(fields)
    ensures x in InsertField(fields, field) <==> x == field || (x in fields && x.key != field.key)
  {
    if fields != [] {
      assert fields == [fields[0]] + fields[1..];
      if fields[0].key == field.key {
        assert x in fields[1..] ==> x.key != field.key;
      } else {
        InsertFieldHas(fields[1..], field, x);
      }
    }
  }

  lemma {:induction false} InsertFieldIsDistinct(fields: seq<Field<Json>>, field: Field<Json>)
    requires DistinctKeys(fields)
    ensures DistinctKeys(InsertField(fields, field))
  {
    if fields != [] && fields[0].key != field.key {
      var rest := InsertField(fields[1..], field);
      InsertFieldIsDistinct(fields[1..], field);
      forall i | 0 <= i < |rest| ensures rest[i].key != fields[0].key {
        InsertFieldHas(fields[1..], field, rest[i]);
      }
    }
  }

  /** Entry `n` is the last one with its key. */
  predicate LastOfKey(fields: seq<Field<Json>>, n: nat) {
    n < |fields| && forall j :: n < j < |fields| ==> fields[j].key != fields[n].key
  }

  /** Of the entries with one key the last stays, and keys become distinct. */
  lemma {:induction false} InsertFieldsHas(fields: seq<Field<Json>>, x: Field<Json>)
    ensures DistinctKeys(InsertFields(fields))
    ensures x in InsertFields(fields) <==> exists n :: 0 <= n < |fields| && fields[n] == x && LastOfKey(fields, n)
  {
    if fields != [] {
      var m := |fields| - 1;
      var before := fields[..m];
      InsertFieldsHas(before, x);
      InsertFieldIsDistinct(InsertFields(before), fields[m]);
      InsertFieldHas(InsertFields(before), fields[m], x);
      forall n: nat | n < m ensures LastOfKey(fields, n) <==> LastOfKey(before, n) && fields[n].key != fields[m].key {
        assert before[n] == fields[n] && forall j :: n < j < m ==> before[j] == fields[j];
      }
      assert LastOfKey(fields, m);
      if x in InsertFields(before) && x.key != fields[m].key {
        var n :| 0 <= n < |before| && before[n] == x && LastOfKey(before, n);
        assert fields[n] == x && LastOfKey(fields, n);
      }
    }
  }

  lemma {:induction false} InsertFieldAppends(fields: seq<Field<Json>>, field: Field<Json>)
    requires forall i :: 0 <= i < |fields| ==> fields[i].key != field.key
    ensures InsertField(fields, field) == fields + [field]
  {
    if fields != [] {
      InsertFieldAppends(fields[1..], field);
    }
  }

  lemma {:induction false} InsertFieldsKeeps(fields: seq<Field<Json>>)
    requires DistinctKeys(fields)
    ensures InsertFields(fields) == fields
  {
    if fields != [] {
      var m := |fields| - 1;
      InsertFieldsKeeps(fields[..m]);
      InsertFieldAppends(fields[..m], fields[m]);
    }
  }

  // ----------------------------------------------------------------- theorems

  ghost function Redacted(ps: seq<Text>, marker: Text, fields: seq<Field<Json>>): seq<Field<Json>>
    requires Proper(ps)
  {
    seq(|fields|, i requires 0 <= i < |fields| => RedactField(ps, marker, fields[i]))
  }

  lemma RedactObj(ps: seq<Text>, marker: Text, fields: seq<Field<Json>>)
    requires Proper(ps)
    ensures RedactJson(ps, marker, Obj(fields)) == Obj(InsertFields(Redacted(ps, marker, fields)))
  {
    assert Redacted(ps, marker, fields)
      == seq(|fields|, i requires 0 <= i < |fields| => RedactField(ps, marker, fields[i]));
  }

  /** Nothing in a redacted value holds a credential. */
  lemma {:induction false} RedactJsonIsClean(ps: seq<Text>, v: Json)
    requires Proper(ps) && Clear(ps, RedactionMarker(ps))
    ensures JsonIsClean(ps, RedactJson(ps, RedactionMarker(ps), v))
    decreases v
  {
    var marker := RedactionMarker(ps);
    match v
    case Str(s) =>
      RedactionIsClean(ps, [], s);
    case Arr(items) =>
      forall i | 0 <= i < |items| ensures JsonIsClean(ps, RedactJson(ps, marker, items[i])) {
        RedactJsonIsClean(ps, items[i]);
      }
    case Obj(fields) =>
      RedactObj(ps, marker, fields);
      var redacted := Redacted(ps, marker, fields);
      forall x | x in InsertFields(redacted) ensures NoMatch(ps, x.key) && JsonIsClean(ps, x.value) {
        InsertFieldsHas(redacted, x);
        var n :| 0 <= n < |fields| && redacted[n] == x;
        RedactionIsClean(ps, [], fields[n].key);
        RedactJsonIsClean(ps, fields[n].value);
      }
    case _ =>
  }

  /** A redacted value is well formed. */
  lemma {:induction false} RedactJsonIsWellFormed(ps: seq<Text>, marker: Text, v: Json)
    requires Proper(ps) && WellFormed(v)
    ensures WellFormed(RedactJson(ps, marker, v))
    decreases v
  {
    match v
    case Arr(items) =>
      forall i | 0 <= i < |items| ensures WellFormed(RedactJson(ps, marker, items[i])) {
        RedactJsonIsWellFormed(ps, marker, items[i]);
      }
    case Obj(fields) =>
      RedactObj(ps, marker, fields);
      var redacted := Redacted(ps, marker, fields);
      InsertFieldsHas(redacted, Field([], Null));
      forall x | x in InsertFields(redacted) ensures WellFormed(x.value) {
        InsertFieldsHas(redacted, x);
        var n :| 0 <= n < |fields| && redacted[n] == x;
        RedactJsonIsWellFormed(ps, marker, fields[n].value);
      }
    case _ =>
  }

  /** A value without credentials is left as it is. */
  lemma {:induction false} RedactJsonKeeps(ps: seq<Text>, marker: Text, v: Json)
    requires Proper(ps) && WellFormed(v) && JsonIsClean(ps, v)
    ensures RedactJson(ps, marker, v) == v
    decreases v
  {
    match v
    case Str(s) =>
      RedactKeeps(ps, marker, s);
    case Arr(items) =>
      forall i | 0 <= i < |items| ensures RedactJson(ps, marker, items[i]) == items[i] {
        RedactJsonKeeps(ps, marker, items[i]);
      }
    case Obj(fields) =>
      RedactObj(ps, marker, fields);
      forall i | 0 <= i < |fields| ensures RedactField(ps, marker, fields[i]) == fields[i] {
        RedactKeeps(ps, marker, fields[i].key);
        RedactJsonKeeps(ps, marker, fields[i].value);
      }
      assert Redacted(ps, marker, fields) == fields;
      InsertFieldsKeeps(fields);
    case _ =>
  }
}
