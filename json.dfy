/** Decoded JSON documents, as the webhook body arrives after `req.json()`. */
module JsonValues {
  import opened Wrappers

  /** A JSON value; numbers are modelled as reals, objects as maps from key to value. */
  datatype Json =
    | JNull
    | JBool(b: bool)
    | JNum(num: real)
    | JStr(str: string)
    | JArr(items: seq<Json>)
    | JObj(fields: map<string, Json>)

  /** A sequence of object keys leading from the root of a document to one of its values. */
  type Path = seq<string>

  /** The member `k` of an object, or None when the key is absent. */
  function Field(o: map<string, Json>, k: string): Option<Json>
  {
    if k in o then Some(o[k]) else None
  }

  /** The value reached by following `path` through nested objects, or None when some key is absent. */
  function At(j: Json, path: Path): Option<Json>
    decreases |path|
  {
    if |path| == 0 then Some(j)
    else if j.JObj? && path[0] in j.fields then At(j.fields[path[0]], path[1..])
    else None
  }

  /** The value is absent or the literal `null`: both mean "no data" for an optional field. */
  predicate Nullish(v: Option<Json>)
  {
    v.None? || v.value.JNull?
  }

  predicate IsNumber(v: Option<Json>)
  {
    v.Some? && v.value.JNum?
  }

  predicate IsString(v: Option<Json>)
  {
    v.Some? && v.value.JStr?
  }

  predicate IsObject(v: Option<Json>)
  {
    v.Some? && v.value.JObj?
  }

  /** Whether a real is a whole number (JavaScript's `Number.isInteger`). */
  predicate IsInteger(x: real)
  {
    x.Floor as real == x
  }

  /** Looking up a one-key path is looking up the key. */
  lemma AtOne(j: Json, a: string)
    ensures At(j, [a]) == if j.JObj? then Field(j.fields, a) else None
  {
    assert [a][1..] == [];
  }

  /** Looking up a two-key path is looking up each key in turn. */
  lemma {:induction false} AtTwo(j: Json, a: string, b: string)
    ensures At(j, [a, b]) ==
      (if j.JObj? && a in j.fields && j.fields[a].JObj? && b in j.fields[a].fields
       then Some(j.fields[a].fields[b]) else None)
  {
    assert [a, b][1..] == [b];
    assert [b][1..] == [];
    if j.JObj? && a in j.fields {
      var v := j.fields[a];
      assert At(j, [a, b]) == At(v, [b]);
      assert At(v, [b]) == if v.JObj? && b in v.fields then At(v.fields[b], []) else None;
    }
  }

  /** Looking up a three-key path is looking up the first key, then the remaining two. */
  lemma {:induction false} AtThree(j: Json, a: string, b: string, c: string)
    ensures At(j, [a, b, c]) ==
      (if j.JObj? && a in j.fields then At(j.fields[a], [b, c]) else None)
  {
    assert [a, b, c][1..] == [b, c];
  }
}
