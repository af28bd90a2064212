/**
  Untyped JSON values, as `JSON.parse` and `request.json()` hand them to the
  schema checks, and the typed accessors those checks are built from.
  Numbers are exact reals: the model does not round to IEEE doubles.
 */
module Json {
  import opened Wrappers

  datatype Json =
    | JNull
    | JBool(b: bool)
    | JNumber(n: real)
    | JString(s: string)
    | JArray(items: seq<Json>)
    | JObject(fields: map<string, Json>)

  /** A schema mismatch, reported at the key where the first one was found. */
  datatype SchemaError = SchemaError(key: string)

  /** The string under `key` of an object (zod's `z.string()` on that key). */
  function StringAt(j: Json, key: string): (r: Result<string, SchemaError>)
    ensures r.Success? <==> j.JObject? && key in j.fields && j.fields[key].JString?
    ensures r.Success? ==> j.fields[key] == JString(r.value)
  {
    if j.JObject? && key in j.fields && j.fields[key].JString? then Success(j.fields[key].s)
    else Failure(SchemaError(key))
  }

  /** The number under `key` of an object (zod's `z.number()` on that key). */
  function NumberAt(j: Json, key: string): (r: Result<real, SchemaError>)
    ensures r.Success? <==> j.JObject? && key in j.fields && j.fields[key].JNumber?
    ensures r.Success? ==> j.fields[key] == JNumber(r.value)
  {
    if j.JObject? && key in j.fields && j.fields[key].JNumber? then Success(j.fields[key].n)
    else Failure(SchemaError(key))
  }

  /** The boolean under `key` of an object (zod's `z.boolean()` on that key). */
  function BoolAt(j: Json, key: string): (r: Result<bool, SchemaError>)
    ensures r.Success? <==> j.JObject? && key in j.fields && j.fields[key].JBool?
    ensures r.Success? ==> j.fields[key] == JBool(r.value)
  {
    if j.JObject? && key in j.fields && j.fields[key].JBool? then Success(j.fields[key].b)
    else Failure(SchemaError(key))
  }

  /** The elements of the array under `key` of an object (zod's `z.array(...)` before its element checks). */
  function ArrayAt(j: Json, key: string): (r: Result<seq<Json>, SchemaError>)
    ensures r.Success? <==> j.JObject? && key in j.fields && j.fields[key].JArray?
    ensures r.Success? ==> j.fields[key] == JArray(r.value)
  {
    if j.JObject? && key in j.fields && j.fields[key].JArray? then Success(j.fields[key].items)
    else Failure(SchemaError(key))
  }

  /** The value under `key`, whatever it is (a nested object schema checks it further). */
  function MemberAt(j: Json, key: string): (r: Result<Json, SchemaError>)
    ensures r.Success? <==> j.JObject? && key in j.fields
    ensures r.Success? ==> j.fields[key] == r.value
  {
    if j.JObject? && key in j.fields then Success(j.fields[key]) else Failure(SchemaError(key))
  }

  /** zod's `z.array(z.string())` on the elements of an array found under `key`. */
  function Strings(items: seq<Json>, key: string): (r: Result<seq<string>, SchemaError>)
    ensures r.Success? <==> forall i :: 0 <= i < |items| ==> items[i].JString?
    ensures r.Success? ==> StringsToJson(r.value) == JArray(items)
  {
    if items == [] then Success([])
    else
      var first :- if items[0].JString? then Success(items[0].s) else Failure(SchemaError(key));
      var rest :- Strings(items[1..], key);
      assert items == [items[0]] + items[1..];
      Success([first] + rest)
  }

  function StringsToJson(ss: seq<string>): (j: Json)
    ensures j.JArray? && |j.items| == |ss|
    ensures forall i :: 0 <= i < |ss| ==> j.items[i] == JString(ss[i])
  {
    JArray(seq(|ss|, i requires 0 <= i < |ss| => JString(ss[i])))
  }

  /** Strings gives back exactly the list that was encoded. */
  lemma StringsOfEncoding(ss: seq<string>, key: string)
    ensures Strings(StringsToJson(ss).items, key) == Success(ss)
  {
    var items := StringsToJson(ss).items;
    assert forall i :: 0 <= i < |items| ==> items[i].JString?;
    var r := Strings(items, key);
    assert |r.value| == |ss|;
    assert forall i :: 0 <= i < |ss| ==> JString(r.value[i]) == items[i] == JString(ss[i]);
    assert r.value == ss;
  }

  /** The list of strings under `key` (`z.array(z.string())`). */
  function StringListAt(j: Json, key: string): (r: Result<seq<string>, SchemaError>)
    ensures r.Success? ==> j.JObject? && key in j.fields && j.fields[key] == StringsToJson(r.value)
  {
    var items :- ArrayAt(j, key);
    Strings(items, key)
  }

  /** A field holding an encoded string list is read back as that list. */
  lemma StringListAccepted(j: Json, key: string, ss: seq<string>)
    requires j.JObject? && key in j.fields && j.fields[key] == StringsToJson(ss)
    ensures StringListAt(j, key) == Success(ss)
  {
    StringsOfEncoding(ss, key);
  }

  /** `s` holds `t` at position `i`. */
  predicate OccursAt(s: string, t: string, i: int)
  {
    0 <= i && i + |t| <= |s| && s[i..i + |t|] == t
  }

  /** JavaScript's `s.includes(t)`. */
  predicate Contains(s: string, t: string)
  {
    exists i :: 0 <= i <= |s| - |t| && OccursAt(s, t, i)
  }

  lemma ContainsSelf(s: string)
    ensures Contains(s, s)
  {
    assert OccursAt(s, s, 0);
  }

  /** Text found in `s` is found in anything `s` sits inside. */
  lemma ContainsWithin(x: string, s: string, y: string, t: string)
    requires Contains(s, t)
    ensures Contains(x + s + y, t)
  {
    var i :| 0 <= i <= |s| - |t| && OccursAt(s, t, i);
    assert (x + s + y)[|x| + i..|x| + i + |t|] == s[i..i + |t|];
    assert OccursAt(x + s + y, t, |x| + i);
  }

  lemma ContainsTransitive(s: string, t: string, u: string)
    requires Contains(s, t) && Contains(t, u)
    ensures Contains(s, u)
  {
    var i :| 0 <= i <= |s| - |t| && OccursAt(s, t, i);
    var k :| 0 <= k <= |t| - |u| && OccursAt(t, u, k);
    assert s[i..i + |t|] == t;
    forall m | 0 <= m < |u| ensures s[i + k + m] == u[m] {
      assert s[i + k + m] == s[i..i + |t|][k + m] == t[k + m];
      assert t[k..k + |u|][m] == t[k + m];
    }
    assert s[i + k..i + k + |u|] == u;
    assert OccursAt(s, u, i + k);
  }

  /** A character of `t` that `s` lacks keeps `t` out of `s`. */
  lemma AbsentCharNotContained(s: string, t: string, c: char)
    requires c in t && c !in s
    ensures !Contains(s, t)
  {
    forall i | 0 <= i <= |s| - |t| ensures !OccursAt(s, t, i) {
      assert forall x :: x in s[i..i + |t|] ==> x in s;
    }
  }

  /** JavaScript's `s.endsWith(t)`. */
  predicate EndsWith(s: string, t: string)
  {
    |t| <= |s| && s[|s| - |t|..] == t
  }
}
