/**
 * JavaScript values as the record classes write them into, and read them
 * from, plain JSON objects. `undefined` is kept apart from `null`: a
 * missing property reads as `undefined`, and a field the record never
 * assigned is `undefined` as well.
 */
module JsonValues {

  datatype Option<+T> = None | Some(value: T)

  datatype Json =
    | JUndefined
    | JNull
    | JBool(b: bool)
    | JNum(n: int)
    | JStr(s: string)
    | JArr(items: seq<Json>)
    | JObj(fields: map<string, Json>)

  /** Values whose properties can be read; reading a property of `null` or `undefined` throws a TypeError. */
  predicate HasProperties(v: Json) {
    !v.JUndefined? && !v.JNull?
  }

  /** `v.key`: the property's value, or `undefined` when `v` has no such property. */
  function Field(v: Json, key: string): Json
    requires HasProperties(v)
  {
    if v.JObj? && key in v.fields then v.fields[key] else JUndefined
  }

  /** String concatenation of a possibly undefined string, as `+` performs it. */
  function Str(s: Option<string>): string {
    if s.Some? then s.value else "undefined"
  }

  // Writing a typed field into a JSON object: an unset field becomes `undefined`.

  function OfString(s: Option<string>): Json {
    if s.Some? then JStr(s.value) else JUndefined
  }

  function OfInt(n: Option<int>): Json {
    if n.Some? then JNum(n.value) else JUndefined
  }

  function OfBool(b: Option<bool>): Json {
    if b.Some? then JBool(b.value) else JUndefined
  }

  function OfInts(s: seq<int>): (items: seq<Json>)
    ensures |items| == |s|
    ensures forall i :: 0 <= i < |s| ==> items[i] == JNum(s[i])
  {
    seq(|s|, i requires 0 <= i < |s| => JNum(s[i]))
  }

  function OfIntArray(s: Option<seq<int>>): Json {
    if s.Some? then JArr(OfInts(s.value)) else JUndefined
  }

  // Reading a typed field back: a value of another type reads as unset.

  function ReadString(v: Json): Option<string> {
    if v.JStr? then Some(v.s) else None
  }

  function ReadInt(v: Json): Option<int> {
    if v.JNum? then Some(v.n) else None
  }

  function ReadBool(v: Json): Option<bool> {
    if v.JBool? then Some(v.b) else None
  }

  /** The numbers of an array all of whose elements are numbers. */
  function ReadInts(items: seq<Json>): (r: Option<seq<int>>)
    ensures r.Some? <==> forall i :: 0 <= i < |items| ==> items[i].JNum?
    ensures r.Some? ==> |r.value| == |items| && forall i :: 0 <= i < |items| ==> items[i] == JNum(r.value[i])
    decreases |items|
  {
    if |items| == 0 then Some([])
    else if !items[0].JNum? then None
    else
      var rest := ReadInts(items[1..]);
      if rest.None? then None else Some([items[0].n] + rest.value)
  }

  function ReadIntArray(v: Json): Option<seq<int>> {
    if v.JArr? then ReadInts(v.items) else None
  }

  /** Writing an array of numbers and reading it back gives the array. */
  lemma IntArrayRoundTrip(s: Option<seq<int>>)
    ensures ReadIntArray(OfIntArray(s)) == s
  {
    if s.Some? {
      var r := ReadInts(OfInts(s.value));
      assert r.Some?;
      assert r.value == s.value;
    }
  }

  /** An array of numbers read and written again is the same array; anything else reads as unset. */
  lemma IntArrayReadBack(v: Json)
    ensures (v.JArr? && forall i :: 0 <= i < |v.items| ==> v.items[i].JNum?) ==> OfIntArray(ReadIntArray(v)) == v
    ensures !(v.JArr? && forall i :: 0 <= i < |v.items| ==> v.items[i].JNum?) ==> ReadIntArray(v).None?
  {
    if v.JArr? && forall i :: 0 <= i < |v.items| ==> v.items[i].JNum? {
      var r := ReadInts(v.items);
      assert OfInts(r.value) == v.items;
    }
  }
}
