/**
 * The JSON values the SDK hands to the HTTP layer. C# anonymous objects and
 * `Dictionary<string, object>` values both become `JObject`; `IEnumerable`
 * projections become `JArray`, in their element order.
 */
module Json {
  import opened Wrappers

  datatype Json =
    | JString(str: string)
    | JBool(b: bool)
    | JArray(items: seq<Json>)
    | JObject(fields: map<string, Json>)

  /** The keys of an object, or none for any other value. */
  function Keys(j: Json): set<string>
  {
    if j.JObject? then j.fields.Keys else {}
  }

  /** The string member `key` of object `j`, if it has one. */
  function StringMember(j: Json, key: string): Option<string>
  {
    if j.JObject? && key in j.fields && j.fields[key].JString? then Some(j.fields[key].str) else None
  }

  /** The boolean member `key` of object `j`, if it has one. */
  function BoolMember(j: Json, key: string): Option<bool>
  {
    if j.JObject? && key in j.fields && j.fields[key].JBool? then Some(j.fields[key].b) else None
  }

  /** A string member read as a property initialised to `""` would hold it: "" when absent. */
  function StringMemberOrEmpty(j: Json, key: string): string
  {
    var s := StringMember(j, key);
    if s.Some? then s.value else ""
  }

  /** What survives a `!string.IsNullOrEmpty` guard on the way out and a
      deserialisation on the way back: an empty string comes back as null. */
  function NullIfEmpty(s: Option<string>): (r: Option<string>)
    ensures r.Some? ==> r.value != ""
    ensures s.Some? && s.value != "" ==> r == s
  {
    if s.Some? && s.value == "" then None else s
  }

  /** `xs.Select(f)`: the projection, in order. */
  function MapSeq<S, T>(xs: seq<S>, f: S -> T): (r: seq<T>)
    ensures |r| == |xs|
    ensures forall i :: 0 <= i < |xs| ==> r[i] == f(xs[i])
  {
    seq(|xs|, i requires 0 <= i < |xs| => f(xs[i]))
  }

  /** Reads every element of an array with `decode`; fails if any element does. */
  function DecodeEach<T>(js: seq<Json>, decode: Json -> Option<T>): (r: Option<seq<T>>)
    ensures r.Some? ==> |r.value| == |js|
  {
    if js == [] then Some([])
    else
      var head := decode(js[0]);
      var tail := DecodeEach(js[1..], decode);
      if head.Some? && tail.Some? then Some([head.value] + tail.value) else None
  }

  /** Decoding an array element by element undoes encoding it element by
      element, whenever that holds of each element. */
  lemma {:induction false} DecodeEachInverts<S, T>(xs: seq<S>, encode: S -> Json, decode: Json -> Option<T>, normal: S -> T)
    requires forall i :: 0 <= i < |xs| ==> decode(encode(xs[i])) == Some(normal(xs[i]))
    ensures DecodeEach(MapSeq(xs, encode), decode) == Some(MapSeq(xs, normal))
  {
    if xs != [] {
      DecodeEachInverts(xs[1..], encode, decode, normal);
      assert MapSeq(xs, encode)[1..] == MapSeq(xs[1..], encode);
      assert MapSeq(xs, normal) == [normal(xs[0])] + MapSeq(xs[1..], normal);
    }
  }
}
