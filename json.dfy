/** JSON values, the shape `JSON.stringify` is applied to. Objects keep their
    members in insertion order, as JavaScript object literals do. */
module Json {
  import opened Wrappers

  datatype Json =
    | JNull
    | JBool(b: bool)
    | JNumber(n: int)
    | JString(s: string)
    | JArray(items: seq<Json>)
    | JObject(members: seq<(string, Json)>)

  /** The value of the first member named `key`. */
  function Lookup(members: seq<(string, Json)>, key: string): (r: Option<Json>)
    ensures r.Some? ==> exists i :: 0 <= i < |members| && members[i] == (key, r.value)
    ensures r.None? ==> forall i :: 0 <= i < |members| ==> members[i].0 != key
  {
    if members == [] then None
    else if members[0].0 == key then Some(members[0].1)
    else Lookup(members[1..], key)
  }

  /** No two members share a name. */
  predicate DistinctKeys(members: seq<(string, Json)>) {
    forall i, j :: 0 <= i < j < |members| ==> members[i].0 != members[j].0
  }

  /** Encodes each element, keeping the order (an array's items). */
  function EncodeAll<T>(xs: seq<T>, encode: T -> Json): (js: seq<Json>)
    ensures |js| == |xs|
    ensures forall i :: 0 <= i < |xs| ==> js[i] == encode(xs[i])
  {
    seq(|xs|, i requires 0 <= i < |xs| => encode(xs[i]))
  }

  /** Decodes each item; None as soon as one item does not decode. */
  function DecodeAll<T>(js: seq<Json>, decode: Json -> Option<T>): (r: Option<seq<T>>)
    ensures r.Some? ==> |r.value| == |js|
    decreases |js|
  {
    if js == [] then Some([])
    else
      match decode(js[0])
      case None => None
      case Some(x) =>
        match DecodeAll(js[1..], decode)
        case None => None
        case Some(rest) => Some([x] + rest)
  }

  /** An element-wise round trip lifts to arrays. */
  lemma {:induction false} DecodeAllEncodeAll<T>(xs: seq<T>, encode: T -> Json, decode: Json -> Option<T>)
    requires forall x :: decode(encode(x)) == Some(x)
    ensures DecodeAll(EncodeAll(xs, encode), decode) == Some(xs)
    decreases |xs|
  {
    if xs != [] {
      var js := EncodeAll(xs, encode);
      assert js[1..] == EncodeAll(xs[1..], encode);
      DecodeAllEncodeAll(xs[1..], encode, decode);
      assert [xs[0]] + xs[1..] == xs;
    }
  }
}
