/**
  JSON values as Python's `json` module and the browser hand them over, and
  Python dicts with string keys.  A dict is kept as the sequence of its items
  in insertion order, because the order decides which of two colliding keys
  wins when the dict is rebuilt (see Responses.LowerHeaders).
*/
module JsonValues {
  import opened Wrappers

  /** A JSON value; floating-point numbers are not modelled. */
  datatype Json =
    | JNull
    | JBool(b: bool)
    | JNum(n: int)
    | JStr(s: string)
    | JArray(elements: seq<Json>)
    | JObject(fields: seq<(string, Json)>)

  /** A dict with string keys, as its items in insertion order. */
  type Items = seq<(string, Json)>

  /** `d.get(k)`: the value stored under `k`, if any. */
  function Get(d: Items, k: string): (r: Option<Json>)
    ensures r.Some? <==> k in KeySet(d)
    ensures r.Some? ==> (k, r.value) in d
  {
    if d == [] then None
    else if d[0].0 == k then Some(d[0].1)
    else Get(d[1..], k)
  }

  /** `d.keys()` as a set. */
  function KeySet(d: Items): set<string>
  {
    set i | 0 <= i < |d| :: d[i].0
  }

  /** `d.get(k, default)`. */
  function GetOr(d: Items, k: string, default: Json): Json
  {
    match Get(d, k)
    case Some(v) => v
    case None => default
  }

  /** Python's truth value of a JSON value (`if value:`). */
  predicate Truthy(j: Json)
  {
    match j
    case JNull => false
    case JBool(b) => b
    case JNum(n) => n != 0
    case JStr(s) => s != ""
    case JArray(xs) => xs != []
    case JObject(fs) => fs != []
  }

  /** `list(d.keys())`, in insertion order. */
  function Keys(d: Items): (ks: seq<string>)
    ensures |ks| == |d|
    ensures forall i :: 0 <= i < |d| ==> ks[i] == d[i].0
  {
    seq(|d|, i requires 0 <= i < |d| => d[i].0)
  }

  /** `k in d`. */
  predicate HasKey(d: Items, k: string)
  {
    k in KeySet(d)
  }

  /** A real Python dict never holds a key twice. */
  predicate DistinctKeys(d: Items)
  {
    forall i, j :: 0 <= i < j < |d| ==> d[i].0 != d[j].0
  }

  /** `d.pop(k, None)`: the dict without key `k`. */
  function RemoveKey(d: Items, k: string): (r: Items)
    ensures k !in KeySet(r)
    ensures forall x :: x in r <==> x in d && x.0 != k
  {
    if d == [] then []
    else (if d[0].0 == k then [] else [d[0]]) + RemoveKey(d[1..], k)
  }

  /**
    Removing a key distributes over concatenation, so the items that remain
    keep their relative order.
  */
  lemma {:induction false} RemoveKeyAppend(a: Items, b: Items, k: string)
    ensures RemoveKey(a + b, k) == RemoveKey(a, k) + RemoveKey(b, k)
  {
    if a == [] {
      assert a + b == b;
    } else {
      assert (a + b)[1..] == a[1..] + b;
      RemoveKeyAppend(a[1..], b, k);
    }
  }
}
