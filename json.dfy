/**
 * Decoded JSON values as Python's json.loads hands them to the
 * application (except floats, which are not modelled), together with
 * the few Python operations on them that the dispatch code performs: `v[key]`, `v[i]`, `for x in v` and hashing a
 * value used as a dict key.
 */
module Json {
  import opened Wrappers

  /** None, bool, int, str, list and dict (no float); a dict keeps its members in document order. */
  datatype Json =
    | JNull
    | JBool(b: bool)
    | JInt(i: int)
    | JString(s: string)
    | JArray(items: seq<Json>)
    | JObject(members: seq<(string, Json)>)

  /** The Python exceptions that the modelled code raises or catches. */
  datatype PyError =
    | ValueError(message: string)
    | IndexError
    | KeyError(key: Json)
    | TypeError

  /**
   * The value bound to `key` in a decoded dict. When the document repeats
   * a key, json.loads keeps the last binding, and so does Lookup.
   */
  function Lookup(members: seq<(string, Json)>, key: string): (r: Option<Json>)
    ensures r.None? <==> forall i :: 0 <= i < |members| ==> members[i].0 != key
    ensures r.Some? ==>
      exists i :: 0 <= i < |members| && members[i] == (key, r.value) &&
        forall j :: i < j < |members| ==> members[j].0 != key
  {
    if members == [] then None
    else if members[|members| - 1].0 == key then Some(members[|members| - 1].1)
    else Lookup(members[..|members| - 1], key)
  }

  /**
   * The distinct keys of a dict in first-insertion order: what `for k in d`
   * visits (KeysOrder states the order).
   */
  function Keys(members: seq<(string, Json)>): (ks: seq<string>)
    ensures forall k :: k in ks <==> exists i :: 0 <= i < |members| && members[i].0 == k
    ensures forall i, j :: 0 <= i < j < |ks| ==> ks[i] != ks[j]
  {
    if members == [] then []
    else
      var ks := Keys(members[..|members| - 1]);
      var k := members[|members| - 1].0;
      if k in ks then ks else ks + [k]
  }

  /**
   * Keys come in the order of their first occurrence: the keys of any
   * prefix of the document are a prefix of the keys of the whole, and a
   * repeated key keeps its first position.
   */
  lemma {:induction false} KeysOrder(members: seq<(string, Json)>, n: nat)
    requires n <= |members|
    ensures Keys(members[..n]) <= Keys(members)
    decreases |members| - n
  {
    if n < |members| {
      var init := members[..|members| - 1];
      assert init[..n] == members[..n];
      KeysOrder(init, n);
      assert Keys(init) <= Keys(members);
    } else {
      assert members[..n] == members;
    }
  }

  /** `v[key]` with a string key: a dict lookup; every other value is not subscriptable by a string. */
  function Subscript(v: Json, key: string): (r: Result<Json, PyError>)
    ensures r.Ok? <==> v.JObject? && Lookup(v.members, key).Some?
    ensures r.Ok? ==> r.value == Lookup(v.members, key).value
    ensures r.Err? ==> r.error == if v.JObject? then KeyError(JString(key)) else TypeError
  {
    match v
    case JObject(members) =>
      (match Lookup(members, key)
       case Some(x) => Ok(x)
       case None => Err(KeyError(JString(key))))
    case _ => Err(TypeError)
  }

  /**
   * `v[i]` with a non-negative int index: a list element or a one-character
   * string; a dict has no int keys (JSON keys are strings); None, bool and
   * int are not subscriptable.
   */
  function At(v: Json, i: nat): (r: Result<Json, PyError>)
    ensures r.Ok? <==> (v.JArray? && i < |v.items|) || (v.JString? && i < |v.s|)
    ensures v.JArray? && i < |v.items| ==> r == Ok(v.items[i])
    ensures v.JString? && i < |v.s| ==> r == Ok(JString([v.s[i]]))
    ensures r.Err? ==> r.error == if v.JArray? || v.JString? then IndexError else if v.JObject? then KeyError(JInt(i)) else TypeError
  {
    match v
    case JArray(items) => if i < |items| then Ok(items[i]) else Err(IndexError)
    case JString(s) => if i < |s| then Ok(JString([s[i]])) else Err(IndexError)
    case JObject(_) => Err(KeyError(JInt(i)))
    case _ => Err(TypeError)
  }

  /** The one-character strings of `s`, in order: what `for c in s` visits. */
  function Chars(s: string): (r: seq<Json>)
    ensures |r| == |s|
    ensures forall k :: 0 <= k < |s| ==> r[k] == JString([s[k]])
  {
    if s == [] then [] else [JString([s[0]])] + Chars(s[1..])
  }

  /** The elements `for x in v` visits: list items, characters or dict keys; other values are not iterable. */
  function Iterate(v: Json): (r: Result<seq<Json>, PyError>)
    ensures r.Err? <==> v.JNull? || v.JBool? || v.JInt?
    ensures r.Err? ==> r.error == TypeError
    ensures v.JArray? ==> r == Ok(v.items)
    ensures v.JString? ==> r == Ok(Chars(v.s))
    ensures v.JObject? ==>
      r.Ok? && |r.value| == |Keys(v.members)| &&
      forall k :: 0 <= k < |r.value| ==> r.value[k] == JString(Keys(v.members)[k])
  {
    match v
    case JArray(items) => Ok(items)
    case JString(s) => Ok(Chars(s))
    case JObject(members) => Ok(seq(|Keys(members)|, k requires 0 <= k < |Keys(members)| => JString(Keys(members)[k])))
    case _ => Err(TypeError)
  }

  /** Lists and dicts are unhashable and cannot be dict keys. */
  predicate Hashable(v: Json) {
    !v.JArray? && !v.JObject?
  }

  /** The number a string of decimal digits denotes. */
  function DigitsValue(r: string): nat
    requires forall k :: 0 <= k < |r| ==> '0' <= r[k] <= '9'
  {
    if r == [] then 0
    else 10 * DigitsValue(r[..|r| - 1]) + (r[|r| - 1] - '0') as nat
  }

  /** Decimal digits of a natural number, without leading zeros. */
  function NatToString(n: nat): (r: string)
    ensures |r| >= 1
    ensures forall k :: 0 <= k < |r| ==> '0' <= r[k] <= '9'
    ensures DigitsValue(r) == n
    ensures |r| > 1 ==> r[0] != '0'
  {
    if n < 10 then ['0' + n as char]
    else NatToString(n / 10) + ['0' + (n % 10) as char]
  }

  /**
   * Python's `str(v)` for the scalar values. The str of a list or dict is
   * Python's repr of it, which is not modelled.
   */
  function ScalarStr(v: Json): (r: Option<string>)
    ensures r.Some? <==> Hashable(v)
    ensures v.JString? ==> r == Some(v.s)
  {
    match v
    case JNull => Some("None")
    case JBool(b) => Some(if b then "True" else "False")
    case JInt(i) => Some(if i < 0 then "-" + NatToString(-i) else NatToString(i))
    case JString(s) => Some(s)
    case _ => None
  }
}
