/**
 * The two steps between the agent's raw reply and the dispatcher:
 * quote normalisation (`normalize_response`) and decoding
 * (`decode_response`) around an uninterpreted JSON parser.
 */
module Reply {
  import opened Wrappers
  import opened Json

  /** The JSON parser: the decoded value, or None where json.loads raises JSONDecodeError. */
  type Parser = string -> Option<Json>

  /** The message decoding substitutes for a reply that is not valid JSON. */
  const InvalidFormat := "Invalid response format. Please ensure the model outputs valid JSON."

  /** Every single quote becomes a double quote; nothing else changes. */
  function Normalize(s: string): (r: string)
    ensures |r| == |s|
    ensures forall i :: 0 <= i < |s| ==> r[i] == if s[i] == '\'' then '"' else s[i]
    ensures '\'' !in r
  {
    if s == [] then []
    else [if s[0] == '\'' then '"' else s[0]] + Normalize(s[1..])
  }

  /** Normalizing an already normalized reply changes nothing. */
  lemma NormalizeIdempotent(s: string)
    ensures Normalize(Normalize(s)) == Normalize(s)
  {
    NormalizeFixedPoint(Normalize(s));
  }

  /** A reply is left as it is exactly when it holds no single quote. */
  lemma NormalizeFixedPoint(s: string)
    ensures Normalize(s) == s <==> '\'' !in s
  {
    if '\'' !in s {
      assert forall i :: 0 <= i < |s| ==> Normalize(s)[i] == s[i];
    }
  }

  /** Normalization works character by character, so it distributes over concatenation. */
  lemma NormalizeAppend(a: string, b: string)
    ensures Normalize(a + b) == Normalize(a) + Normalize(b)
  {
    var whole, parts := Normalize(a + b), Normalize(a) + Normalize(b);
    forall i | 0 <= i < |whole| ensures whole[i] == parts[i] {
      if i < |a| {
        assert (a + b)[i] == a[i];
      } else {
        assert (a + b)[i] == b[i - |a|];
      }
    }
  }

  /**
   * A Python-style one-member reply `{'k': 'v'}` becomes the JSON text
   * `{"k": "v"}` when neither k nor v holds a quote, so `{'answer': 'hi'}`
   * becomes `{"answer": "hi"}`.
   */
  lemma NormalizeDictReply(k: string, v: string)
    requires '\'' !in k && '\'' !in v
    ensures Normalize("{'" + k + "': '" + v + "'}") == "{\"" + k + "\": \"" + v + "\"}"
  {
    NormalizeFixedPoint(k);
    NormalizeFixedPoint(v);
    assert Normalize("{'") == "{\"";
    assert Normalize("': '") == "\": \"";
    assert Normalize("'}") == "\"}";
    NormalizeAppend("{'", k);
    NormalizeAppend("{'" + k, "': '");
    NormalizeAppend("{'" + k + "': '", v);
    NormalizeAppend("{'" + k + "': '" + v, "'}");
  }

  /** The object decoding returns when the reply does not parse. */
  function InvalidReply(): (r: Json)
    ensures r.JObject? && Lookup(r.members, "error") == Some(JString(InvalidFormat))
  {
    JObject([("error", JString(InvalidFormat))])
  }

  /** The parsed value, or the fixed error object when parsing fails; never raises. */
  function Decode(parse: Parser, reply: string): (r: Json)
    ensures parse(reply).Some? ==> r == parse(reply).value
    ensures parse(reply).None? ==> r == JObject([("error", JString(InvalidFormat))])
  {
    match parse(reply)
    case Some(v) => v
    case None => InvalidReply()
  }

  /** A reply that does not parse decodes to a dict whose only key is "error". */
  lemma DecodeFailureIsErrorOnly(parse: Parser, reply: string)
    requires parse(reply).None?
    ensures Decode(parse, reply).JObject?
    ensures Lookup(Decode(parse, reply).members, "error") == Some(JString(InvalidFormat))
    ensures forall k :: k != "error" ==> Lookup(Decode(parse, reply).members, k).None?
  {
  }
}
