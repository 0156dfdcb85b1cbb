/** YIELD (tag 70) of the newer codec: a callee hands the result of an
    invocation back to the dealer. Wire form `[70, request_id, options, args?, kwargs?]`. */
module CoreYield {
  import opened Json
  import opened Wire

  const ID: U64 := 70

  datatype Yield = Yield(requestId: U64, options: JValue, args: JValue, kwargs: JValue)

  /** Only the callee sends YIELD and only the dealer receives it. */
  function Direction(role: Role): (d: MessageDirection)
    ensures d.sends <==> role == Callee
    ensures d.receives <==> role == Dealer
  {
    match role
    case Callee => MessageDirection(false, true)
    case Dealer => MessageDirection(true, false)
    case _ => MessageDirection(false, false)
  }

  /** The fixed fields in wire order. */
  function Fixed(m: Yield): Frame {
    [JNum(ID), JNum(m.requestId), m.options]
  }

  /** Serialisation: options must be an object, args an array or null, kwargs
      an object or null; the fixed fields are followed by the elided payload. */
  function Encode(m: Yield): (r: Result<Frame, CodecError>)
    ensures r.Ok? <==> m.options.JObj? && IsArgsShaped(m.args) && IsKwargsShaped(m.kwargs)
    ensures !m.options.JObj? ==> r == Err(Custom("options must be object like."))
    ensures r.Ok? ==> r.value == Fixed(m) + ArgsKwargsTail(m.args, m.kwargs)
  {
    var options :- SerValueIsObject(m.options, "options must be object like.");
    var args :- SerValueIsArgs(m.args, "Args must be Array like or Null.");
    var kwargs :- SerValueIsKwargs(m.kwargs, "Kwargs must be Object like or Null.");
    Ok([JNum(ID), JNum(m.requestId), options] + ArgsKwargsTail(args, kwargs))
  }

  /** Deserialisation, reading the elements in the order the visitor does. */
  function Decode(s: Frame, missing: MissingTrailing): (r: Result<Yield, CodecError>)
    ensures r.Ok? ==> 3 <= |s| <= 5 && s[..3] == Fixed(r.value) && r.value.options.JObj?
    ensures r.Ok? ==> IsArgsShaped(r.value.args) && IsKwargsShaped(r.value.kwargs)
    ensures 0 < |s| && IsU64(s[0]) && s[0].n != ID ==> r == Err(InvalidId("Yield", s[0].n, ID))
    ensures 2 < |s| && s[0] == JNum(ID) && IsU64(s[1]) && !s[2].JObj? ==> r == Err(Custom("options must be object like."))
  {
    var id :- ReadU64(s, 0, "Message ID must be present and type u8.");
    var _ :- ValidateId(id, ID, "Yield");
    var requestId :- ReadU64(s, 1, "Request ID must be present and type u64.");
    var options :- DeserSeqElement(s, 2, "options must be present and object like.");
    var _ :- DeserValueIsObject(options, "options must be object like.");
    var tail :- DeserElidedTail(s, 3, missing);
    Ok(Yield(requestId, options, tail.args, tail.kwargs))
  }

  /** Decoding what the encoder wrote gives the message back, except that null
      args before present kwargs come back as the `[]` placeholder. */
  lemma {:induction false} RoundTrip(m: Yield, missing: MissingTrailing)
    requires Encode(m).Ok?
    requires missing == DecodeAsNull || !m.kwargs.JNull?
    ensures Decode(Encode(m).value, missing) == Ok(m.(args := ArgsAfterElision(m.args, m.kwargs)))
  {
    ElidedTailRoundTrip(Fixed(m), m.args, m.kwargs, missing);
  }

  /** A decoded message re-encodes to exactly the frame it came from if and
      only if that frame's payload part holds no null. */
  lemma {:induction false} DecodeEncode(s: Frame, missing: MissingTrailing)
    requires Decode(s, missing).Ok?
    ensures Encode(Decode(s, missing).value).Ok?
    ensures Encode(Decode(s, missing).value) == Ok(s) <==> forall k :: 3 <= k < |s| ==> !s[k].JNull?
  {
    ElidedTailCanonical(s, 3, missing);
    assert s == s[..3] + s[3..];
  }

  /** The source's sample: the frame with an empty args array does not decode
      to the record with null args, it decodes to the record with `[]`, which
      re-encodes to the same frame. */
  lemma Sample(missing: MissingTrailing)
    ensures var kw := JObj(map["karma" := JNum(10), "userid" := JNum(123)]);
            var s := [JNum(70), JNum(6131533), EmptyObject, EmptyArray, kw];
            Decode(s, missing) != Ok(Yield(6131533, EmptyObject, JNull, kw))
            && Decode(s, missing) == Ok(Yield(6131533, EmptyObject, EmptyArray, kw))
            && Encode(Yield(6131533, EmptyObject, EmptyArray, kw)) == Ok(s)
  {
    var kw := JObj(map["karma" := JNum(10), "userid" := JNum(123)]);
    var m := Yield(6131533, EmptyObject, EmptyArray, kw);
    RoundTrip(m, missing);
    assert Encode(m).value == [JNum(70), JNum(6131533), EmptyObject, EmptyArray, kw];
  }
}
