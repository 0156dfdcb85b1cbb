/** CALL (tag 48) of the newer codec: a caller asks the dealer to run a
    procedure. Wire form `[48, request_id, options, procedure, args?, kwargs?]`. */
module CoreCall {
  import opened Json
  import opened Wire

  const ID: U64 := 48

  datatype Call = Call(requestId: U64, options: JValue, procedure: string, args: JValue, kwargs: JValue)

  /** Only callers and dealers send CALL; the table lists no receiver. */
  function Direction(role: Role): (d: MessageDirection)
    ensures !d.receives
    ensures d.sends <==> role == Caller || role == Dealer
  {
    match role
    case Caller => MessageDirection(false, true)
    case Dealer => MessageDirection(false, true)
    case _ => MessageDirection(false, false)
  }

  /** The fixed fields in wire order. */
  function Fixed(m: Call): Frame {
    [JNum(ID), JNum(m.requestId), m.options, JStr(m.procedure)]
  }

  /** Serialisation: options must be an object, args an array or null, kwargs
      an object or null; the fixed fields are followed by the elided payload. */
  function Encode(m: Call): (r: Result<Frame, CodecError>)
    ensures r.Ok? <==> m.options.JObj? && IsArgsShaped(m.args) && IsKwargsShaped(m.kwargs)
    ensures !m.options.JObj? ==> r == Err(Custom("Options must be object like."))
    ensures r.Ok? ==> r.value == Fixed(m) + ArgsKwargsTail(m.args, m.kwargs)
  {
    var options :- SerValueIsObject(m.options, "Options must be object like.");
    var args :- SerValueIsArgs(m.args, "Args must be Array like or Null.");
    var kwargs :- SerValueIsKwargs(m.kwargs, "Kwargs must be Object like or Null.");
    Ok([JNum(ID), JNum(m.requestId), options, JStr(m.procedure)] + ArgsKwargsTail(args, kwargs))
  }

  /** Deserialisation, reading the elements in the order the visitor does. */
  function Decode(s: Frame, missing: MissingTrailing): (r: Result<Call, CodecError>)
    ensures r.Ok? ==> 4 <= |s| <= 6 && s[..4] == Fixed(r.value) && r.value.options.JObj?
    ensures r.Ok? ==> IsArgsShaped(r.value.args) && IsKwargsShaped(r.value.kwargs)
    ensures 0 < |s| && IsU64(s[0]) && s[0].n != ID ==> r == Err(InvalidId("Call", s[0].n, ID))
    ensures 3 < |s| && s[0] == JNum(ID) && IsU64(s[1]) && !s[2].JObj? ==> r == Err(Custom("Options must be object like."))
  {
    var id :- ReadU64(s, 0, "Message ID must be present and type u8.");
    var _ :- ValidateId(id, ID, "Call");
    var requestId :- ReadU64(s, 1, "Request ID must be present and type u64.");
    var options :- DeserSeqElement(s, 2, "Options must be present and object like.");
    var _ :- DeserValueIsObject(options, "Options must be object like.");
    var procedure :- ReadString(s, 3, "Procedure must be present and object like.");
    var tail :- DeserElidedTail(s, 4, missing);
    Ok(Call(requestId, options, procedure, tail.args, tail.kwargs))
  }

  /** Decoding what the encoder wrote gives the message back, except that null
      args before present kwargs come back as the `[]` placeholder. Where the
      frame ends early (kwargs null) this needs the missing elements to read as
      null. */
  lemma {:induction false} RoundTrip(m: Call, missing: MissingTrailing)
    requires Encode(m).Ok?
    requires missing == DecodeAsNull || !m.kwargs.JNull?
    ensures Decode(Encode(m).value, missing) == Ok(m.(args := ArgsAfterElision(m.args, m.kwargs)))
  {
    ElidedTailRoundTrip(Fixed(m), m.args, m.kwargs, missing);
  }

  /** A decoded message re-encodes to exactly the frame it came from if and
      only if that frame's payload part holds no null: a null there is either
      dropped or, before kwargs, replaced by the placeholder `[]`. */
  lemma {:induction false} DecodeEncode(s: Frame, missing: MissingTrailing)
    requires Decode(s, missing).Ok?
    ensures Encode(Decode(s, missing).value).Ok?
    ensures Encode(Decode(s, missing).value) == Ok(s) <==> forall k :: 4 <= k < |s| ==> !s[k].JNull?
  {
    ElidedTailCanonical(s, 4, missing);
    assert s == s[..4] + s[4..];
  }

  /** The sample frame of the source's test decodes to the sample record and
      re-encodes to the same frame. */
  lemma Sample()
    ensures var m := Call(7814135, EmptyObject, "com.myapp.user.new", JArr([JStr("johnny")]),
                          JObj(map["firstname" := JStr("John"), "surname" := JStr("Doe")]));
            var s := [JNum(48), JNum(7814135), EmptyObject, JStr("com.myapp.user.new"), JArr([JStr("johnny")]),
                      JObj(map["firstname" := JStr("John"), "surname" := JStr("Doe")])];
            Encode(m) == Ok(s) && Decode(s, DecodeAsNull) == Ok(m) && Decode(s, Reject) == Ok(m)
  {
    var m := Call(7814135, EmptyObject, "com.myapp.user.new", JArr([JStr("johnny")]),
                  JObj(map["firstname" := JStr("John"), "surname" := JStr("Doe")]));
    var s := [JNum(48), JNum(7814135), EmptyObject, JStr("com.myapp.user.new"), JArr([JStr("johnny")]),
              JObj(map["firstname" := JStr("John"), "surname" := JStr("Doe")])];
    RoundTrip(m, Reject);
    RoundTrip(m, DecodeAsNull);
    assert Encode(m).value == s;
  }
}
