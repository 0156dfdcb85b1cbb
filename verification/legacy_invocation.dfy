/** INVOCATION (tag 68) of the older codec: the dealer asks a callee to run
    a registered procedure. Wire form `[68, request_id, registration, details, args?, kwargs?]`. */
module LegacyInvocation {
  import opened Json
  import opened Wire

  const ID: U64 := 68

  datatype Invocation = Invocation(requestId: U64, registration: U64, details: JValue, args: JValue, kwargs: JValue)

  /** The dealer sends INVOCATION and the callee receives it. */
  function Direction(role: Role): (d: MessageDirection)
    ensures d.sends <==> role == Dealer
    ensures d.receives <==> role == Callee
  {
    match role
    case Callee => MessageDirection(true, false)
    case Dealer => MessageDirection(false, true)
    case _ => MessageDirection(false, false)
  }

  /** The fixed fields in wire order. */
  function Fixed(m: Invocation): Frame {
    [JNum(ID), JNum(m.requestId), JNum(m.registration), m.details]
  }

  /** Serialisation: args must be an array or null and kwargs an object or
      null; the fixed fields are followed by the elided payload. */
  function Encode(m: Invocation): (r: Result<Frame, CodecError>)
    ensures r.Ok? <==> IsArgsShaped(m.args) && IsKwargsShaped(m.kwargs)
    ensures r.Ok? ==> r.value == Fixed(m) + ArgsKwargsTail(m.args, m.kwargs)
  {
    var args :- SerValueIsArgs(m.args, "Args must be Array like or Null.");
    var kwargs :- SerValueIsKwargs(m.kwargs, "Kwargs must be Object like or Null.");
    Ok([JNum(ID), JNum(m.requestId), JNum(m.registration), m.details] + ArgsKwargsTail(args, kwargs))
  }

  /** Deserialisation as written: args and kwargs are read as required
      elements, so only 6-element frames are accepted. */
  function Decode(s: Frame): (r: Result<Invocation, CodecError>)
    ensures r.Ok? ==> |s| == 6 && s[..4] == Fixed(r.value) && r.value.details.JObj?
    ensures r.Ok? ==> r.value.args == s[4] && r.value.kwargs == s[5]
    ensures 0 < |s| && IsU64(s[0]) && s[0].n != ID ==> r == Err(InvalidId("Invocation", s[0].n, ID))
    ensures 3 < |s| && s[0] == JNum(ID) && IsU64(s[1]) && IsU64(s[2]) && !s[3].JObj? ==> r == Err(Custom("Details must be object like."))
  {
    var id :- ReadU64(s, 0, "Message ID must be present and type u8.");
    var _ :- ValidateId(id, ID, "Invocation");
    var requestId :- ReadU64(s, 1, "request_id must be present and type u64.");
    var registration :- ReadU64(s, 2, "registration must be present and object like.");
    var details :- DeserSeqElement(s, 3, "Details must be present and object like.");
    var _ :- DeserValueIsObject(details, "Details must be object like.");
    var tail :- DeserRequiredTail(s, 4);
    Ok(Invocation(requestId, registration, details, tail.args, tail.kwargs))
  }

  /** Deserialisation as the encoder evidently expects it: an absent args or
      kwargs reads as null and a present one must have its shape. */
  function DecodeElided(s: Frame): (r: Result<Invocation, CodecError>)
    ensures r.Ok? ==> 4 <= |s| <= 6 && s[..4] == Fixed(r.value) && r.value.details.JObj?
    ensures r.Ok? ==> IsArgsShaped(r.value.args) && IsKwargsShaped(r.value.kwargs)
    ensures 0 < |s| && IsU64(s[0]) && s[0].n != ID ==> r == Err(InvalidId("Invocation", s[0].n, ID))
    ensures 3 < |s| && s[0] == JNum(ID) && IsU64(s[1]) && IsU64(s[2]) && !s[3].JObj? ==> r == Err(Custom("Details must be object like."))
  {
    var id :- ReadU64(s, 0, "Message ID must be present and type u8.");
    var _ :- ValidateId(id, ID, "Invocation");
    var requestId :- ReadU64(s, 1, "request_id must be present and type u64.");
    var registration :- ReadU64(s, 2, "registration must be present and object like.");
    var details :- DeserSeqElement(s, 3, "Details must be present and object like.");
    var _ :- DeserValueIsObject(details, "Details must be object like.");
    var tail :- DeserElidedTail(s, 4, DecodeAsNull);
    Ok(Invocation(requestId, registration, details, tail.args, tail.kwargs))
  }

  /** As written, the decoder refuses every frame its own encoder writes for a
      message without kwargs. */
  lemma {:induction false} RejectsOwnShortFrames(m: Invocation)
    requires Encode(m).Ok? && m.kwargs.JNull?
    ensures Decode(Encode(m).value).Err?
  {
    RequiredTailRejectsElided(Fixed(m), m.args, m.kwargs);
  }

  /** With the elided reading every encoded message with object details
      reads back, null args before kwargs turned into `[]`; the decoder as
      written agrees once kwargs is present. */
  lemma {:induction false} RoundTrip(m: Invocation)
    requires Encode(m).Ok? && m.details.JObj?
    ensures DecodeElided(Encode(m).value) == Ok(m.(args := ArgsAfterElision(m.args, m.kwargs)))
    ensures !m.kwargs.JNull? ==> Decode(Encode(m).value) == Ok(m.(args := ArgsAfterElision(m.args, m.kwargs)))
  {
    ElidedTailRoundTrip(Fixed(m), m.args, m.kwargs, DecodeAsNull);
    if !m.kwargs.JNull? {
      RequiredTailRoundTrip(Fixed(m), m.args, m.kwargs);
    }
  }

  /** The encoder does not check the details, so a message whose details are not an
      object is written to a frame that both decoders refuse. */
  lemma {:induction false} UncheckedDetails(m: Invocation)
    requires Encode(m).Ok? && !m.details.JObj?
    ensures Decode(Encode(m).value).Err? && DecodeElided(Encode(m).value).Err?
  {
    var s := Encode(m).value;
    assert s[3] == m.details;
  }

  /** A frame read with the elided reading re-encodes to itself exactly when
      its payload part holds no null. */
  lemma {:induction false} DecodeEncode(s: Frame)
    requires DecodeElided(s).Ok?
    ensures Encode(DecodeElided(s).value).Ok?
    ensures Encode(DecodeElided(s).value) == Ok(s) <==> forall k :: 4 <= k < |s| ==> !s[k].JNull?
  {
    ElidedTailCanonical(s, 4, DecodeAsNull);
    assert s == s[..4] + s[4..];
  }

  /** The source's sample: the frame decodes to the record with its args, not
      to the one with null args, and that record encodes back to the frame. */
  lemma Sample()
    ensures var kw := JObj(map["firstname" := JStr("John"), "surname" := JStr("Doe")]);
            var m := Invocation(6131533, 9823529, EmptyObject, JArr([JStr("johnny")]), kw);
            var s := [JNum(68), JNum(6131533), JNum(9823529), EmptyObject, JArr([JStr("johnny")]), kw];
            Decode(s) == Ok(m) && Decode(s) != Ok(m.(args := JNull)) && Encode(m) == Ok(s)
  {
    var kw := JObj(map["firstname" := JStr("John"), "surname" := JStr("Doe")]);
    var m := Invocation(6131533, 9823529, EmptyObject, JArr([JStr("johnny")]), kw);
    RoundTrip(m);
    assert Encode(m).value == [JNum(68), JNum(6131533), JNum(9823529), EmptyObject, JArr([JStr("johnny")]), kw];
  }
}
