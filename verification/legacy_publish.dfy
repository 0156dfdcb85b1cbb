/** PUBLISH (tag 16) of the older codec: a publisher sends an event to the
    broker for a topic. Wire form `[16, request_id, options, topic, args?, kwargs?]`. */
module LegacyPublish {
  import opened Json
  import opened Wire

  const ID: U64 := 16

  datatype Publish = Publish(requestId: U64, options: JValue, topic: string, args: JValue, kwargs: JValue)

  /** Callees and publishers send PUBLISH and the broker receives it. */
  function Direction(role: Role): (d: MessageDirection)
    ensures d.sends <==> role == Callee || role == Publisher
    ensures d.receives <==> role == Broker
  {
    match role
    case Callee => MessageDirection(false, true)
    case Publisher => MessageDirection(false, true)
    case Broker => MessageDirection(true, false)
    case _ => MessageDirection(false, false)
  }

  /** The fixed fields in wire order. */
  function Fixed(m: Publish): Frame {
    [JNum(ID), JNum(m.requestId), m.options, JStr(m.topic)]
  }

  /** Serialisation: options must be an object, args must be an array or null and kwargs an object or
      null; the fixed fields are followed by the elided payload. */
  function Encode(m: Publish): (r: Result<Frame, CodecError>)
    ensures r.Ok? <==> m.options.JObj? && IsArgsShaped(m.args) && IsKwargsShaped(m.kwargs)
    ensures !m.options.JObj? ==> r == Err(Custom("Options must be object like."))
    ensures r.Ok? ==> r.value == Fixed(m) + ArgsKwargsTail(m.args, m.kwargs)
  {
    var options :- SerValueIsObject(m.options, "Options must be object like.");
    var args :- SerValueIsArgs(m.args, "Args must be Array like or Null.");
    var kwargs :- SerValueIsKwargs(m.kwargs, "Kwargs must be Object like or Null.");
    Ok([JNum(ID), JNum(m.requestId), options, JStr(m.topic)] + ArgsKwargsTail(args, kwargs))
  }

  /** Deserialisation as written: args and kwargs are read as required
      elements, so only 6-element frames are accepted. */
  function Decode(s: Frame): (r: Result<Publish, CodecError>)
    ensures r.Ok? ==> |s| == 6 && s[..4] == Fixed(r.value) && r.value.options.JObj?
    ensures r.Ok? ==> r.value.args == s[4] && r.value.kwargs == s[5]
    ensures 0 < |s| && IsU64(s[0]) && s[0].n != ID ==> r == Err(InvalidId("Publish", s[0].n, ID))
    ensures 2 < |s| && s[0] == JNum(ID) && IsU64(s[1]) && !s[2].JObj? ==> r == Err(Custom("Options must be object like."))
  {
    var id :- ReadU64(s, 0, "Message ID must be present and type u8.");
    var _ :- ValidateId(id, ID, "Publish");
    var requestId :- ReadU64(s, 1, "Request ID must be present and type u64.");
    var options :- DeserSeqElement(s, 2, "Options must be present and object like.");
    var _ :- DeserValueIsObject(options, "Options must be object like.");
    var topic :- ReadString(s, 3, "topic must be present and object like.");
    var tail :- DeserRequiredTail(s, 4);
    Ok(Publish(requestId, options, topic, tail.args, tail.kwargs))
  }

  /** Deserialisation as the encoder evidently expects it: an absent args or
      kwargs reads as null and a present one must have its shape. */
  function DecodeElided(s: Frame): (r: Result<Publish, CodecError>)
    ensures r.Ok? ==> 4 <= |s| <= 6 && s[..4] == Fixed(r.value) && r.value.options.JObj?
    ensures r.Ok? ==> IsArgsShaped(r.value.args) && IsKwargsShaped(r.value.kwargs)
    ensures 0 < |s| && IsU64(s[0]) && s[0].n != ID ==> r == Err(InvalidId("Publish", s[0].n, ID))
    ensures 2 < |s| && s[0] == JNum(ID) && IsU64(s[1]) && !s[2].JObj? ==> r == Err(Custom("Options must be object like."))
  {
    var id :- ReadU64(s, 0, "Message ID must be present and type u8.");
    var _ :- ValidateId(id, ID, "Publish");
    var requestId :- ReadU64(s, 1, "Request ID must be present and type u64.");
    var options :- DeserSeqElement(s, 2, "Options must be present and object like.");
    var _ :- DeserValueIsObject(options, "Options must be object like.");
    var topic :- ReadString(s, 3, "topic must be present and object like.");
    var tail :- DeserElidedTail(s, 4, DecodeAsNull);
    Ok(Publish(requestId, options, topic, tail.args, tail.kwargs))
  }

  /** As written, the decoder refuses every frame its own encoder writes for a
      message without kwargs. */
  lemma {:induction false} RejectsOwnShortFrames(m: Publish)
    requires Encode(m).Ok? && m.kwargs.JNull?
    ensures Decode(Encode(m).value).Err?
  {
    RequiredTailRejectsElided(Fixed(m), m.args, m.kwargs);
  }

  /** With the elided reading every encoded message reads back, null
      args before kwargs turned into `[]`; the decoder as written agrees once
      kwargs is present. */
  lemma {:induction false} RoundTrip(m: Publish)
    requires Encode(m).Ok?
    ensures DecodeElided(Encode(m).value) == Ok(m.(args := ArgsAfterElision(m.args, m.kwargs)))
    ensures !m.kwargs.JNull? ==> Decode(Encode(m).value) == Ok(m.(args := ArgsAfterElision(m.args, m.kwargs)))
  {
    ElidedTailRoundTrip(Fixed(m), m.args, m.kwargs, DecodeAsNull);
    if !m.kwargs.JNull? {
      RequiredTailRoundTrip(Fixed(m), m.args, m.kwargs);
    }
  }

  /** A frame read with the elided reading re-encodes to itself exactly when
      its payload part holds no null. */
  lemma {:induction false} DecodeEncode(s: Frame)
    requires DecodeElided(s).Ok?
    ensures Encode(DecodeElided(s).value).Ok?
    ensures Encode(DecodeElided(s).value) == Ok(s) <==> forall k :: 4 <= k < |s| ==> !s[k].JNull?
  {
    ElidedTailCanonical(s, 4, DecodeAsNull);
    assert s == s[..4] + s[4..];
  }
}
