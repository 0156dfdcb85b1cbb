/** RESULT (tag 50) of the older codec: the dealer hands a caller the
    outcome of its call. Wire form `[50, request_id, details, args?, kwargs?]`. */
module LegacyResult {
  import opened Json
  import opened Wire

  const ID: U64 := 50

  datatype WampResult = WampResult(requestId: U64, details: JValue, args: JValue, kwargs: JValue)

  /** The table has the caller receive RESULT and the broker send it. */
  function Direction(role: Role): (d: MessageDirection)
    ensures d.receives <==> role == Caller
    ensures d.sends <==> role == Broker
  {
    match role
    case Caller => MessageDirection(true, false)
    case Broker => MessageDirection(false, true)
    case _ => MessageDirection(false, false)
  }

  /** The fixed fields in wire order. */
  function Fixed(m: WampResult): Frame {
    [JNum(ID), JNum(m.requestId), m.details]
  }

  /** Serialisation: details must be an object, args an array or null, kwargs
      an object or null; the fixed fields are followed by the elided payload. */
  function Encode(m: WampResult): (r: Result<Frame, CodecError>)
    ensures r.Ok? <==> m.details.JObj? && IsArgsShaped(m.args) && IsKwargsShaped(m.kwargs)
    ensures !m.details.JObj? ==> r == Err(Custom("details must be object like."))
    ensures r.Ok? ==> r.value == Fixed(m) + ArgsKwargsTail(m.args, m.kwargs)
  {
    var details :- SerValueIsObject(m.details, "details must be object like.");
    var args :- SerValueIsArgs(m.args, "Args must be Array like or Null.");
    var kwargs :- SerValueIsKwargs(m.kwargs, "Kwargs must be Object like or Null.");
    Ok([JNum(ID), JNum(m.requestId), details] + ArgsKwargsTail(args, kwargs))
  }

  /** Deserialisation as written: args and kwargs are read as required
      elements, so only five-element frames are accepted. */
  function Decode(s: Frame): (r: Result<WampResult, CodecError>)
    ensures r.Ok? ==> |s| == 5 && s[..3] == Fixed(r.value) && r.value.details.JObj?
    ensures r.Ok? ==> r.value.args == s[3] && r.value.kwargs == s[4]
    ensures 0 < |s| && IsU64(s[0]) && s[0].n != ID ==> r == Err(InvalidId("WampResult", s[0].n, ID))
    ensures 2 < |s| && s[0] == JNum(ID) && IsU64(s[1]) && !s[2].JObj? ==> r == Err(Custom("details must be object like."))
  {
    var id :- ReadU64(s, 0, "Message ID must be present and type u8.");
    var _ :- ValidateId(id, ID, "WampResult");
    var requestId :- ReadU64(s, 1, "Request ID must be present and type u64.");
    var details :- DeserSeqElement(s, 2, "details must be present and object like.");
    var _ :- DeserValueIsObject(details, "details must be object like.");
    var tail :- DeserRequiredTail(s, 3);
    Ok(WampResult(requestId, details, tail.args, tail.kwargs))
  }

  /** Deserialisation as the encoder evidently expects it: an absent args or
      kwargs reads as null and a present one must have its shape. */
  function DecodeElided(s: Frame): (r: Result<WampResult, CodecError>)
    ensures r.Ok? ==> 3 <= |s| <= 5 && s[..3] == Fixed(r.value) && r.value.details.JObj?
    ensures r.Ok? ==> IsArgsShaped(r.value.args) && IsKwargsShaped(r.value.kwargs)
    ensures 0 < |s| && IsU64(s[0]) && s[0].n != ID ==> r == Err(InvalidId("WampResult", s[0].n, ID))
    ensures 2 < |s| && s[0] == JNum(ID) && IsU64(s[1]) && !s[2].JObj? ==> r == Err(Custom("details must be object like."))
  {
    var id :- ReadU64(s, 0, "Message ID must be present and type u8.");
    var _ :- ValidateId(id, ID, "WampResult");
    var requestId :- ReadU64(s, 1, "Request ID must be present and type u64.");
    var details :- DeserSeqElement(s, 2, "details must be present and object like.");
    var _ :- DeserValueIsObject(details, "details must be object like.");
    var tail :- DeserElidedTail(s, 3, DecodeAsNull);
    Ok(WampResult(requestId, details, tail.args, tail.kwargs))
  }

  /** As written, the decoder refuses every frame its own encoder writes for a
      result without kwargs. */
  lemma {:induction false} RejectsOwnShortFrames(m: WampResult)
    requires Encode(m).Ok? && m.kwargs.JNull?
    ensures Decode(Encode(m).value).Err?
  {
    RequiredTailRejectsElided(Fixed(m), m.args, m.kwargs);
  }

  /** With the elided reading every encoded result reads back, null args before
      kwargs turned into `[]`; the decoder as written agrees once kwargs is
      present. */
  lemma {:induction false} RoundTrip(m: WampResult)
    requires Encode(m).Ok?
    ensures DecodeElided(Encode(m).value) == Ok(m.(args := ArgsAfterElision(m.args, m.kwargs)))
    ensures !m.kwargs.JNull? ==> Decode(Encode(m).value) == Ok(m.(args := ArgsAfterElision(m.args, m.kwargs)))
  {
    ElidedTailRoundTrip(Fixed(m), m.args, m.kwargs, DecodeAsNull);
    if !m.kwargs.JNull? {
      RequiredTailRoundTrip(Fixed(m), m.args, m.kwargs);
    }
  }

  /** A frame read with the elided reading re-encodes to itself exactly when
      its payload part holds no null. */
  lemma {:induction false} DecodeEncode(s: Frame)
    requires DecodeElided(s).Ok?
    ensures Encode(DecodeElided(s).value).Ok?
    ensures Encode(DecodeElided(s).value) == Ok(s) <==> forall k :: 3 <= k < |s| ==> !s[k].JNull?
  {
    ElidedTailCanonical(s, 3, DecodeAsNull);
    assert s == s[..3] + s[3..];
  }

  /** The source's sample: the frame with an empty args array decodes to the
      record with `[]`, not to the one with null args, and both records encode
      to that frame. */
  lemma Sample()
    ensures var kw := JObj(map["karma" := JNum(10), "userid" := JNum(123)]);
            var s := [JNum(50), JNum(7814135), EmptyObject, EmptyArray, kw];
            Decode(s) != Ok(WampResult(7814135, EmptyObject, JNull, kw))
            && Decode(s) == Ok(WampResult(7814135, EmptyObject, EmptyArray, kw))
            && Encode(WampResult(7814135, EmptyObject, EmptyArray, kw)) == Ok(s)
            && Encode(WampResult(7814135, EmptyObject, JNull, kw)) == Ok(s)
  {
    var kw := JObj(map["karma" := JNum(10), "userid" := JNum(123)]);
    var m := WampResult(7814135, EmptyObject, EmptyArray, kw);
    RoundTrip(m);
    assert Encode(m).value == [JNum(50), JNum(7814135), EmptyObject, EmptyArray, kw];
    assert Encode(m.(args := JNull)).value == [JNum(50), JNum(7814135), EmptyObject, EmptyArray, kw];
  }
}
