/** INTERRUPT (tag 69) of the older codec: the dealer tells a callee to
    stop a pending invocation. Wire form `[69, request_id, options]`. */
module LegacyInterrupt {
  import opened Json
  import opened Wire

  const ID: U64 := 69

  datatype Interrupt = Interrupt(requestId: U64, options: JValue)

  /** The dealer sends INTERRUPT and the callee receives it. */
  function Direction(role: Role): (d: MessageDirection)
    ensures d.sends <==> role == Dealer
    ensures d.receives <==> role == Callee
  {
    match role
    case Callee => MessageDirection(true, false)
    case Dealer => MessageDirection(false, true)
    case _ => MessageDirection(false, false)
  }

  /** Serialisation refuses options that are not an object. */
  function Encode(m: Interrupt): (r: Result<Frame, CodecError>)
    ensures r.Ok? <==> m.options.JObj?
    ensures r.Err? ==> r.error == Custom("Options must be object like.")
    ensures r.Ok? ==> |r.value| == 3 && r.value[0] == JNum(ID) && r.value[2] == m.options
  {
    var options :- SerValueIsObject(m.options, "Options must be object like.");
    Ok([JNum(ID), JNum(m.requestId), options])
  }

  /** Deserialisation accepts exactly the frames the encoder writes. */
  function Decode(s: Frame): (r: Result<Interrupt, CodecError>)
    ensures r.Ok? ==> Encode(r.value) == Ok(s)
    ensures 0 < |s| && IsU64(s[0]) && s[0].n != ID ==> r == Err(InvalidId("Interrupt", s[0].n, ID))
    ensures 2 < |s| && s[0] == JNum(ID) && IsU64(s[1]) && !s[2].JObj? ==> r == Err(Custom("Options must be object like."))
    ensures |s| > 3 ==> r.Err?
  {
    var id :- ReadU64(s, 0, "Message ID must be type u64.");
    var _ :- ValidateId(id, ID, "Interrupt");
    var requestId :- ReadU64(s, 1, "Request ID must be a u64.");
    var options :- DeserSeqElement(s, 2, "Options must be a JSON value.");
    var _ :- DeserValueIsObject(options, "Options must be object like.");
    var _ :- EndOfSequence(s, 3);
    assert s == [JNum(ID), JNum(requestId), options];
    Ok(Interrupt(requestId, options))
  }

  /** Every message the encoder accepts survives a round trip. */
  lemma RoundTrip(m: Interrupt)
    requires Encode(m).Ok?
    ensures Decode(Encode(m).value) == Ok(m)
  {
  }

  /** The source's sample frame. */
  lemma Sample()
    ensures Encode(Interrupt(3, EmptyObject)) == Ok([JNum(69), JNum(3), EmptyObject])
    ensures Decode([JNum(69), JNum(3), EmptyObject]) == Ok(Interrupt(3, EmptyObject))
  {
  }
}
