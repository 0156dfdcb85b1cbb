/** UNREGISTER (tag 66) of the newer codec: a callee withdraws a
    registration. Wire form `[66, request_id, registration]`. */
module CoreUnregister {
  import opened Json
  import opened Wire

  const ID: U64 := 66

  datatype Unregister = Unregister(requestId: U64, registration: U64)

  /** The callee sends UNREGISTER and the dealer receives it. */
  function Direction(role: Role): (d: MessageDirection)
    ensures d.sends <==> role == Callee
    ensures d.receives <==> role == Dealer
  {
    match role
    case Dealer => MessageDirection(true, false)
    case Callee => MessageDirection(false, true)
    case _ => MessageDirection(false, false)
  }

  /** Serialisation has no checks and cannot fail. */
  function Encode(m: Unregister): (s: Frame)
    ensures |s| == 3 && s[0] == JNum(ID)
  {
    [JNum(ID), JNum(m.requestId), JNum(m.registration)]
  }

  /** Deserialisation accepts exactly the frames the encoder writes. */
  function Decode(s: Frame): (r: Result<Unregister, CodecError>)
    ensures r.Ok? ==> Encode(r.value) == s
    ensures 0 < |s| && IsU64(s[0]) && s[0].n != ID ==> r == Err(InvalidId("Unregister", s[0].n, ID))
    ensures |s| > 3 ==> r.Err?
  {
    var id :- ReadU64(s, 0, "Message ID must be present and type u8.");
    var _ :- ValidateId(id, ID, "Unregister");
    var requestId :- ReadU64(s, 1, "request_id must be present and type u64.");
    var registration :- ReadU64(s, 2, "registration must be present and object like.");
    var _ :- EndOfSequence(s, 3);
    Ok(Unregister(requestId, registration))
  }

  /** Every message survives a round trip through the wire. */
  lemma RoundTrip(m: Unregister)
    ensures Decode(Encode(m)) == Ok(m)
  {
  }

  /** The source's sample frame. */
  lemma Sample()
    ensures Encode(Unregister(788923562, 2103333224)) == [JNum(66), JNum(788923562), JNum(2103333224)]
    ensures Decode([JNum(66), JNum(788923562), JNum(2103333224)]) == Ok(Unregister(788923562, 2103333224))
  {
  }
}
