/** REGISTERED (tag 65) of the newer codec: the dealer acknowledges a
    registration. Wire form `[65, request_id, registration]`. */
module CoreRegistered {
  import opened Json
  import opened Wire

  const ID: U64 := 65

  datatype Registered = Registered(requestId: U64, registration: U64)

  /** The dealer sends REGISTERED and the callee receives it. */
  function Direction(role: Role): (d: MessageDirection)
    ensures d.sends <==> role == Dealer
    ensures d.receives <==> role == Callee
  {
    match role
    case Callee => MessageDirection(true, false)
    case Dealer => MessageDirection(false, true)
    case _ => MessageDirection(false, false)
  }

  /** Serialisation has no checks and cannot fail. */
  function Encode(m: Registered): (s: Frame)
    ensures |s| == 3 && s[0] == JNum(ID)
  {
    [JNum(ID), JNum(m.requestId), JNum(m.registration)]
  }

  /** Deserialisation accepts exactly the frames the encoder writes. */
  function Decode(s: Frame): (r: Result<Registered, CodecError>)
    ensures r.Ok? ==> Encode(r.value) == s
    ensures 0 < |s| && IsU64(s[0]) && s[0].n != ID ==> r == Err(InvalidId("Registered", s[0].n, ID))
    ensures |s| > 3 ==> r.Err?
  {
    var id :- ReadU64(s, 0, "Message ID must be present and type u8.");
    var _ :- ValidateId(id, ID, "Registered");
    var requestId :- ReadU64(s, 1, "request_id must be present and type u64.");
    var registration :- ReadU64(s, 2, "registration must be present and object like.");
    var _ :- EndOfSequence(s, 3);
    Ok(Registered(requestId, registration))
  }

  /** Every message survives a round trip through the wire. */
  lemma RoundTrip(m: Registered)
    ensures Decode(Encode(m)) == Ok(m)
  {
  }

  /** The source's sample frame. */
  lemma Sample()
    ensures Encode(Registered(25349185, 2103333224)) == [JNum(65), JNum(25349185), JNum(2103333224)]
    ensures Decode([JNum(65), JNum(25349185), JNum(2103333224)]) == Ok(Registered(25349185, 2103333224))
  {
  }
}
