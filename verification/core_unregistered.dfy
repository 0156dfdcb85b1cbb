/** UNREGISTERED (tag 67) of the newer codec: the dealer confirms that a
    registration was withdrawn. Wire form `[67, request_id]`. */
module CoreUnregistered {
  import opened Json
  import opened Wire

  const ID: U64 := 67

  datatype Unregistered = Unregistered(requestId: U64)

  /** The dealer sends UNREGISTERED and the callee receives it. */
  function Direction(role: Role): (d: MessageDirection)
    ensures d.sends <==> role == Dealer
    ensures d.receives <==> role == Callee
  {
    match role
    case Callee => MessageDirection(true, false)
    case Dealer => MessageDirection(false, true)
    case _ => MessageDirection(false, false)
  }

  /** Serialisation has no checks and cannot fail. */
  function Encode(m: Unregistered): (s: Frame)
    ensures |s| == 2 && s[0] == JNum(ID)
  {
    [JNum(ID), JNum(m.requestId)]
  }

  /** Deserialisation accepts exactly the frames the encoder writes. */
  function Decode(s: Frame): (r: Result<Unregistered, CodecError>)
    ensures r.Ok? ==> Encode(r.value) == s
    ensures 0 < |s| && IsU64(s[0]) && s[0].n != ID ==> r == Err(InvalidId("Unregistered", s[0].n, ID))
    ensures |s| > 2 ==> r.Err?
  {
    var id :- ReadU64(s, 0, "Message ID must be present and type u8.");
    var _ :- ValidateId(id, ID, "Unregistered");
    var requestId :- ReadU64(s, 1, "request_id must be present and type u64.");
    var _ :- EndOfSequence(s, 2);
    Ok(Unregistered(requestId))
  }

  /** Every message survives a round trip through the wire. */
  lemma RoundTrip(m: Unregistered)
    ensures Decode(Encode(m)) == Ok(m)
  {
  }

  /** The source's sample frame. */
  lemma Sample()
    ensures Encode(Unregistered(788923562)) == [JNum(67), JNum(788923562)]
    ensures Decode([JNum(67), JNum(788923562)]) == Ok(Unregistered(788923562))
  {
  }
}
