/** UNSUBSCRIBED (tag 35) of the older codec: the broker confirms that a
    subscription was withdrawn. Wire form `[35, request_id]`. */
module LegacyUnsubscribed {
  import opened Json
  import opened Wire

  const ID: U64 := 35

  datatype Unsubscribed = Unsubscribed(requestId: U64)


  /** Serialisation has no checks and cannot fail. */
  function Encode(m: Unsubscribed): (s: Frame)
    ensures |s| == 2 && s[0] == JNum(ID)
  {
    [JNum(ID), JNum(m.requestId)]
  }

  /** Deserialisation accepts exactly the frames the encoder writes. */
  function Decode(s: Frame): (r: Result<Unsubscribed, CodecError>)
    ensures r.Ok? ==> Encode(r.value) == s
    ensures 0 < |s| && IsU64(s[0]) && s[0].n != ID ==> r == Err(InvalidId("Unsubscribed", s[0].n, ID))
    ensures |s| > 2 ==> r.Err?
  {
    var id :- ReadU64(s, 0, "Message ID must be present and type u8.");
    var _ :- ValidateId(id, ID, "Unsubscribed");
    var requestId :- ReadU64(s, 1, "request_id must be present and type u64.");
    var _ :- EndOfSequence(s, 2);
    Ok(Unsubscribed(requestId))
  }

  /** Every message survives a round trip through the wire. */
  lemma RoundTrip(m: Unsubscribed)
    ensures Decode(Encode(m)) == Ok(m)
  {
  }

  /** The source's sample frame. */
  lemma Sample()
    ensures Encode(Unsubscribed(85346237)) == [JNum(35), JNum(85346237)]
    ensures Decode([JNum(35), JNum(85346237)]) == Ok(Unsubscribed(85346237))
  {
  }
}
