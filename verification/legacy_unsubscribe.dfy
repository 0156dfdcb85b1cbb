/** UNSUBSCRIBE (tag 34) of the older codec: a subscriber withdraws a
    subscription. Wire form `[34, request_id, subscription]`. */
module LegacyUnsubscribe {
  import opened Json
  import opened Wire

  const ID: U64 := 34

  datatype Unsubscribe = Unsubscribe(requestId: U64, subscription: U64)


  /** Serialisation has no checks and cannot fail. */
  function Encode(m: Unsubscribe): (s: Frame)
    ensures |s| == 3 && s[0] == JNum(ID)
  {
    [JNum(ID), JNum(m.requestId), JNum(m.subscription)]
  }

  /** Deserialisation accepts exactly the frames the encoder writes. */
  function Decode(s: Frame): (r: Result<Unsubscribe, CodecError>)
    ensures r.Ok? ==> Encode(r.value) == s
    ensures 0 < |s| && IsU64(s[0]) && s[0].n != ID ==> r == Err(InvalidId("Unsubscribe", s[0].n, ID))
    ensures |s| > 3 ==> r.Err?
  {
    var id :- ReadU64(s, 0, "Message ID must be present and type u8.");
    var _ :- ValidateId(id, ID, "Unsubscribe");
    var requestId :- ReadU64(s, 1, "request_id must be present and type u64.");
    var subscription :- ReadU64(s, 2, "subscription must be present and object like.");
    var _ :- EndOfSequence(s, 3);
    Ok(Unsubscribe(requestId, subscription))
  }

  /** Every message survives a round trip through the wire. */
  lemma RoundTrip(m: Unsubscribe)
    ensures Decode(Encode(m)) == Ok(m)
  {
  }

  /** The source's sample frame. */
  lemma Sample()
    ensures Encode(Unsubscribe(85346237, 5512315355)) == [JNum(34), JNum(85346237), JNum(5512315355)]
    ensures Decode([JNum(34), JNum(85346237), JNum(5512315355)]) == Ok(Unsubscribe(85346237, 5512315355))
  {
  }
}
