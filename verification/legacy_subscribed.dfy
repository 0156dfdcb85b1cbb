/** SUBSCRIBED (tag 33) of the older codec: the broker acknowledges a
    subscription. Wire form `[33, request_id, subscription]`. */
module LegacySubscribed {
  import opened Json
  import opened Wire

  const ID: U64 := 33

  datatype Subscribed = Subscribed(requestId: U64, subscription: U64)


  /** Serialisation has no checks and cannot fail. */
  function Encode(m: Subscribed): (s: Frame)
    ensures |s| == 3 && s[0] == JNum(ID)
  {
    [JNum(ID), JNum(m.requestId), JNum(m.subscription)]
  }

  /** Deserialisation accepts exactly the frames the encoder writes. */
  function Decode(s: Frame): (r: Result<Subscribed, CodecError>)
    ensures r.Ok? ==> Encode(r.value) == s
    ensures 0 < |s| && IsU64(s[0]) && s[0].n != ID ==> r == Err(InvalidId("Subscribed", s[0].n, ID))
    ensures |s| > 3 ==> r.Err?
  {
    var id :- ReadU64(s, 0, "Message ID must be present and type u8.");
    var _ :- ValidateId(id, ID, "Subscribed");
    var requestId :- ReadU64(s, 1, "request_id must be present and type u64.");
    var subscription :- ReadU64(s, 2, "subscription must be present and object like.");
    var _ :- EndOfSequence(s, 3);
    Ok(Subscribed(requestId, subscription))
  }

  /** Every message survives a round trip through the wire. */
  lemma RoundTrip(m: Subscribed)
    ensures Decode(Encode(m)) == Ok(m)
  {
  }

  /** The source's sample frame. */
  lemma Sample()
    ensures Encode(Subscribed(713845233, 5512315355)) == [JNum(33), JNum(713845233), JNum(5512315355)]
    ensures Decode([JNum(33), JNum(713845233), JNum(5512315355)]) == Ok(Subscribed(713845233, 5512315355))
  {
  }
}
