/** PUBLISHED (tag 17) of the older codec: the broker acknowledges a
    publication. Wire form `[17, request_id, publication]`. */
module LegacyPublished {
  import opened Json
  import opened Wire

  const ID: U64 := 17

  datatype Published = Published(requestId: U64, publication: U64)

  /** The broker sends PUBLISHED; callees and publishers receive it. */
  function Direction(role: Role): (d: MessageDirection)
    ensures d.sends <==> role == Broker
    ensures d.receives <==> role == Callee || role == Publisher
  {
    match role
    case Callee => MessageDirection(true, false)
    case Publisher => MessageDirection(true, false)
    case Broker => MessageDirection(false, true)
    case _ => MessageDirection(false, false)
  }

  /** Serialisation has no checks and cannot fail. */
  function Encode(m: Published): (s: Frame)
    ensures |s| == 3 && s[0] == JNum(ID)
  {
    [JNum(ID), JNum(m.requestId), JNum(m.publication)]
  }

  /** Deserialisation accepts exactly the frames the encoder writes. */
  function Decode(s: Frame): (r: Result<Published, CodecError>)
    ensures r.Ok? ==> Encode(r.value) == s
    ensures 0 < |s| && IsU64(s[0]) && s[0].n != ID ==> r == Err(InvalidId("Published", s[0].n, ID))
    ensures |s| > 3 ==> r.Err?
  {
    var id :- ReadU64(s, 0, "Message ID must be present and type u8.");
    var _ :- ValidateId(id, ID, "Published");
    var requestId :- ReadU64(s, 1, "request_id must be present and type u64.");
    var publication :- ReadU64(s, 2, "publication must be present and object like.");
    var _ :- EndOfSequence(s, 3);
    Ok(Published(requestId, publication))
  }

  /** Every message survives a round trip through the wire. */
  lemma RoundTrip(m: Published)
    ensures Decode(Encode(m)) == Ok(m)
  {
  }

  /** The source's sample frame. */
  lemma Sample()
    ensures Encode(Published(239714735, 4429313566)) == [JNum(17), JNum(239714735), JNum(4429313566)]
    ensures Decode([JNum(17), JNum(239714735), JNum(4429313566)]) == Ok(Published(239714735, 4429313566))
  {
  }
}
