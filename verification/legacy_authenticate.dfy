/** AUTHENTICATE (tag 5) of the older codec: a client answers a
    challenge. Wire form `[5, signature, details]`. */
module LegacyAuthenticate {
  import opened Json
  import opened Wire

  const ID: U64 := 5

  datatype Authenticate = Authenticate(signature: string, details: JValue)

  /** The four client roles send AUTHENTICATE and routers receive it. */
  function Direction(role: Role): (d: MessageDirection)
    ensures d.receives <==> role == Dealer || role == Broker
    ensures d.sends <==> !d.receives
  {
    match role
    case Dealer => MessageDirection(true, false)
    case Broker => MessageDirection(true, false)
    case _ => MessageDirection(false, true)
  }

  /** Serialisation refuses details that are not an object. */
  function Encode(m: Authenticate): (r: Result<Frame, CodecError>)
    ensures r.Ok? <==> m.details.JObj?
    ensures r.Err? ==> r.error == Custom("Details must be object like.")
    ensures r.Ok? ==> |r.value| == 3 && r.value[0] == JNum(ID) && r.value[2] == m.details
  {
    var details :- SerValueIsObject(m.details, "Details must be object like.");
    Ok([JNum(ID), JStr(m.signature), details])
  }

  /** Deserialisation accepts exactly the frames the encoder writes. */
  function Decode(s: Frame): (r: Result<Authenticate, CodecError>)
    ensures r.Ok? ==> Encode(r.value) == Ok(s)
    ensures 0 < |s| && IsU64(s[0]) && s[0].n != ID ==> r == Err(InvalidId("Authenticate", s[0].n, ID))
    ensures 2 < |s| && s[0] == JNum(ID) && s[1].JStr? && !s[2].JObj? ==> r == Err(Custom("Value must be object like"))
    ensures |s| > 3 ==> r.Err?
  {
    var id :- ReadU64(s, 0, "Message ID must be present and type u8.");
    var _ :- ValidateId(id, ID, "Authenticate");
    var signature :- ReadString(s, 1, "Signature must be type String.");
    var details :- DeserSeqElement(s, 2, "Details must be present and object like.");
    var _ :- DeserValueIsObject(details, "Value must be object like");
    var _ :- EndOfSequence(s, 3);
    assert s == [JNum(ID), JStr(signature), details];
    Ok(Authenticate(signature, details))
  }

  /** Every message the encoder accepts survives a round trip. */
  lemma RoundTrip(m: Authenticate)
    requires Encode(m).Ok?
    ensures Decode(Encode(m).value) == Ok(m)
  {
  }
}
