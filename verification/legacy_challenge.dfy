/** CHALLENGE (tag 4) of the older codec: the router asks a client to
    authenticate. Wire form `[4, authmethod, details]`. */
module LegacyChallenge {
  import opened Json
  import opened Wire

  const ID: U64 := 4

  datatype Challenge = Challenge(authmethod: string, details: JValue)

  /** Routers send CHALLENGE and the four client roles receive it. */
  function Direction(role: Role): (d: MessageDirection)
    ensures d.sends <==> role == Dealer || role == Broker
    ensures d.receives <==> !d.sends
  {
    match role
    case Dealer => MessageDirection(false, true)
    case Broker => MessageDirection(false, true)
    case _ => MessageDirection(true, false)
  }

  /** Serialisation refuses details that are not an object. */
  function Encode(m: Challenge): (r: Result<Frame, CodecError>)
    ensures r.Ok? <==> m.details.JObj?
    ensures r.Err? ==> r.error == Custom("Details must be object like.")
    ensures r.Ok? ==> |r.value| == 3 && r.value[0] == JNum(ID) && r.value[2] == m.details
  {
    var details :- SerValueIsObject(m.details, "Details must be object like.");
    Ok([JNum(ID), JStr(m.authmethod), details])
  }

  /** Deserialisation accepts exactly the frames the encoder writes. */
  function Decode(s: Frame): (r: Result<Challenge, CodecError>)
    ensures r.Ok? ==> Encode(r.value) == Ok(s)
    ensures 0 < |s| && IsU64(s[0]) && s[0].n != ID ==> r == Err(InvalidId("Challenge", s[0].n, ID))
    ensures 2 < |s| && s[0] == JNum(ID) && s[1].JStr? && !s[2].JObj? ==> r == Err(Custom("Value must be object like"))
    ensures |s| > 3 ==> r.Err?
  {
    var id :- ReadU64(s, 0, "Message ID must be present and type u8.");
    var _ :- ValidateId(id, ID, "Challenge");
    var authmethod :- ReadString(s, 1, "authmethod must be type String.");
    var details :- DeserSeqElement(s, 2, "Details must be present and object like.");
    var _ :- DeserValueIsObject(details, "Value must be object like");
    var _ :- EndOfSequence(s, 3);
    assert s == [JNum(ID), JStr(authmethod), details];
    Ok(Challenge(authmethod, details))
  }

  /** Every message the encoder accepts survives a round trip. */
  lemma RoundTrip(m: Challenge)
    requires Encode(m).Ok?
    ensures Decode(Encode(m).value) == Ok(m)
  {
  }

  /** The source's sample frame, a WAMP-CRA challenge. */
  lemma Sample()
    ensures var c := JObj(map["authid" := JStr("peter"), "authmethod" := JStr("wampcra"),
                              "authprovider" := JStr("userdb"), "authrole" := JStr("user"),
                              "nonce" := JStr("LHRTC9zeOIrt_9U3"), "session" := JNum(3251278072152162),
                              "timestamp" := JStr("2014-06-22T16:36:25.448Z")]);
            var s := [JNum(4), JStr("wampcra"), JObj(map["challenge" := c])];
            Encode(Challenge("wampcra", JObj(map["challenge" := c]))) == Ok(s)
            && Decode(s) == Ok(Challenge("wampcra", JObj(map["challenge" := c])))
  {
  }
}
