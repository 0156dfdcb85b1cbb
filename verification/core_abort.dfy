/** ABORT (tag 3) of the newer codec: a session is refused or torn down
    before it was established. Wire form `[3, details, reason]`. */
module CoreAbort {
  import opened Json
  import opened Wire

  const ID: U64 := 3

  datatype Abort = Abort(details: JValue, reason: string)

  /** Routers send ABORT and the four client roles receive it. */
  function Direction(role: Role): (d: MessageDirection)
    ensures d.sends <==> role == Dealer || role == Broker
    ensures d.receives <==> !d.sends
  {
    match role
    case Dealer => MessageDirection(false, true)
    case Broker => MessageDirection(false, true)
    case _ => MessageDirection(true, false)
  }

  /** Serialisation refuses details that are not an object. */
  function Encode(m: Abort): (r: Result<Frame, CodecError>)
    ensures r.Ok? <==> m.details.JObj?
    ensures r.Err? ==> r.error == Custom("Details must be object like.")
    ensures r.Ok? ==> |r.value| == 3 && r.value[0] == JNum(ID) && r.value[1] == m.details
  {
    var details :- SerValueIsObject(m.details, "Details must be object like.");
    Ok([JNum(ID), details, JStr(m.reason)])
  }

  /** Deserialisation; the details object check runs only after the reason
      was read, so a frame missing its reason fails on the reason whatever
      its details. It accepts exactly the frames the encoder writes. */
  function Decode(s: Frame): (r: Result<Abort, CodecError>)
    ensures r.Ok? ==> Encode(r.value) == Ok(s)
    ensures 0 < |s| && IsU64(s[0]) && s[0].n != ID ==> r == Err(InvalidId("Abort", s[0].n, ID))
    ensures |s| == 2 && s[0] == JNum(ID) ==> r == Err(Custom("Reason must be a String."))
    ensures |s| == 3 && s[0] == JNum(ID) && s[2].JStr? && !s[1].JObj? ==> r == Err(Custom("Details must be object like."))
  {
    var id :- ReadU64(s, 0, "Message ID must be type u8.");
    var _ :- ValidateId(id, ID, "Abort");
    var details :- DeserSeqElement(s, 1, "Details must be a JSON value.");
    var reason :- ReadString(s, 2, "Reason must be a String.");
    var _ :- DeserValueIsObject(details, "Details must be object like.");
    var _ :- EndOfSequence(s, 3);
    assert s == [JNum(ID), details, JStr(reason)];
    Ok(Abort(details, reason))
  }

  /** Every message the encoder accepts survives a round trip. */
  lemma RoundTrip(m: Abort)
    requires Encode(m).Ok?
    ensures Decode(Encode(m).value) == Ok(m)
  {
  }

  /** The source's sample frame. */
  lemma Sample()
    ensures var d := JObj(map["message" := JStr("The realm does not exist.")]);
            var s := [JNum(3), d, JStr("wamp.error.no_such_realm")];
            Encode(Abort(d, "wamp.error.no_such_realm")) == Ok(s)
            && Decode(s) == Ok(Abort(d, "wamp.error.no_such_realm"))
  {
  }
}
