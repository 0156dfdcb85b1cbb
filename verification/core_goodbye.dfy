/** GOODBYE (tag 6) of the newer codec: either peer closes an established
    session. Wire form `[6, details, reason]`. */
module CoreGoodbye {
  import opened Json
  import opened Wire

  const ID: U64 := 6

  datatype Goodbye = Goodbye(details: JValue, reason: string)

  /** Every role receives GOODBYE and every role but the subscriber sends it. */
  function Direction(role: Role): (d: MessageDirection)
    ensures d.receives
    ensures d.sends <==> role != Subscriber
  {
    match role
    case Subscriber => MessageDirection(true, false)
    case _ => MessageDirection(true, true)
  }

  /** Serialisation refuses details that are not an object. */
  function Encode(m: Goodbye): (r: Result<Frame, CodecError>)
    ensures r.Ok? <==> m.details.JObj?
    ensures r.Err? ==> r.error == Custom("Details must be object like.")
    ensures r.Ok? ==> |r.value| == 3 && r.value[0] == JNum(ID) && r.value[1] == m.details
  {
    var details :- SerValueIsObject(m.details, "Details must be object like.");
    Ok([JNum(ID), details, JStr(m.reason)])
  }

  /** Deserialisation; the details object check runs only after the reason
      was read, so a frame missing its reason fails on the reason whatever
      its details. It accepts exactly the frames the encoder writes. */
  function Decode(s: Frame): (r: Result<Goodbye, CodecError>)
    ensures r.Ok? ==> Encode(r.value) == Ok(s)
    ensures 0 < |s| && IsU64(s[0]) && s[0].n != ID ==> r == Err(InvalidId("Goodbye", s[0].n, ID))
    ensures |s| == 2 && s[0] == JNum(ID) ==> r == Err(Custom("Reason must be a String."))
    ensures |s| == 3 && s[0] == JNum(ID) && s[2].JStr? && !s[1].JObj? ==> r == Err(Custom("Details must be object like."))
  {
    var id :- ReadU64(s, 0, "Message ID must be type u8.");
    var _ :- ValidateId(id, ID, "Goodbye");
    var details :- DeserSeqElement(s, 1, "Details must be a JSON value.");
    var reason :- ReadString(s, 2, "Reason must be a String.");
    var _ :- DeserValueIsObject(details, "Details must be object like.");
    var _ :- EndOfSequence(s, 3);
    assert s == [JNum(ID), details, JStr(reason)];
    Ok(Goodbye(details, reason))
  }

  /** Every message the encoder accepts survives a round trip. */
  lemma RoundTrip(m: Goodbye)
    requires Encode(m).Ok?
    ensures Decode(Encode(m).value) == Ok(m)
  {
  }

  /** The source's sample frame. */
  lemma Sample()
    ensures var d := JObj(map["message" := JStr("The host is shutting down now.")]);
            var s := [JNum(6), d, JStr("wamp.close.system_shutdown")];
            Encode(Goodbye(d, "wamp.close.system_shutdown")) == Ok(s)
            && Decode(s) == Ok(Goodbye(d, "wamp.close.system_shutdown"))
  {
  }
}
