/** ERROR (tag 8) of the newer codec: a peer reports that a request failed.
    Wire form `[8, event, request_id, details, error]`, where `event` is the
    tag of the request message that failed. */
module CoreError {
  import opened Json
  import opened Wire

  const ID: U64 := 8

  /** The request types an ERROR can answer, each written as that request's
      message tag. */
  datatype WampErrorEvent = Unsubscribe | Subscribe | Publish | Register | Unregister | Invocation | Cancel | Call

  /** The tag an error cause is written as. */
  function EventTag(e: WampErrorEvent): (t: U64)
    ensures t in {16, 32, 34, 48, 49, 64, 66, 68}
  {
    match e
    case Unsubscribe => 34
    case Subscribe => 32
    case Publish => 16
    case Register => 64
    case Unregister => 66
    case Invocation => 68
    case Cancel => 49
    case Call => 48
  }

  /** Reading an error cause back from its tag; any other number is refused. */
  function EventFromTag(t: U64): (r: Result<WampErrorEvent, CodecError>)
    ensures r.Ok? ==> EventTag(r.value) == t
    ensures r.Err? <==> forall e: WampErrorEvent :: EventTag(e) != t
    ensures r.Err? ==> r.error == InvalidErrorEvent(t)
  {
    if t == 34 then Ok(Unsubscribe)
    else if t == 32 then Ok(Subscribe)
    else if t == 16 then Ok(Publish)
    else if t == 64 then Ok(Register)
    else if t == 66 then Ok(Unregister)
    else if t == 68 then Ok(Invocation)
    else if t == 49 then Ok(Cancel)
    else if t == 48 then Ok(Call)
    else Err(InvalidErrorEvent(t))
  }

  /** Distinct causes are written as distinct tags, and each reads back. */
  lemma EventTagRoundTrip(e: WampErrorEvent)
    ensures EventFromTag(EventTag(e)) == Ok(e)
  {
  }

  datatype WampError = WampError(event: WampErrorEvent, requestId: U64, details: JValue, error: string)

  /** Everyone receives ERROR except the broker; callees, dealers and brokers
      send it. */
  function Direction(role: Role): (d: MessageDirection)
    ensures d.receives <==> role != Broker
    ensures d.sends <==> role == Callee || role == Dealer || role == Broker
  {
    match role
    case Callee => MessageDirection(true, true)
    case Dealer => MessageDirection(true, true)
    case Broker => MessageDirection(false, true)
    case _ => MessageDirection(true, false)
  }

  /** Serialisation writes the details as they are, without the object check
      the decoder applies, and so cannot fail. */
  function Encode(m: WampError): (s: Frame)
    ensures |s| == 5 && s[0] == JNum(ID) && s[1] == JNum(EventTag(m.event)) && s[3] == m.details
  {
    [JNum(ID), JNum(EventTag(m.event)), JNum(m.requestId), m.details, JStr(m.error)]
  }

  /** Deserialisation; the details object check runs once before and once
      after the error URI is read. It accepts exactly the frames the encoder
      writes for messages whose details are an object. */
  function Decode(s: Frame): (r: Result<WampError, CodecError>)
    ensures r.Ok? ==> Encode(r.value) == s && r.value.details.JObj?
    ensures 0 < |s| && IsU64(s[0]) && s[0].n != ID ==> r == Err(InvalidId("WampError", s[0].n, ID))
    ensures 1 < |s| && s[0] == JNum(ID) && IsU64(s[1]) && EventFromTag(s[1].n).Err? ==> r == Err(InvalidErrorEvent(s[1].n))
    ensures |s| > 5 ==> r.Err?
  {
    var id :- ReadU64(s, 0, "Message id must be present and type u64.");
    var _ :- ValidateId(id, ID, "WampError");
    var tag :- ReadU64(s, 1, "Message type of error must be present and type u64");
    var event :- EventFromTag(tag);
    var requestId :- ReadU64(s, 2, "Request ID must be present and type u64");
    var details :- DeserSeqElement(s, 3, "Details must be present and object like");
    var _ :- DeserValueIsObject(details, "Details must be object like.");
    var error :- ReadString(s, 4, "Error URI must be present and type String");
    // the repeated object check, which the first one makes unfailing
    if !details.JObj? then Err(Custom("Details must be object like.")) else
    var _ :- EndOfSequence(s, 5);
    Ok(WampError(event, requestId, details, error))
  }

  /** A message with object details survives a round trip; any other message
      is written to a frame that its own decoder refuses. */
  lemma RoundTrip(m: WampError)
    ensures m.details.JObj? ==> Decode(Encode(m)) == Ok(m)
    ensures !m.details.JObj? ==> Decode(Encode(m)) == Err(Custom("Details must be object like."))
  {
    EventTagRoundTrip(m.event);
  }

  /** An ERROR frame whose cause tag is 34 reads as an error about an
      UNSUBSCRIBE, the source's sample. */
  lemma Sample()
    ensures var s := [JNum(8), JNum(34), JNum(85346237), EmptyObject, JStr("wamp.error.no_such_subscription")];
            var m := WampError(Unsubscribe, 85346237, EmptyObject, "wamp.error.no_such_subscription");
            Decode(s) == Ok(m) && Encode(m) == s
  {
  }
}
