/** SUBSCRIBE (tag 32) of the newer codec: a subscriber asks the broker for
    the events of a topic. Wire form `[32, request_id, options, topic]`. */
module CoreSubscribe {
  import opened Json
  import opened Wire

  const ID: U64 := 32

  datatype Subscribe = Subscribe(requestId: U64, options: JValue, topic: string)

  /** The subscriber sends SUBSCRIBE and the broker receives it. */
  function Direction(role: Role): (d: MessageDirection)
    ensures d.sends <==> role == Subscriber
    ensures d.receives <==> role == Broker
  {
    match role
    case Subscriber => MessageDirection(false, true)
    case Broker => MessageDirection(true, false)
    case _ => MessageDirection(false, false)
  }

  /** Serialisation writes the options as they are, without the object check
      the decoder applies, and so cannot fail. */
  function Encode(m: Subscribe): (s: Frame)
    ensures |s| == 4 && s[0] == JNum(ID) && s[2] == m.options
  {
    [JNum(ID), JNum(m.requestId), m.options, JStr(m.topic)]
  }

  /** Deserialisation; the options object check runs once before and once
      after the topic is read. It accepts exactly the frames the encoder
      writes for messages whose options are an object. */
  function Decode(s: Frame): (r: Result<Subscribe, CodecError>)
    ensures r.Ok? ==> Encode(r.value) == s && r.value.options.JObj?
    ensures 0 < |s| && IsU64(s[0]) && s[0].n != ID ==> r == Err(InvalidId("Subscribe", s[0].n, ID))
    ensures 2 < |s| && s[0] == JNum(ID) && IsU64(s[1]) && !s[2].JObj? ==> r == Err(Custom("options must be object like."))
    ensures |s| > 4 ==> r.Err?
  {
    var id :- ReadU64(s, 0, "Message id must be present and type u64.");
    var _ :- ValidateId(id, ID, "Subscribe");
    var requestId :- ReadU64(s, 1, "Request ID must be present and type u64");
    var options :- DeserSeqElement(s, 2, "options must be present and object like");
    var _ :- DeserValueIsObject(options, "options must be object like.");
    var topic :- ReadString(s, 3, "topic URI must be present and type String");
    // the repeated object check, which the first one makes unfailing
    if !options.JObj? then Err(Custom("options must be object like.")) else
    var _ :- EndOfSequence(s, 4);
    Ok(Subscribe(requestId, options, topic))
  }

  /** A message with object options survives a round trip; any other message
      is written to a frame that its own decoder refuses. */
  lemma RoundTrip(m: Subscribe)
    ensures m.options.JObj? ==> Decode(Encode(m)) == Ok(m)
    ensures !m.options.JObj? ==> Decode(Encode(m)) == Err(Custom("options must be object like."))
  {
  }

  /** The source's sample frame. */
  lemma Sample()
    ensures var s := [JNum(32), JNum(713845233), EmptyObject, JStr("com.myapp.mytopic1")];
            Encode(Subscribe(713845233, EmptyObject, "com.myapp.mytopic1")) == s
            && Decode(s) == Ok(Subscribe(713845233, EmptyObject, "com.myapp.mytopic1"))
  {
  }
}
