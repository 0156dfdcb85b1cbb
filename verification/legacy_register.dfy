/** REGISTER (tag 64) of the older codec: a callee offers a procedure to
    the dealer. Wire form `[64, request_id, options, procedure]`. */
module LegacyRegister {
  import opened Json
  import opened Wire

  const ID: U64 := 64

  datatype Register = Register(requestId: U64, options: JValue, procedure: string)


  /** Serialisation writes the options as they are, without the object check
      the decoder applies, and so cannot fail. */
  function Encode(m: Register): (s: Frame)
    ensures |s| == 4 && s[0] == JNum(ID) && s[2] == m.options
  {
    [JNum(ID), JNum(m.requestId), m.options, JStr(m.procedure)]
  }

  /** Deserialisation; the options object check runs once before and once
      after the procedure is read. It accepts exactly the frames the encoder
      writes for messages whose options are an object. */
  function Decode(s: Frame): (r: Result<Register, CodecError>)
    ensures r.Ok? ==> Encode(r.value) == s && r.value.options.JObj?
    ensures 0 < |s| && IsU64(s[0]) && s[0].n != ID ==> r == Err(InvalidId("Register", s[0].n, ID))
    ensures 2 < |s| && s[0] == JNum(ID) && IsU64(s[1]) && !s[2].JObj? ==> r == Err(Custom("options must be object like."))
    ensures |s| > 4 ==> r.Err?
  {
    var id :- ReadU64(s, 0, "Message id must be present and type u64.");
    var _ :- ValidateId(id, ID, "Register");
    var requestId :- ReadU64(s, 1, "Request ID must be present and type u64");
    var options :- DeserSeqElement(s, 2, "options must be present and object like");
    var _ :- DeserValueIsObject(options, "options must be object like.");
    var procedure :- ReadString(s, 3, "procedure URI must be present and type String");
    // the repeated object check, which the first one makes unfailing
    if !options.JObj? then Err(Custom("options must be object like.")) else
    var _ :- EndOfSequence(s, 4);
    Ok(Register(requestId, options, procedure))
  }

  /** A message with object options survives a round trip; any other message
      is written to a frame that its own decoder refuses. */
  lemma RoundTrip(m: Register)
    ensures m.options.JObj? ==> Decode(Encode(m)) == Ok(m)
    ensures !m.options.JObj? ==> Decode(Encode(m)) == Err(Custom("options must be object like."))
  {
  }

  /** The source's sample frame. */
  lemma Sample()
    ensures var s := [JNum(64), JNum(25349185), EmptyObject, JStr("com.myapp.myprocedure1")];
            Encode(Register(25349185, EmptyObject, "com.myapp.myprocedure1")) == s
            && Decode(s) == Ok(Register(25349185, EmptyObject, "com.myapp.myprocedure1"))
  {
  }
}
