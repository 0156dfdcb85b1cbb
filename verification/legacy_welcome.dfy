/** WELCOME (tag 2) of the older codec: the router accepts a session.
    Wire form `[2, session, details]`. */
module LegacyWelcome {
  import opened Json
  import opened Wire

  const ID: U64 := 2

  datatype Welcome = Welcome(session: U64, details: JValue)

  /** Serialisation refuses details that are not an object. */
  function Encode(m: Welcome): (r: Result<Frame, CodecError>)
    ensures r.Ok? <==> m.details.JObj?
    ensures r.Err? ==> r.error == Custom("details must be object like.")
    ensures r.Ok? ==> |r.value| == 3 && r.value[0] == JNum(ID) && r.value[2] == m.details
  {
    var details :- SerValueIsObject(m.details, "details must be object like.");
    Ok([JNum(ID), JNum(m.session), details])
  }

  /** Deserialisation accepts exactly the frames the encoder writes. */
  function Decode(s: Frame): (r: Result<Welcome, CodecError>)
    ensures r.Ok? ==> Encode(r.value) == Ok(s)
    ensures 0 < |s| && IsU64(s[0]) && s[0].n != ID ==> r == Err(InvalidId("Welcome", s[0].n, ID))
    ensures 2 < |s| && s[0] == JNum(ID) && IsU64(s[1]) && !s[2].JObj? ==> r == Err(Custom("details must be object like."))
    ensures |s| > 3 ==> r.Err?
  {
    var id :- ReadU64(s, 0, "Message ID must be type u64.");
    var _ :- ValidateId(id, ID, "Welcome");
    var session :- ReadU64(s, 1, "Request ID must be a u64.");
    var details :- DeserSeqElement(s, 2, "details must be a JSON value.");
    var _ :- DeserValueIsObject(details, "details must be object like.");
    var _ :- EndOfSequence(s, 3);
    assert s == [JNum(ID), JNum(session), details];
    Ok(Welcome(session, details))
  }

  /** Every message the encoder accepts survives a round trip. */
  lemma RoundTrip(m: Welcome)
    requires Encode(m).Ok?
    ensures Decode(Encode(m).value) == Ok(m)
  {
  }

  /** The source's sample frame. */
  lemma Sample()
    ensures var d := JObj(map["roles" := JObj(map["broker" := EmptyObject])]);
            var s := [JNum(2), JNum(9129137332), d];
            Encode(Welcome(9129137332, d)) == Ok(s) && Decode(s) == Ok(Welcome(9129137332, d))
  {
  }
}
