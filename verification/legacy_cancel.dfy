/** CANCEL (tag 49) of the older codec: a caller asks the dealer to cancel
    a pending call. Wire form `[49, request_id, options]`. */
module LegacyCancel {
  import opened Json
  import opened Wire

  const ID: U64 := 49

  datatype Cancel = Cancel(requestId: U64, options: JValue)


  /** Serialisation refuses options that are not an object. */
  function Encode(m: Cancel): (r: Result<Frame, CodecError>)
    ensures r.Ok? <==> m.options.JObj?
    ensures r.Err? ==> r.error == Custom("Options must be object like.")
    ensures r.Ok? ==> |r.value| == 3 && r.value[0] == JNum(ID) && r.value[2] == m.options
  {
    var options :- SerValueIsObject(m.options, "Options must be object like.");
    Ok([JNum(ID), JNum(m.requestId), options])
  }

  /** Deserialisation accepts exactly the frames the encoder writes. */
  function Decode(s: Frame): (r: Result<Cancel, CodecError>)
    ensures r.Ok? ==> Encode(r.value) == Ok(s)
    ensures 0 < |s| && IsU64(s[0]) && s[0].n != ID ==> r == Err(InvalidId("Cancel", s[0].n, ID))
    ensures 2 < |s| && s[0] == JNum(ID) && IsU64(s[1]) && !s[2].JObj? ==> r == Err(Custom("Options must be object like."))
    ensures |s| > 3 ==> r.Err?
  {
    var id :- ReadU64(s, 0, "Message ID must be type u64.");
    var _ :- ValidateId(id, ID, "Cancel");
    var requestId :- ReadU64(s, 1, "Request ID must be a u64.");
    var options :- DeserSeqElement(s, 2, "Options must be a JSON value.");
    var _ :- DeserValueIsObject(options, "Options must be object like.");
    var _ :- EndOfSequence(s, 3);
    assert s == [JNum(ID), JNum(requestId), options];
    Ok(Cancel(requestId, options))
  }

  /** Every message the encoder accepts survives a round trip. */
  lemma RoundTrip(m: Cancel)
    requires Encode(m).Ok?
    ensures Decode(Encode(m).value) == Ok(m)
  {
  }
}
