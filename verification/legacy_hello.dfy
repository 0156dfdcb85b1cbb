/** HELLO (tag 1) of the older codec: a client opens a session on a realm.
    Wire form `[1, realm, details]`. */
module LegacyHello {
  import opened Json
  import opened Wire

  const ID: U64 := 1

  datatype Hello = Hello(realm: string, details: JValue)

  /** Serialisation refuses details that are not an object. */
  function Encode(m: Hello): (r: Result<Frame, CodecError>)
    ensures r.Ok? <==> m.details.JObj?
    ensures r.Err? ==> r.error == Custom("Details must be object like.")
    ensures r.Ok? ==> |r.value| == 3 && r.value[0] == JNum(ID) && r.value[2] == m.details
  {
    var details :- SerValueIsObject(m.details, "Details must be object like.");
    Ok([JNum(ID), JStr(m.realm), details])
  }

  /** Deserialisation accepts exactly the frames the encoder writes. */
  function Decode(s: Frame): (r: Result<Hello, CodecError>)
    ensures r.Ok? ==> Encode(r.value) == Ok(s)
    ensures 0 < |s| && IsU64(s[0]) && s[0].n != ID ==> r == Err(InvalidId("Hello", s[0].n, ID))
    ensures 2 < |s| && s[0] == JNum(ID) && s[1].JStr? && !s[2].JObj? ==> r == Err(Custom("Details must be object like."))
    ensures |s| > 3 ==> r.Err?
  {
    var id :- ReadU64(s, 0, "Message ID must be type u8.");
    var _ :- ValidateId(id, ID, "Hello");
    var realm :- ReadString(s, 1, "realm must be a String.");
    var details :- DeserSeqElement(s, 2, "Details must be a JSON value.");
    var _ :- DeserValueIsObject(details, "Details must be object like.");
    var _ :- EndOfSequence(s, 3);
    assert s == [JNum(ID), JStr(realm), details];
    Ok(Hello(realm, details))
  }

  /** Every message the encoder accepts survives a round trip. */
  lemma RoundTrip(m: Hello)
    requires Encode(m).Ok?
    ensures Decode(Encode(m).value) == Ok(m)
  {
  }

  /** The source's sample frame. */
  lemma Sample()
    ensures var d := JObj(map["roles" := JObj(map["publisher" := EmptyObject, "subscriber" := EmptyObject])]);
            var s := [JNum(1), JStr("somerealm"), d];
            Encode(Hello("somerealm", d)) == Ok(s) && Decode(s) == Ok(Hello("somerealm", d))
  {
  }
}
