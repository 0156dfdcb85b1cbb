/** Building blocks shared by every message codec: the result and error types,
    positional reading of a frame, the object/args/kwargs shape checks, the
    four-way args/kwargs elision rule, and the role-direction table type. */
module Wire {
  import opened Json

  datatype Option<+T> = None | Some(value: T)

  datatype Result<+T, +E> = Ok(value: T) | Err(error: E) {
    predicate IsFailure() {
      Err?
    }

    function PropagateFailure<U>(): Result<U, E>
      requires Err?
    {
      Err(error)
    }

    function Extract(): T
      requires Ok?
    {
      value
    }
  }

  /** What serialising or deserialising a frame can fail with. */
  datatype CodecError =
    | Custom(msg: string)                               // a helper's own message
    | InvalidType(kind: string)                         // an element of the wrong JSON kind
    | InvalidId(name: string, id: nat, wanted: nat)     // a leading tag that is not the type's
    | InvalidErrorEvent(tag: nat)                       // an error cause tag outside the enum
    | TrailingElements(count: nat)                      // elements left over after the last field

  const U64_LIMIT: nat := 0x1_0000_0000_0000_0000

  /** The protocol's ids and tags are u64. */
  type U64 = n: nat | n < U64_LIMIT

  /** A JSON value that reads as a u64. */
  predicate IsU64(v: JValue) {
    v.JNum? && v.n < U64_LIMIT
  }

  /** One serialised message: the positional sequence `[tag, field, ...]`. */
  type Frame = seq<JValue>

  /** The element `deser_seq_element` reads at position i: present means it
      exists, whatever its value (a JSON null is present); an exhausted frame
      fails with the caller's message. */
  function DeserSeqElement(s: Frame, i: nat, msg: string): (r: Result<JValue, CodecError>)
    ensures r.Ok? <==> i < |s|
    ensures r.Ok? ==> r.value == s[i]
    ensures r.Err? ==> r.error == Custom(msg)
  {
    if i < |s| then Ok(s[i]) else Err(Custom(msg))
  }

  /** `deser_seq_element` at type u64: the element must exist and be a number
      that fits in 64 bits. */
  function ReadU64(s: Frame, i: nat, msg: string): (r: Result<U64, CodecError>)
    ensures r.Ok? <==> i < |s| && s[i].JNum? && s[i].n < U64_LIMIT
    ensures r.Ok? ==> s[i] == JNum(r.value)
    ensures i >= |s| ==> r == Err(Custom(msg))
  {
    var v :- DeserSeqElement(s, i, msg);
    if v.JNum? && v.n < U64_LIMIT then Ok(v.n) else Err(InvalidType("u64"))
  }

  /** `deser_seq_element` at type String: the element must exist and be a string. */
  function ReadString(s: Frame, i: nat, msg: string): (r: Result<string, CodecError>)
    ensures r.Ok? <==> i < |s| && s[i].JStr?
    ensures r.Ok? ==> s[i] == JStr(r.value)
    ensures i >= |s| ==> r == Err(Custom(msg))
  {
    var v :- DeserSeqElement(s, i, msg);
    if v.JStr? then Ok(v.s) else Err(InvalidType("a string"))
  }

  /** `validate_id`: succeeds exactly when the tag read is the type's own,
      otherwise names both. */
  function ValidateId(id: nat, expected: nat, name: string): (r: Result<(), CodecError>)
    ensures r.Ok? <==> id == expected
    ensures r.Err? ==> r.error == InvalidId(name, id, expected)
  {
    if id == expected then Ok(()) else Err(InvalidId(name, id, expected))
  }

  /** `deser_value_is_object`: the decoder-side object check. */
  function DeserValueIsObject(v: JValue, msg: string): (r: Result<(), CodecError>)
    ensures r.Ok? <==> v.JObj?
    ensures r.Err? ==> r.error == Custom(msg)
  {
    if v.JObj? then Ok(()) else Err(Custom(msg))
  }

  /** `ser_value_is_object`: the encoder-side object check, which hands the
      value back unchanged. */
  function SerValueIsObject(v: JValue, msg: string): (r: Result<JValue, CodecError>)
    ensures r.Ok? <==> v.JObj?
    ensures r.Ok? ==> r.value == v
    ensures r.Err? ==> r.error == Custom(msg)
  {
    if v.JObj? then Ok(v) else Err(Custom(msg))
  }

  /** `ser_value_is_args`: only its "Array like or Null" shape check is known. */
  function SerValueIsArgs(v: JValue, msg: string): (r: Result<JValue, CodecError>)
    ensures r.Ok? <==> IsArgsShaped(v)
    ensures r.Ok? ==> r.value == v
    ensures r.Err? ==> r.error == Custom(msg)
  {
    if IsArgsShaped(v) then Ok(v) else Err(Custom(msg))
  }

  /** `ser_value_is_kwargs`: only its "Object like or Null" shape check is known. */
  function SerValueIsKwargs(v: JValue, msg: string): (r: Result<JValue, CodecError>)
    ensures r.Ok? <==> IsKwargsShaped(v)
    ensures r.Ok? ==> r.value == v
    ensures r.Err? ==> r.error == Custom(msg)
  {
    if IsKwargsShaped(v) then Ok(v) else Err(Custom(msg))
  }

  /** What the newer codec's `deser_args_kwargs_element` does when the frame
      has no element left. Its body is not part of this model, so the decoders
      that use it take this choice as a parameter and nothing is proved that
      depends on it. */
  datatype MissingTrailing = DecodeAsNull | Reject

  /** `deser_args_kwargs_element` for args: a present element must be an array
      or null. */
  function DeserArgsElement(s: Frame, i: nat, missing: MissingTrailing, msg: string): (r: Result<JValue, CodecError>)
    ensures i < |s| ==> (r.Ok? <==> IsArgsShaped(s[i]))
    ensures i < |s| && r.Ok? ==> r.value == s[i]
    ensures r.Ok? ==> IsArgsShaped(r.value)
  {
    if i < |s| then
      (if IsArgsShaped(s[i]) then Ok(s[i]) else Err(Custom(msg)))
    else if missing == DecodeAsNull then Ok(JNull)
    else Err(Custom(msg))
  }

  /** `deser_args_kwargs_element` for kwargs: a present element must be an
      object or null. */
  function DeserKwargsElement(s: Frame, i: nat, missing: MissingTrailing, msg: string): (r: Result<JValue, CodecError>)
    ensures i < |s| ==> (r.Ok? <==> IsKwargsShaped(s[i]))
    ensures i < |s| && r.Ok? ==> r.value == s[i]
    ensures r.Ok? ==> IsKwargsShaped(r.value)
  {
    if i < |s| then
      (if IsKwargsShaped(s[i]) then Ok(s[i]) else Err(Custom(msg)))
    else if missing == DecodeAsNull then Ok(JNull)
    else Err(Custom(msg))
  }

  /** serde_json refuses a sequence with elements its visitor did not read. */
  function EndOfSequence(s: Frame, n: nat): (r: Result<(), CodecError>)
    ensures r.Ok? <==> |s| <= n
  {
    if |s| <= n then Ok(()) else Err(TrailingElements(|s| - n))
  }

  /** The trailing elements the four-way elision rule writes after a message's
      fixed fields, given args and kwargs that passed their shape checks: both
      null gives nothing, kwargs alone gives an empty-array placeholder before
      it, args alone gives args, both give both. */
  function ArgsKwargsTail(args: JValue, kwargs: JValue): (t: Frame)
    ensures |t| == (if args.JNull? && kwargs.JNull? then 0 else if kwargs.JNull? then 1 else 2)
    ensures !args.JNull? ==> t[0] == args
    ensures args.JNull? && !kwargs.JNull? ==> t[0] == EmptyArray
    ensures !kwargs.JNull? ==> t[1] == kwargs
  {
    if args.JNull? then
      (if kwargs.JNull? then [] else [EmptyArray, kwargs])
    else
      (if kwargs.JNull? then [args] else [args, kwargs])
  }

  /** The args a decoder reads back from an elided frame whose kwargs are
      present: the placeholder `[]` when args were null, args otherwise. */
  function ArgsAfterElision(args: JValue, kwargs: JValue): (a: JValue)
    ensures !kwargs.JNull? ==> a == ArgsKwargsTail(args, kwargs)[0]
    ensures a.JNull? <==> args.JNull? && kwargs.JNull?
  {
    if args.JNull? && !kwargs.JNull? then EmptyArray else args
  }

  /** The args and kwargs of a message that carries a payload. */
  datatype Tail = Tail(args: JValue, kwargs: JValue)

  /** The newer codec's reading of a payload: args at position n and kwargs
      after it, each through `deser_args_kwargs_element`, then the end of the
      frame. */
  function DeserElidedTail(s: Frame, n: nat, missing: MissingTrailing): (r: Result<Tail, CodecError>)
    ensures r.Ok? ==> |s| <= n + 2 && IsArgsShaped(r.value.args) && IsKwargsShaped(r.value.kwargs)
    ensures r.Ok? && n < |s| ==> r.value.args == s[n]
    ensures r.Ok? && n + 1 < |s| ==> r.value.kwargs == s[n + 1]
    ensures n + 2 == |s| && IsArgsShaped(s[n]) && IsKwargsShaped(s[n + 1]) ==> r == Ok(Tail(s[n], s[n + 1]))
  {
    var args :- DeserArgsElement(s, n, missing, "Args must be array like or null.");
    var kwargs :- DeserKwargsElement(s, n + 1, missing, "Kwargs must be object like or null.");
    var _ :- EndOfSequence(s, n + 2);
    Ok(Tail(args, kwargs))
  }

  /** The older codec's reading of a payload: args and kwargs through plain
      `deser_seq_element`, so both must be present and neither is shape
      checked, then the end of the frame. */
  function DeserRequiredTail(s: Frame, n: nat): (r: Result<Tail, CodecError>)
    ensures r.Ok? <==> |s| == n + 2
    ensures r.Ok? ==> r.value == Tail(s[n], s[n + 1])
    ensures |s| <= n ==> r == Err(Custom("Args must be array like or null."))
    ensures |s| == n + 1 ==> r == Err(Custom("Kwargs must be object like or null."))
  {
    var args :- DeserSeqElement(s, n, "Args must be array like or null.");
    var kwargs :- DeserSeqElement(s, n + 1, "Kwargs must be object like or null.");
    var _ :- EndOfSequence(s, n + 2);
    Ok(Tail(args, kwargs))
  }

  /** Reading back an elided payload after any fixed fields gives the payload,
      with null args before present kwargs turned into `[]`. When kwargs is
      null the frame stops early, and this needs missing elements to read as
      null. */
  lemma {:induction false} ElidedTailRoundTrip(fixed: Frame, args: JValue, kwargs: JValue, missing: MissingTrailing)
    requires IsArgsShaped(args) && IsKwargsShaped(kwargs)
    requires missing == DecodeAsNull || !kwargs.JNull?
    ensures DeserElidedTail(fixed + ArgsKwargsTail(args, kwargs), |fixed|, missing)
         == Ok(Tail(ArgsAfterElision(args, kwargs), kwargs))
  {
    var s := fixed + ArgsKwargsTail(args, kwargs);
    var n := |fixed|;
    if !kwargs.JNull? {
      assert s[n] == ArgsAfterElision(args, kwargs) && s[n + 1] == kwargs;
    } else if !args.JNull? {
      assert |s| == n + 1 && s[n] == args;
    } else {
      assert |s| == n;
    }
  }

  /** A payload read by the newer codec is written back unchanged exactly when
      the frame's payload part holds no null. */
  lemma {:induction false} ElidedTailCanonical(s: Frame, n: nat, missing: MissingTrailing)
    requires n <= |s|
    requires DeserElidedTail(s, n, missing).Ok?
    ensures var t := DeserElidedTail(s, n, missing).value;
            ArgsKwargsTail(t.args, t.kwargs) == s[n..] <==> forall k :: n <= k < |s| ==> !s[k].JNull?
  {
    var t := DeserElidedTail(s, n, missing).value;
    if |s| == n + 2 {
      if !s[n].JNull? && !s[n + 1].JNull? {
        assert ArgsKwargsTail(t.args, t.kwargs) == [s[n], s[n + 1]] == s[n..];
      }
    } else if |s| == n + 1 {
      if !s[n].JNull? {
        assert t.kwargs == JNull by {
          assert missing == DecodeAsNull;
        }
        assert ArgsKwargsTail(t.args, t.kwargs) == [s[n]] == s[n..];
      }
    } else {
      assert missing == DecodeAsNull;
      assert ArgsKwargsTail(t.args, t.kwargs) == [] == s[n..];
    }
  }

  /** The older codec refuses every elided payload whose kwargs is null: the
      frame is then one or two elements short. */
  lemma {:induction false} RequiredTailRejectsElided(fixed: Frame, args: JValue, kwargs: JValue)
    requires kwargs.JNull?
    ensures DeserRequiredTail(fixed + ArgsKwargsTail(args, kwargs), |fixed|).Err?
  {
    assert |fixed + ArgsKwargsTail(args, kwargs)| < |fixed| + 2;
  }

  /** With kwargs present the older codec reads an elided payload back like
      the newer one. */
  lemma {:induction false} RequiredTailRoundTrip(fixed: Frame, args: JValue, kwargs: JValue)
    requires IsArgsShaped(args) && !kwargs.JNull?
    ensures DeserRequiredTail(fixed + ArgsKwargsTail(args, kwargs), |fixed|)
         == Ok(Tail(ArgsAfterElision(args, kwargs), kwargs))
  {
    var s := fixed + ArgsKwargsTail(args, kwargs);
    assert s[|fixed|] == ArgsAfterElision(args, kwargs) && s[|fixed| + 1] == kwargs;
  }

  /** The six protocol roles. */
  datatype Role = Callee | Caller | Publisher | Subscriber | Dealer | Broker

  /** The advisory entry of a role-direction table. */
  datatype MessageDirection = MessageDirection(receives: bool, sends: bool)
}
