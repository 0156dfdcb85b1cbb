/** The client's error type, and the conversion that reads an error cause off
    a request message. */
module Errors {
  import Wire
  import Messages
  import CoreAbort
  import CoreError
  import CoreCall
  import CoreSubscribed
  import LegacyUnsubscribe

  /** The failures the client reports. The transport and header variants wrap
      errors of libraries outside this model and carry no payload here; a
      serialisation failure carries the codec's reason. */
  datatype Error =
    | InvalidUri
    | ToStrError
    | InvalidHeaderValue
    | TungsteniteError
    | SerdeJsonError(cause: Wire.CodecError)
    | InvalidMessageEnumMember
    | Error(text: string)
    | InvalidFrameReceived(frame: Messages.Message)
    | Close
    | Abort(abort: CoreAbort.Abort)
    | NoSuchWampErrorType(message: Messages.Message)
    | NoSuchMessage

  /** The error cause naming a request message: exactly the eight request
      types an ERROR can answer convert, each to the cause written with its own
      tag; any other message, or one without a tag, is refused and handed back
      inside the error. */
  function ErrorEventOf(m: Messages.Message): (r: Wire.Result<CoreError.WampErrorEvent, Error>)
    ensures r.Ok? ==> Messages.Id(m) == Wire.Some(CoreError.EventTag(r.value))
    ensures r.Err? <==> Messages.Id(m).None? || forall e: CoreError.WampErrorEvent :: CoreError.EventTag(e) != Messages.Id(m).value
    ensures r.Err? ==> r.error == NoSuchWampErrorType(m)
  {
    match Messages.Id(m)
    case Some(id) =>
      if id == 34 then Wire.Ok(CoreError.Unsubscribe)
      else if id == 32 then Wire.Ok(CoreError.Subscribe)
      else if id == 16 then Wire.Ok(CoreError.Publish)
      else if id == 64 then Wire.Ok(CoreError.Register)
      else if id == 66 then Wire.Ok(CoreError.Unregister)
      else if id == 68 then Wire.Ok(CoreError.Invocation)
      else if id == 49 then Wire.Ok(CoreError.Cancel)
      else if id == 48 then Wire.Ok(CoreError.Call)
      else Wire.Err(NoSuchWampErrorType(m))
    case None => Wire.Err(NoSuchWampErrorType(m))
  }

  /** Each request message converts to its own cause: a CALL to `Call`, an
      UNSUBSCRIBE to `Unsubscribe`, and a reply such as SUBSCRIBED to nothing. */
  lemma {:induction false} ErrorEventOfRequests(c: CoreCall.Call, u: LegacyUnsubscribe.Unsubscribe, s: CoreSubscribed.Subscribed)
    ensures ErrorEventOf(Messages.Call(c)) == Wire.Ok(CoreError.Call)
    ensures ErrorEventOf(Messages.Unsubscribe(u)) == Wire.Ok(CoreError.Unsubscribe)
    ensures ErrorEventOf(Messages.Subscribed(s)) == Wire.Err(NoSuchWampErrorType(Messages.Subscribed(s)))
  {
  }
}
