/** The tagged union of every message the client handles, one variant per
    record, plus `Extension` for a frame whose tag names no known message.
    The client imports every record from the newer crate, but only some of
    the newer crate's record files are part of this model; for the others
    (AUTHENTICATE, CHALLENGE, EVENT, HELLO, INTERRUPT, INVOCATION, PUBLISH,
    PUBLISHED, REGISTER, RESULT, UNSUBSCRIBE, WELCOME) the older codec's
    record of the same message stands in. */
module Messages {
  import opened Json
  import Wire
  import CoreAbort
  import CoreCall
  import CoreCancel
  import CoreError
  import CoreGoodbye
  import CoreRegistered
  import CoreSubscribe
  import CoreSubscribed
  import CoreUnregister
  import CoreUnregistered
  import CoreUnsubscribed
  import CoreYield
  import LegacyAuthenticate
  import LegacyChallenge
  import LegacyEvent
  import LegacyHello
  import LegacyInterrupt
  import LegacyInvocation
  import LegacyPublish
  import LegacyPublished
  import LegacyRegister
  import LegacyResult
  import LegacyUnsubscribe
  import LegacyWelcome

  datatype Message =
    | Abort(abort: CoreAbort.Abort)
    | Authenticate(authenticate: LegacyAuthenticate.Authenticate)
    | Call(call: CoreCall.Call)
    | Cancel(cancel: CoreCancel.Cancel)
    | Challenge(challenge: LegacyChallenge.Challenge)
    | Error(error: CoreError.WampError)
    | Event(event: LegacyEvent.Event)
    | Goodbye(goodbye: CoreGoodbye.Goodbye)
    | Hello(hello: LegacyHello.Hello)
    | Interrupt(interrupt: LegacyInterrupt.Interrupt)
    | Invocation(invocation: LegacyInvocation.Invocation)
    | Publish(publish: LegacyPublish.Publish)
    | Published(published: LegacyPublished.Published)
    | Register(register: LegacyRegister.Register)
    | Registered(registered: CoreRegistered.Registered)
    | Result(result: LegacyResult.WampResult)
    | Subscribe(subscribe: CoreSubscribe.Subscribe)
    | Subscribed(subscribed: CoreSubscribed.Subscribed)
    | Unregister(unregister: CoreUnregister.Unregister)
    | Unregistered(unregistered: CoreUnregistered.Unregistered)
    | Unsubscribe(unsubscribe: LegacyUnsubscribe.Unsubscribe)
    | Unsubscribed(unsubscribed: CoreUnsubscribed.Unsubscribed)
    | Welcome(welcome: LegacyWelcome.Welcome)
    | Yield(yielded: CoreYield.Yield)
    | Extension(frame: seq<JValue>)

  /** The message's tag; an extension frame has none the client knows. */
  function Id(m: Message): (r: Wire.Option<Wire.U64>)
    ensures r.None? <==> m.Extension?
    ensures m.Error? ==> r == Wire.Some(CoreError.ID)
    ensures m.Call? ==> r == Wire.Some(CoreCall.ID)
  {
    match m
    case Abort(_) => Wire.Some(CoreAbort.ID)
    case Authenticate(_) => Wire.Some(LegacyAuthenticate.ID)
    case Call(_) => Wire.Some(CoreCall.ID)
    case Cancel(_) => Wire.Some(CoreCancel.ID)
    case Challenge(_) => Wire.Some(LegacyChallenge.ID)
    case Error(_) => Wire.Some(CoreError.ID)
    case Event(_) => Wire.Some(LegacyEvent.ID)
    case Goodbye(_) => Wire.Some(CoreGoodbye.ID)
    case Hello(_) => Wire.Some(LegacyHello.ID)
    case Interrupt(_) => Wire.Some(LegacyInterrupt.ID)
    case Invocation(_) => Wire.Some(LegacyInvocation.ID)
    case Publish(_) => Wire.Some(LegacyPublish.ID)
    case Published(_) => Wire.Some(LegacyPublished.ID)
    case Register(_) => Wire.Some(LegacyRegister.ID)
    case Registered(_) => Wire.Some(CoreRegistered.ID)
    case Result(_) => Wire.Some(LegacyResult.ID)
    case Subscribe(_) => Wire.Some(CoreSubscribe.ID)
    case Subscribed(_) => Wire.Some(CoreSubscribed.ID)
    case Unregister(_) => Wire.Some(CoreUnregister.ID)
    case Unregistered(_) => Wire.Some(CoreUnregistered.ID)
    case Unsubscribe(_) => Wire.Some(LegacyUnsubscribe.ID)
    case Unsubscribed(_) => Wire.Some(CoreUnsubscribed.ID)
    case Welcome(_) => Wire.Some(LegacyWelcome.ID)
    case Yield(_) => Wire.Some(CoreYield.ID)
    case Extension(_) => Wire.None
  }
}
