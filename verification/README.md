# wamp-rs client core, modelled in Dafny

This project models the core of the `wamp-rs` WAMP client (the Web
Application Messaging Protocol, a JSON message protocol over WebSocket).
It covers three parts.

- **The message codecs.** There are two of them. The newer codec
  (`core/src/protocol/messages/`) and the older one (`src/messages/`) each
  turn a message record into its positional JSON array
  `[tag, field, ...]` and back. Every record is a `datatype`, its
  serialiser is an `Encode` function and its visitor a `Decode` function
  on a `Frame` (a `seq<JValue>`). The shared helpers of
  `src/messages/mod.rs` live in module `Wire`. The codecs check the tag,
  check that required elements are present and of the right kind, check
  that options and details are objects, and reject trailing elements. Each
  codec module proves a round trip and any asymmetry the code has. It also
  states the message's role-direction table and the sample frames of the
  source's tests.
- **The client context** (`core/src/client/context.rs`). This is a `class`
  whose request lists are `seq` fields. Each list holds request/callback
  pairs.
  - `Send` writes a frame to the socket, or buffers it when the context has
    no socket.
  - The push methods send the request and then append it to its list.
  - The find functions return the FIRST entry with the wanted request id.
  - `Extend` appends another context's lists.
  Callbacks are opaque `CallbackId`s. What running one does is the
  `Continuation` parameter, which returns the new context and the frames
  the callback wrote.
- **The client** (`client/src/client.rs`). The message dispatch
  `get_message_context` is a pure function, `WampClient.GetMessageContext`.
  It says, for every message kind:
  - which pending entry's continuation runs;
  - what that continuation is given;
  - which kinds are errors.
  The `Client` class applies that dispatch in `ReadContexts` and merges the
  returned context. `HandleAndEmptyContexts` prunes the pending lists after
  an ERROR.
- **The counters and topic registry** (`core/src/protocol/factories.rs`,
  `src/client/factories/increment.rs`) are classes with explicit counter
  bounds.

Where the written description of the client and its code disagree, the
model follows the code:

- Dispatch never removes the pending entry it ran. The same reply, error,
  event or interrupt runs the same continuation again
  (`RepeatedMessageRunsAgain`, with `RepeatedReplyRunsAgain` and
  `RepeatedEventRunsAgain` as its SUBSCRIBED and EVENT cases).
- Every continuation is given a fresh context holding the socket, not the
  client's own context.

## Model

| member | source | states |
|---|---|---|
| Wire.DeserSeqElement | src/messages/mod.rs:13-20 | an element is read exactly when the frame has it; a missing element fails with the caller's message |
| Wire.ReadU64 | src/messages/mod.rs:13-20 | a typed u64 read succeeds exactly when the element exists and is a number below 2^64, and returns that number |
| Wire.ReadString | src/messages/mod.rs:13-20 | a typed string read succeeds exactly when the element exists and is a string |
| Wire.ValidateId | src/messages/mod.rs:22-28 | succeeds exactly when the tag read is the type's own; otherwise it fails with the type name, the tag and the expected tag |
| Wire.DeserValueIsObject | src/messages/mod.rs:30-36 | succeeds exactly on a JSON object |
| Wire.SerValueIsObject | src/messages/mod.rs:38-44 | succeeds exactly on a JSON object and hands the value back unchanged |
| Wire.SerValueIsArgs | core/src/protocol/messages/call.rs:94 | accepts exactly an array or null, unchanged |
| Wire.SerValueIsKwargs | core/src/protocol/messages/call.rs:95 | accepts exactly an object or null, unchanged |
| Wire.DeserArgsElement | core/src/protocol/messages/call.rs:129 | a present args element is accepted exactly when it is an array or null; what is returned is always array-shaped |
| Wire.DeserKwargsElement | core/src/protocol/messages/call.rs:130 | a present kwargs element is accepted exactly when it is an object or null; what is returned is always object-shaped |
| Wire.EndOfSequence | core/src/protocol/messages/call.rs:122-133 | a frame is accepted only when it has no elements beyond those the visitor read |
| Wire.ArgsKwargsTail | core/src/protocol/messages/call.rs:96-108 | the four-way elision: nothing when both are null, args alone when only kwargs is null, `[]` in place of null args before present kwargs |
| Wire.ArgsAfterElision | core/src/protocol/messages/call.rs:96-108 | the args a reader gets back: the written element when kwargs is present; null only when both were null |
| Wire.DeserElidedTail | core/src/protocol/messages/call.rs:129-131 | the newer payload reading: at most two elements, each returned as written, and any well-shaped pair read back exactly |
| Wire.DeserRequiredTail | src/messages/call.rs:62-63 | the older payload reading succeeds exactly when both args and kwargs are present, with the specific error for each missing one |
| Wire.ElidedTailRoundTrip | core/src/protocol/messages/call.rs:93-133 | reading back an elided payload after any fixed fields gives the payload, with null args before kwargs turned into `[]` |
| Wire.ElidedTailCanonical | core/src/protocol/messages/call.rs:93-133 | a payload read by the newer codec is written back identically if and only if it holds no null |
| Wire.RequiredTailRejectsElided | src/messages/result.rs:59-93 | the older reading refuses every payload its writer elides, that is every one whose kwargs is null |
| Wire.RequiredTailRoundTrip | src/messages/result.rs:59-93 | with kwargs present, the older reading gets back what the writer wrote |
| CoreAbort.Direction | core/src/protocol/messages/abort.rs:32-59 | dealers and brokers send ABORT; exactly the other roles receive it |
| CoreAbort.Encode | core/src/protocol/messages/abort.rs:63-69 | succeeds exactly when details is an object and writes `[3, details, reason]`; otherwise it fails with the details error |
| CoreAbort.Decode | core/src/protocol/messages/abort.rs:86-100 | every accepted frame is exactly what the encoder writes for the result; wrong tag, missing reason and non-object details each give their own error |
| CoreAbort.RoundTrip | core/src/protocol/messages/abort.rs:63-100 | every message the encoder accepts decodes back to itself |
| CoreAbort.Sample | core/src/protocol/messages/abort.rs:110-127 | the test's realm-does-not-exist frame and record correspond both ways |
| CoreCall.Direction | core/src/protocol/messages/call.rs:58-85 | callers and dealers send CALL; no role receives it |
| CoreCall.Encode | core/src/protocol/messages/call.rs:89-109 | succeeds exactly when options is an object, args array-or-null and kwargs object-or-null; writes the fixed fields then the elided payload |
| CoreCall.Decode | core/src/protocol/messages/call.rs:122-142 | accepted frames have 4 to 6 elements led by the record's fixed fields, with well-shaped args and kwargs; a wrong tag and non-object options each give their error |
| CoreCall.RoundTrip | core/src/protocol/messages/call.rs:89-142 | decoding an encoded call gives it back, except that null args before kwargs return as `[]` |
| CoreCall.DecodeEncode | core/src/protocol/messages/call.rs:89-142 | a decoded frame re-encodes to itself if and only if its payload part holds no null |
| CoreCall.Sample | core/src/protocol/messages/call.rs:148-164 | the test's `com.myapp.user.new` call encodes to its frame and decodes back under either missing-element policy |
| CoreCancel.Direction | core/src/protocol/messages/cancel.rs:29-56 | callers and dealers send CANCEL; no role receives it |
| CoreCancel.Encode | core/src/protocol/messages/cancel.rs:60-66 | succeeds exactly when options is an object and writes `[49, request_id, options]` |
| CoreCancel.Decode | core/src/protocol/messages/cancel.rs:83-97 | every accepted frame is what the encoder writes; a wrong tag, non-object options and trailing elements are refused |
| CoreCancel.RoundTrip | core/src/protocol/messages/cancel.rs:60-97 | every message the encoder accepts decodes back to itself |
| CoreCancel.Sample | core/src/protocol/messages/cancel.rs:106-115 | the test's cancel frame and record correspond both ways |
| CoreError.EventTag | core/src/protocol/messages/error.rs:8-19 | each error cause is written as the tag of the request it answers, one of the eight request tags |
| CoreError.EventFromTag | core/src/protocol/messages/error.rs:8-19 | a tag reads back to the cause written with it; a number no cause has is refused |
| CoreError.EventTagRoundTrip | core/src/protocol/messages/error.rs:8-19 | every cause's tag reads back to that cause |
| CoreError.Direction | core/src/protocol/messages/error.rs:72-99 | every role but the broker receives ERROR; callees, dealers and brokers send it |
| CoreError.Encode | core/src/protocol/messages/error.rs:103-108 | writes `[8, cause tag, request_id, details, error]` without checking details |
| CoreError.Decode | core/src/protocol/messages/error.rs:125-149 | accepted frames re-encode to themselves and have object details; a wrong tag, an unknown cause and trailing elements are refused |
| CoreError.RoundTrip | core/src/protocol/messages/error.rs:103-149 | a message with object details round-trips; any other one decodes to the details error |
| CoreError.Sample | core/src/protocol/messages/error.rs:158-171 | the test's frame with cause tag 34 decodes to an error about an UNSUBSCRIBE and encodes back to the same frame |
| CoreGoodbye.Direction | core/src/protocol/messages/goodbye.rs:30-57 | every role receives GOODBYE; every role but the subscriber sends it |
| CoreGoodbye.Encode | core/src/protocol/messages/goodbye.rs:61-67 | succeeds exactly when details is an object and writes `[6, details, reason]` |
| CoreGoodbye.Decode | core/src/protocol/messages/goodbye.rs:84-98 | every accepted frame is what the encoder writes; the reason is checked before the details object |
| CoreGoodbye.RoundTrip | core/src/protocol/messages/goodbye.rs:61-98 | every message the encoder accepts decodes back to itself |
| CoreGoodbye.Sample | core/src/protocol/messages/goodbye.rs:107-118 | the test's shutting-down frame and record correspond both ways |
| CoreRegistered.Direction | core/src/protocol/messages/registered.rs:28-55 | only the dealer sends REGISTERED and only the callee receives it |
| CoreRegistered.Encode | core/src/protocol/messages/registered.rs:59-64 | always writes a three-element frame led by tag 65 |
| CoreRegistered.Decode | core/src/protocol/messages/registered.rs:77-90 | accepts exactly the frames the encoder writes; a wrong tag and extra elements are refused |
| CoreRegistered.RoundTrip | core/src/protocol/messages/registered.rs:59-90 | every message decodes back to itself |
| CoreRegistered.Sample | core/src/protocol/messages/registered.rs:99-108 | the test's frame and record correspond both ways |
| CoreSubscribe.Direction | core/src/protocol/messages/subscribe.rs:31-58 | only the subscriber sends SUBSCRIBE and only the broker receives it |
| CoreSubscribe.Encode | core/src/protocol/messages/subscribe.rs:62-67 | writes `[32, request_id, options, topic]` without checking options |
| CoreSubscribe.Decode | core/src/protocol/messages/subscribe.rs:84-106 | accepted frames re-encode to themselves with object options; a wrong tag, non-object options and extra elements are refused |
| CoreSubscribe.RoundTrip | core/src/protocol/messages/subscribe.rs:62-106 | a message with object options round-trips; any other one decodes to the options error |
| CoreSubscribe.Sample | core/src/protocol/messages/subscribe.rs:115-125 | the test's frame and record correspond both ways |
| CoreSubscribed.Direction | core/src/protocol/messages/subscribed.rs:28-55 | only the broker sends SUBSCRIBED and only the subscriber receives it |
| CoreSubscribed.Encode | core/src/protocol/messages/subscribed.rs:59-64 | always writes a three-element frame led by tag 33 |
| CoreSubscribed.Decode | core/src/protocol/messages/subscribed.rs:77-90 | accepts exactly the frames the encoder writes |
| CoreSubscribed.RoundTrip | core/src/protocol/messages/subscribed.rs:59-90 | every message decodes back to itself |
| CoreSubscribed.Sample | core/src/protocol/messages/subscribed.rs:99-108 | the test's frame and record correspond both ways |
| CoreUnregister.Direction | core/src/protocol/messages/unregister.rs:28-55 | only the callee sends UNREGISTER and only the dealer receives it |
| CoreUnregister.Encode | core/src/protocol/messages/unregister.rs:59-64 | always writes a three-element frame led by tag 66 |
| CoreUnregister.Decode | core/src/protocol/messages/unregister.rs:77-90 | accepts exactly the frames the encoder writes |
| CoreUnregister.RoundTrip | core/src/protocol/messages/unregister.rs:59-90 | every message decodes back to itself |
| CoreUnregister.Sample | core/src/protocol/messages/unregister.rs:99-108 | the test's frame and record correspond both ways |
| CoreUnregistered.Direction | core/src/protocol/messages/unregistered.rs:26-53 | only the dealer sends UNREGISTERED and only the callee receives it |
| CoreUnregistered.Encode | core/src/protocol/messages/unregistered.rs:57-62 | always writes a two-element frame led by tag 67 |
| CoreUnregistered.Decode | core/src/protocol/messages/unregistered.rs:75-86 | accepts exactly the frames the encoder writes |
| CoreUnregistered.RoundTrip | core/src/protocol/messages/unregistered.rs:57-86 | every message decodes back to itself |
| CoreUnregistered.Sample | core/src/protocol/messages/unregistered.rs:95-103 | the test's frame and record correspond both ways |
| CoreUnsubscribed.Direction | core/src/protocol/messages/unsubscribed.rs:28-55 | only the broker sends UNSUBSCRIBED and only the subscriber receives it |
| CoreUnsubscribed.Encode | core/src/protocol/messages/unsubscribed.rs:59-64 | always writes a two-element frame led by tag 35 |
| CoreUnsubscribed.Decode | core/src/protocol/messages/unsubscribed.rs:77-88 | accepts exactly the frames the encoder writes |
| CoreUnsubscribed.RoundTrip | core/src/protocol/messages/unsubscribed.rs:59-88 | every message decodes back to itself |
| CoreUnsubscribed.Sample | core/src/protocol/messages/unsubscribed.rs:97-105 | the test's frame and record correspond both ways |
| CoreYield.Direction | core/src/protocol/messages/yield.rs:45-72 | only the callee sends YIELD and only the dealer receives it |
| CoreYield.Encode | core/src/protocol/messages/yield.rs:76-96 | succeeds exactly when options is an object, args array-or-null and kwargs object-or-null; writes the fixed fields then the elided payload |
| CoreYield.Decode | core/src/protocol/messages/yield.rs:109-127 | accepted frames have 3 to 5 elements led by the fixed fields, with well-shaped args and kwargs; a wrong tag and non-object options each give their error |
| CoreYield.RoundTrip | core/src/protocol/messages/yield.rs:76-127 | decoding an encoded yield gives it back, except that null args before kwargs return as `[]` |
| CoreYield.DecodeEncode | core/src/protocol/messages/yield.rs:76-127 | a decoded frame re-encodes to itself if and only if its payload part holds no null |
| CoreYield.Sample | core/src/protocol/messages/yield.rs:136-149 | the test's frame with an empty args array and its kwargs decodes to the test's record and encodes back |
| LegacyAuthenticate.Direction | src/messages/authenticate.rs:18-45 | the four client roles send AUTHENTICATE and the router roles receive it |
| LegacyAuthenticate.Encode | src/messages/authenticate.rs:49-55 | succeeds exactly when the extra details are an object and writes `[5, signature, details]` |
| LegacyAuthenticate.Decode | src/messages/authenticate.rs:71-83 | accepts exactly the frames the encoder writes; a wrong tag, non-object details and extra elements are refused |
| LegacyAuthenticate.RoundTrip | src/messages/authenticate.rs:49-83 | every message the encoder accepts decodes back to itself |
| LegacyCall.Encode | src/messages/call.rs:23-43 | succeeds exactly on object options and well-shaped args and kwargs; writes the fixed fields then the elided payload |
| LegacyCall.Decode | src/messages/call.rs:56-76 | as written: only six-element frames are accepted, with args and kwargs taken as they are |
| LegacyCall.DecodeElided | src/messages/call.rs:56-76 | the reading the encoder expects: 4 to 6 elements, missing args and kwargs read as null |
| LegacyCall.RejectsOwnShortFrames | src/messages/call.rs:23-76 | the as-written decoder refuses every frame its own encoder writes when kwargs is null |
| LegacyCall.RoundTrip | src/messages/call.rs:23-76 | the elided reading gets back every encoded call, with null args before kwargs returning as `[]`; the as-written reading agrees when kwargs is present |
| LegacyCall.DecodeEncode | src/messages/call.rs:23-76 | a frame read with the elided reading re-encodes to itself if and only if its payload holds no null |
| LegacyCall.Sample | src/messages/call.rs:85-105 | the test's call frame and record correspond both ways |
| LegacyCancel.Encode | src/messages/cancel.rs:19-25 | succeeds exactly when options is an object and writes `[49, request_id, options]` |
| LegacyCancel.Decode | src/messages/cancel.rs:42-54 | accepts exactly the frames the encoder writes |
| LegacyCancel.RoundTrip | src/messages/cancel.rs:19-54 | every message the encoder accepts decodes back to itself |
| LegacyChallenge.Direction | src/messages/challenge.rs:19-46 | dealers and brokers send CHALLENGE; exactly the other roles receive it |
| LegacyChallenge.Encode | src/messages/challenge.rs:50-56 | succeeds exactly when details is an object and writes `[4, auth method, details]` |
| LegacyChallenge.Decode | src/messages/challenge.rs:72-84 | accepts exactly the frames the encoder writes |
| LegacyChallenge.RoundTrip | src/messages/challenge.rs:50-84 | every message the encoder accepts decodes back to itself |
| LegacyChallenge.Sample | src/messages/challenge.rs:96-115 | the test's WAMP-CRA challenge frame and record correspond both ways |
| LegacyError.EventTag | src/messages/error.rs:11-19 | each of the five causes this codec knows is written as its request's tag |
| LegacyError.EventFromTag | src/messages/error.rs:11-19 | a tag reads back to its cause; other numbers are refused |
| LegacyError.EventTagRoundTrip | src/messages/error.rs:11-19 | every cause's tag reads back to that cause |
| LegacyError.Direction | src/messages/error.rs:32-59 | every role but the broker receives ERROR; callees, dealers and brokers send it |
| LegacyError.Encode | src/messages/error.rs:63-68 | writes `[8, cause tag, request_id, details, error]` without checking details |
| LegacyError.Decode | src/messages/error.rs:85-107 | accepted frames re-encode to themselves with object details; a wrong tag, an unknown cause and extra elements are refused |
| LegacyError.RoundTrip | src/messages/error.rs:63-107 | a message with object details round-trips; any other one decodes to the details error |
| LegacyError.Sample | src/messages/error.rs:118-131 | the test's frame with cause tag 34 decodes to an error about an UNSUBSCRIBE |
| LegacyEvent.Direction | src/messages/event.rs:24-51 | only the broker sends EVENT and only the subscriber receives it |
| LegacyEvent.Encode | src/messages/event.rs:55-86 | succeeds exactly on well-shaped args and kwargs; writes the fixed fields then the elided payload |
| LegacyEvent.Decode | src/messages/event.rs:99-117 | as written: only six-element frames with object details are accepted |
| LegacyEvent.DecodeElided | src/messages/event.rs:99-117 | the reading the encoder expects: 4 to 6 elements, missing args and kwargs read as null |
| LegacyEvent.RejectsOwnShortFrames | src/messages/event.rs:55-117 | the as-written decoder refuses every frame its own encoder writes when kwargs is null |
| LegacyEvent.RoundTrip | src/messages/event.rs:55-117 | with object details, the elided reading gets back every encoded event, with null args before kwargs returning as `[]` |
| LegacyEvent.UncheckedDetails | src/messages/event.rs:55-117 | the encoder writes non-object details that both readings then refuse |
| LegacyEvent.DecodeEncode | src/messages/event.rs:55-117 | a frame read with the elided reading re-encodes to itself if and only if its payload holds no null |
| LegacyEvent.Sample | src/messages/event.rs:128-144 | the test's record with null args encodes to the frame with `[]` in their place |
| LegacyGoodbye.Encode | src/messages/goodbye.rs:19-25 | succeeds exactly when details is an object and writes `[6, details, reason]` |
| LegacyGoodbye.Decode | src/messages/goodbye.rs:42-54 | accepts exactly the frames the encoder writes; the reason is checked before the details object |
| LegacyGoodbye.RoundTrip | src/messages/goodbye.rs:19-54 | every message the encoder accepts decodes back to itself |
| LegacyGoodbye.Sample | src/messages/goodbye.rs:65-76 | the test's frame and record correspond both ways |
| LegacyHello.Encode | src/messages/hello.rs:19-25 | succeeds exactly when details is an object and writes `[1, realm, details]` |
| LegacyHello.Decode | src/messages/hello.rs:42-54 | accepts exactly the frames the encoder writes |
| LegacyHello.RoundTrip | src/messages/hello.rs:19-54 | every message the encoder accepts decodes back to itself |
| LegacyHello.Sample | src/messages/hello.rs:65-76 | the test's frame and record correspond both ways |
| LegacyInterrupt.Direction | src/messages/interrupt.rs:19-46 | only the dealer sends INTERRUPT and only the callee receives it |
| LegacyInterrupt.Encode | src/messages/interrupt.rs:50-56 | succeeds exactly when options is an object and writes `[69, request_id, options]` |
| LegacyInterrupt.Decode | src/messages/interrupt.rs:73-85 | accepts exactly the frames the encoder writes |
| LegacyInterrupt.RoundTrip | src/messages/interrupt.rs:50-85 | every message the encoder accepts decodes back to itself |
| LegacyInterrupt.Sample | src/messages/interrupt.rs:97-108 | the test's frame and record correspond both ways |
| LegacyInvocation.Direction | src/messages/invocation.rs:24-51 | only the dealer sends INVOCATION and only the callee receives it |
| LegacyInvocation.Encode | src/messages/invocation.rs:55-77 | succeeds exactly on well-shaped args and kwargs; writes the fixed fields then the elided payload |
| LegacyInvocation.Decode | src/messages/invocation.rs:90-108 | as written: only six-element frames with object details are accepted |
| LegacyInvocation.DecodeElided | src/messages/invocation.rs:90-108 | the reading the encoder expects: 4 to 6 elements, missing args and kwargs read as null |
| LegacyInvocation.RejectsOwnShortFrames | src/messages/invocation.rs:55-108 | the as-written decoder refuses every frame its own encoder writes when kwargs is null |
| LegacyInvocation.RoundTrip | src/messages/invocation.rs:55-108 | with object details, the elided reading gets back every encoded invocation |
| LegacyInvocation.UncheckedDetails | src/messages/invocation.rs:55-108 | the encoder writes non-object details that both readings then refuse |
| LegacyInvocation.DecodeEncode | src/messages/invocation.rs:55-108 | a frame read with the elided reading re-encodes to itself if and only if its payload holds no null |
| LegacyInvocation.Sample | src/messages/invocation.rs:119-135 | the test's frame decodes to the record with its args and kwargs |
| LegacyPublish.Direction | src/messages/publish.rs:23-50 | callees and publishers send PUBLISH; only the broker receives it |
| LegacyPublish.Encode | src/messages/publish.rs:54-74 | succeeds exactly on object options and well-shaped args and kwargs; writes the fixed fields then the elided payload |
| LegacyPublish.Decode | src/messages/publish.rs:87-105 | as written: only six-element frames with object options are accepted |
| LegacyPublish.DecodeElided | src/messages/publish.rs:87-105 | the reading the encoder expects: 4 to 6 elements, missing args and kwargs read as null |
| LegacyPublish.RejectsOwnShortFrames | src/messages/publish.rs:54-105 | the as-written decoder refuses every frame its own encoder writes when kwargs is null |
| LegacyPublish.RoundTrip | src/messages/publish.rs:54-105 | the elided reading gets back every encoded publish, with null args before kwargs returning as `[]` |
| LegacyPublish.DecodeEncode | src/messages/publish.rs:54-105 | a frame read with the elided reading re-encodes to itself if and only if its payload holds no null |
| LegacyPublished.Direction | src/messages/published.rs:20-47 | only the broker sends PUBLISHED; callees and publishers receive it |
| LegacyPublished.Encode | src/messages/published.rs:51-56 | always writes a three-element frame led by tag 17 |
| LegacyPublished.Decode | src/messages/published.rs:69-80 | accepts exactly the frames the encoder writes |
| LegacyPublished.RoundTrip | src/messages/published.rs:51-80 | every message decodes back to itself |
| LegacyPublished.Sample | src/messages/published.rs:91-100 | the test's frame and record correspond both ways |
| LegacyRegister.Encode | src/messages/register.rs:23-28 | writes `[64, request_id, options, procedure]` without checking options |
| LegacyRegister.Decode | src/messages/register.rs:45-65 | accepted frames re-encode to themselves with object options; a wrong tag, non-object options and extra elements are refused |
| LegacyRegister.RoundTrip | src/messages/register.rs:23-65 | a message with object options round-trips; any other one decodes to the options error |
| LegacyRegister.Sample | src/messages/register.rs:76-86 | the test's frame and record correspond both ways |
| LegacyResult.Direction | src/messages/result.rs:22-49 | the caller receives RESULT and the broker sends it, as the source's table says |
| LegacyResult.Encode | src/messages/result.rs:53-73 | succeeds exactly on object details and well-shaped args and kwargs; writes the fixed fields then the elided payload |
| LegacyResult.Decode | src/messages/result.rs:86-102 | as written: only five-element frames with object details are accepted |
| LegacyResult.DecodeElided | src/messages/result.rs:86-102 | the reading the encoder expects: 3 to 5 elements, missing args and kwargs read as null |
| LegacyResult.RejectsOwnShortFrames | src/messages/result.rs:53-102 | the as-written decoder refuses every frame its own encoder writes when kwargs is null |
| LegacyResult.RoundTrip | src/messages/result.rs:53-102 | the elided reading gets back every encoded result, with null args before kwargs returning as `[]` |
| LegacyResult.DecodeEncode | src/messages/result.rs:53-102 | a frame read with the elided reading re-encodes to itself if and only if its payload holds no null |
| LegacyResult.Sample | src/messages/result.rs:113-126 | the test's frame with an empty args array decodes to the test's record |
| LegacySubscribed.Encode | src/messages/subscribed.rs:20-25 | always writes a three-element frame led by tag 33 |
| LegacySubscribed.Decode | src/messages/subscribed.rs:38-50 | accepts exactly the frames the encoder writes |
| LegacySubscribed.RoundTrip | src/messages/subscribed.rs:20-50 | every message decodes back to itself |
| LegacySubscribed.Sample | src/messages/subscribed.rs:60-69 | the test's frame and record correspond both ways |
| LegacyUnregister.Encode | src/messages/unregister.rs:20-25 | always writes a three-element frame led by tag 66 |
| LegacyUnregister.Decode | src/messages/unregister.rs:38-50 | accepts exactly the frames the encoder writes |
| LegacyUnregister.RoundTrip | src/messages/unregister.rs:20-50 | every message decodes back to itself |
| LegacyUnregister.Sample | src/messages/unregister.rs:60-69 | the test's values: record and frame correspond both ways |
| LegacyUnsubscribe.Encode | src/messages/unsubscribe.rs:20-25 | always writes a three-element frame led by tag 34 |
| LegacyUnsubscribe.Decode | src/messages/unsubscribe.rs:38-50 | accepts exactly the frames the encoder writes |
| LegacyUnsubscribe.RoundTrip | src/messages/unsubscribe.rs:20-50 | every message decodes back to itself |
| LegacyUnsubscribe.Sample | src/messages/unsubscribe.rs:60-69 | the test's frame and record correspond both ways |
| LegacyUnsubscribed.Encode | src/messages/unsubscribed.rs:19-24 | always writes a two-element frame led by tag 35 |
| LegacyUnsubscribed.Decode | src/messages/unsubscribed.rs:37-47 | accepts exactly the frames the encoder writes |
| LegacyUnsubscribed.RoundTrip | src/messages/unsubscribed.rs:19-47 | every message decodes back to itself |
| LegacyUnsubscribed.Sample | src/messages/unsubscribed.rs:57-65 | the test's frame and record correspond both ways |
| LegacyWelcome.Encode | src/messages/welcome.rs:19-25 | succeeds exactly when details is an object and writes `[2, session, details]` |
| LegacyWelcome.Decode | src/messages/welcome.rs:42-55 | accepts exactly the frames the encoder writes |
| LegacyWelcome.RoundTrip | src/messages/welcome.rs:19-55 | every message the encoder accepts decodes back to itself |
| LegacyWelcome.Sample | src/messages/welcome.rs:65-76 | the test's frame and record correspond both ways |
| Messages.Id | core/src/protocol/messages/error.rs:24-25 | every known message has its tag; only an extension frame has none |
| Errors.ErrorEventOf | core/src/protocol/messages/error.rs:21-41 | a message converts to the cause written with its own tag; it is refused, and handed back inside the error, exactly when no cause has its tag |
| Errors.ErrorEventOfRequests | core/src/protocol/messages/error.rs:21-41 | a CALL converts to `Call`, an UNSUBSCRIBE to `Unsubscribe`, a SUBSCRIBED to nothing |
| ClientContext.Socket.constructor | core/src/client/context.rs:54 | a new socket has written nothing |
| ClientContext.Socket.Write | core/src/client/context.rs:107-109 | writing appends the frame to what the socket has written |
| ClientContext.Extended | core/src/client/context.rs:142-151 | each of the eight request lists is its own entries followed by the other context's; socket, buffered messages, errors and cancelations stay |
| ClientContext.ExtendedByFresh | core/src/client/context.rs:142-151 | extending with an empty context changes nothing |
| ClientContext.ExtendedAssociative | core/src/client/context.rs:142-151 | extending twice equals extending once with the two merged |
| ClientContext.FirstIndex | core/src/client/context.rs:28-33 | the position returned is the first whose key matches; none is returned only when no key matches |
| ClientContext.Find | core/src/client/context.rs:28-33 | the entry returned is the first with the key; the list is left as it is |
| ClientContext.FindAppend | core/src/client/context.rs:28-33 | searching a list with entries appended finds the old match if there was one, otherwise the first match among the new entries |
| ClientContext.FindRegistration | core/src/client/context.rs:133 | the first pending REGISTER with the request id, or none when no entry has it |
| ClientContext.FindUnregistration | core/src/client/context.rs:134 | the first pending UNREGISTER with the request id, or none when no entry has it |
| ClientContext.FindSubscription | core/src/client/context.rs:137 | the first pending SUBSCRIBE with the request id, or none when no entry has it |
| ClientContext.FindUnsubscription | core/src/client/context.rs:136 | the first pending UNSUBSCRIBE with the request id, or none when no entry has it |
| ClientContext.FindPublication | core/src/client/context.rs:138 | the first pending PUBLISH with the request id, or none when no entry has it |
| ClientContext.FindCall | core/src/client/context.rs:139 | the first pending CALL with the request id, or none when no entry has it |
| ClientContext.FindInvocation | core/src/client/context.rs:140 | the first invocation handler registered under the request id, or none |
| ClientContext.FindCancelation | core/src/client/context.rs:120 | the first pending CANCEL with the request id, or none when no entry has it |
| ClientContext.FindEvent | core/src/client/context.rs:135 | the first event handler for the subscription id, matched by subscription and not by request id |
| ClientContext.FindCallAfterExtend | core/src/client/context.rs:142-151 | extending never hides a pending call: a reply still finds the old entry, and finds a new one only when there was none |
| ClientContext.FindEventAfterExtend | core/src/client/context.rs:142-151 | likewise for event handlers, matched by subscription |
| ClientContext.Context.constructor | core/src/client/context.rs:69-84 | a new context holds the given socket and nothing else |
| ClientContext.Context.Send | core/src/client/context.rs:103-113 | a serialisation failure is returned and changes nothing; otherwise the frame goes to the socket or, without one, to the buffer |
| ClientContext.Context.Register | core/src/client/context.rs:123 | the REGISTER is sent, then appended with its callback; nothing else changes |
| ClientContext.Context.Unregister | core/src/client/context.rs:124 | the UNREGISTER is sent, then appended with its callback; nothing else changes |
| ClientContext.Context.Event | core/src/client/context.rs:125 | the event handler is appended without sending anything |
| ClientContext.Context.Unsubscribe | core/src/client/context.rs:126 | the UNSUBSCRIBE is sent, then appended with its callback |
| ClientContext.Context.Subscribe | core/src/client/context.rs:127 | the SUBSCRIBE is sent, then appended with its callback |
| ClientContext.Context.Publish | core/src/client/context.rs:128 | succeeds exactly when the PUBLISH serialises; a failure leaves the context untouched, a success sends and appends |
| ClientContext.Context.Call | core/src/client/context.rs:129 | succeeds exactly when the CALL serialises; a failure leaves the context untouched, a success sends and appends |
| ClientContext.Context.Invocation | core/src/client/context.rs:130 | the REGISTERED record itself is sent, then appended as an invocation handler |
| ClientContext.Context.Cancel | core/src/client/context.rs:131 | succeeds exactly when the CANCEL serialises; a failure leaves the context untouched, a success sends and appends |
| ClientContext.Context.Extend | core/src/client/context.rs:142-151 | the new state is the old one extended with the other context's lists |
| WampClient.RouteError | client/src/client.rs:139-201 | an ERROR runs the continuation of the first pending request of the type its cause names, given the error; an Invocation cause runs nothing |
| WampClient.GetMessageContext | client/src/client.rs:134-302 | ABORT and the eleven messages a client never receives are errors; every other message is handed back, running the first matching entry's continuation on a fresh context, or the welcome and challenge slots |
| WampClient.RepeatedReplyRunsAgain | client/src/client.rs:245-252 | after a SUBSCRIBED ran its continuation and the result was merged, the same reply finds and runs the same entry again |
| WampClient.RepeatedEventRunsAgain | client/src/client.rs:202-209 | every EVENT for a subscription runs the same first handler, before and after merging |
| WampClient.RepeatedMessageRunsAgain | client/src/client.rs:139-285 | for every message that runs a continuation, merging what that continuation returned leaves the dispatch unchanged: the same entry or handler runs again on the same input |
| WampClient.Retain | client/src/client.rs:70 | keeps exactly the entries the predicate holds for, and never grows the list |
| WampClient.RetainAppend | client/src/client.rs:70 | retaining splits over concatenation, so kept entries keep their relative order and their multiplicity, as `Vec::retain` promises |
| WampClient.FindRetained | client/src/client.rs:70 | when every entry with key `id` is kept, the first match for `id` is unchanged by retaining |
| WampClient.Pruned | client/src/client.rs:62-105 | as written: an ERROR keeps only the entries whose request id EQUALS the failed one, in the list its cause names; Cancel prunes invocations; Call changes nothing |
| WampClient.PrunedKeepsTheFailedRequest | client/src/client.rs:73-96 | a Subscribe error for id 1 keeps subscription 1 and drops 2; a Cancel error leaves the pending cancel in place |
| WampClient.PrunedCorrected | client/src/client.rs:62-105 | the evident intent: the failed request is removed from its own list and every other entry stays |
| WampClient.PrunedCorrectedForgetsFailed | client/src/client.rs:73-76 | after the corrected pruning, a failed subscription is no longer found |
| WampClient.PrunedCorrectedKeepsOthers | client/src/client.rs:62-105 | after the corrected pruning, a reply or error with any other request id reaches the same entry in every list as before |
| WampClient.PrunedFindsFailedAsBefore | client/src/client.rs:62-105 | as written, the pruning leaves the failed request's first match unchanged in every list, so a late reply or second error with its id runs the same continuation |
| WampClient.Client.constructor | client/src/client.rs:30-35 | a new client has a context without a socket and no welcome or challenge handlers |
| WampClient.Client.OnWelcome | client/src/client.rs:52-55 | the welcome slot is replaced; nothing else changes |
| WampClient.Client.OnChallenge | client/src/client.rs:57-60 | the challenge slot is replaced; nothing else changes |
| WampClient.Client.Publish | client/src/client.rs:40 | delegates to the context: the PUBLISH is buffered and recorded exactly when it serialises; the socket is not written |
| WampClient.Client.Register | client/src/client.rs:41 | delegates to the context: the REGISTER is buffered and recorded |
| WampClient.Client.Unregister | client/src/client.rs:42 | delegates to the context: the UNREGISTER is buffered and recorded |
| WampClient.Client.Event | client/src/client.rs:43 | delegates to the context: the event handler is recorded |
| WampClient.Client.Unsubscribe | client/src/client.rs:44 | delegates to the context: the UNSUBSCRIBE is buffered and recorded |
| WampClient.Client.Subscribe | client/src/client.rs:45 | delegates to the context: the SUBSCRIBE is buffered and recorded |
| WampClient.Client.Call | client/src/client.rs:46 | delegates to the context: the CALL is buffered and recorded exactly when it serialises |
| WampClient.Client.Invocation | client/src/client.rs:47 | delegates to the context: the REGISTERED record is buffered and recorded |
| WampClient.Client.Cancel | client/src/client.rs:48 | delegates to the context: the CANCEL is buffered and recorded exactly when it serialises |
| WampClient.Client.ExtendContext | client/src/client.rs:123-132 | a routed message is handed back and the context its continuation returned, if any, is merged |
| WampClient.Client.ReadContexts | client/src/client.rs:117-121 | one dispatch step: a failure changes nothing; otherwise the continuation that ran is logged, its frames reach the socket and its context is merged |
| WampClient.Client.HandleAndEmptyContexts | client/src/client.rs:62-105 | a non-ERROR message or a Call cause returns nothing and changes nothing; any other ERROR is returned and leaves the as-written pruned context |
| Factories.Without | core/src/protocol/factories.rs:22-25 | removes every occurrence of the topic and keeps every other one, counted with multiplicity |
| Factories.WithoutAppend | core/src/protocol/factories.rs:22-25 | removal works piecewise, so the topics that stay keep their order |
| Factories.Registry.constructor | core/src/protocol/factories.rs:5-8 | the counter starts at 0 with no topics |
| Factories.Registry.Increment | core/src/protocol/factories.rs:10-15 | stores and returns the previous value plus one; the topics do not change |
| Factories.Registry.Subscribe | core/src/protocol/factories.rs:17-20 | appends the topic at the end |
| Factories.Registry.Unsubscribe | core/src/protocol/factories.rs:22-25 | removes every occurrence of the topic, keeping the rest in order |
| Factories.Registry.SubscriptionContains | core/src/protocol/factories.rs:27-29 | true exactly when the topic is subscribed |
| Factories.Lifecycle | core/src/protocol/factories.rs:10-29 | a new registry hands out 1 then 2; a subscribed topic is found, and after unsubscribing it is not |
| ClientIncrement.Increment.constructor | src/client/factories/increment.rs:6-8 | the counter starts at 0 |
| ClientIncrement.Increment.GetRequestId | src/client/factories/increment.rs:10-13 | adds one and returns the new value |
| ClientIncrement.FirstThreeIds | src/client/factories/increment.rs:10-13 | a new counter hands out 1, 2, 3 |

## Left out

- Transport. `connect`, `read`, `send` and `event_loop` on the WebSocket are not modelled, and neither is the TLS stream. The socket appears only as the log of frames written to it (`ClientContext.Socket`), and a write never fails.
- JSON text. serde_json's parsing and printing, whitespace, and the conversion of a frame to a WebSocket text message are not modelled. Frames are sequences of JSON values.
- Numbers. Only non-negative integers are modelled (`JNum(n: nat)`). Negative and floating-point JSON numbers are not, and `IsU64` bounds the ids.
- Error payloads. The transport, URI and header variants of `Errors.Error` carry no payload, since they wrap errors of libraries outside this model.
- Missing trailing elements. The newer `deser_args_kwargs_element` is not part of this model, nor are `ser_value_is_args` and `ser_value_is_kwargs`. Their checks are taken from their messages and call sites. What the newer codec does when args or kwargs are absent is the `MissingTrailing` parameter (read as null, or refuse), and each round-trip lemma states which policies it needs.
- Tag width. The newer decoders read the tag as `u8` in their messages and as `u64` in their types; the model reads a u64.
- GOODBYE and extension frames reaching `get_message_context` end in `todo!()` in the source (client/src/client.rs:210-212, 286). `WampClient.GetMessageContext` and `WampClient.Client.ReadContexts` require that neither arrives.
- Callbacks. Callbacks are `FnMut` closures. Their effect is the `Continuation` parameter, a total function from callback id, context and input to the returned context and the frames written. Their own mutable captures are not modelled.
- Locks. The `Arc<Mutex<..>>` around the socket, the `RwLock` statics of the factories and the `Mutex` around `Increment` are not modelled. The model is single-threaded.
- Constructors. `new_with_capacity` (core/src/client/context.rs:86-101) only pre-sizes the vectors and is the same as `Context.constructor`. The macros are modelled through the methods they generate.
- Substituted records. The client takes every record from the newer crate (client/src/client.rs:5), but the newer crate's AUTHENTICATE, CHALLENGE, EVENT, HELLO, INTERRUPT, INVOCATION, PUBLISH, PUBLISHED, REGISTER, RESULT, UNSUBSCRIBE and WELCOME files are not part of this model. The older codec's record of the same message stands in for each. What follows from that is the older codec's behaviour, not necessarily the newer one's: `ClientContext.Context.Register` and `ClientContext.Context.Unsubscribe` always succeed because the older REGISTER and UNSUBSCRIBE serialisers check nothing; `ClientContext.Context.Publish` fails exactly when the older PUBLISH encoder refuses; and the routing keys of EVENT, RESULT, INVOCATION, INTERRUPT and PUBLISHED are the older records' fields.
- `src/messages/abort.rs` is a stub whose serialiser is `todo!()`, so it is not modelled; ABORT uses the newer codec's record.
- Broken tests. Some source tests compare against text or values that their own code cannot produce: the older cancel test (src/messages/cancel.rs:65-82), the older publish test (src/messages/publish.rs:117-134), the spaced JSON text of the older unregister test, and the newer error test, which names the older enum's `Unsubsubscribe` variant that the newer enum does not have. Their assertions are not restated; where a `Sample` exists it uses the test's values.
- Factories.Registry.Increment: requires the counter to be below 2^64 - 1. The source panics on overflow in debug builds and wraps in release builds, and neither is modelled.
- ClientIncrement.Increment.GetRequestId: requires the counter to be below 2^128 - 1, for the same reason with a `u128`.
- WampClient.Client: its delegates are modelled only for the client's own context, which never holds a socket, so its requests are buffered rather than written.

## Findings

| source | as written | input that shows it | evidently intended | confidence | as-written member | corrected member |
|---|---|---|---|---|---|---|
| src/messages/call.rs:56-76 | the older decoders of CALL, EVENT, INVOCATION, PUBLISH and RESULT read args and kwargs as required elements | any message whose kwargs is null: its encoder writes a frame without kwargs, which the decoder refuses | an absent args or kwargs reads back as null, as the encoder's elision expects | not executed | LegacyCall.RejectsOwnShortFrames | LegacyCall.RoundTrip |
| client/src/client.rs:73-76 | `retain` keeps the entries whose request id EQUALS the failed one | subscriptions with ids 1 and 2, and a Subscribe error for id 1: subscription 1 stays and 2 is dropped | remove the failed request and keep the others | not executed | WampClient.PrunedKeepsTheFailedRequest | WampClient.PrunedCorrectedForgetsFailed |
| client/src/client.rs:93-96 | a Cancel error prunes the invocation list | a pending cancel with id 3 and a Cancel error for id 3: the cancel stays pending | prune the cancelation list | not executed | WampClient.PrunedKeepsTheFailedRequest | WampClient.PrunedCorrected |
