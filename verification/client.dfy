/** The client: its own correlation context, the welcome and challenge
    handlers, and one dispatch step that routes an inbound message to the
    continuation waiting for it. */
module WampClient {
  import opened Wire
  import Json
  import Errors
  import Messages
  import CoreCall
  import CoreCancel
  import CoreError
  import CoreRegistered
  import CoreSubscribe
  import CoreSubscribed
  import CoreUnregister
  import LegacyEvent
  import LegacyPublish
  import LegacyRegister
  import LegacyUnsubscribe
  import opened ClientContext

  /** What a continuation is given: `Ok(reply)`, `Err(error)`, or the bare
      message for event, welcome and challenge handlers. */
  datatype CallbackInput =
    | OkReply(reply: Messages.Message)
    | ErrReply(error: CoreError.WampError)
    | Bare(message: Messages.Message)

  /** What running a continuation yields: the context it returns, and the
      frames it wrote through the socket of the context it was handed. */
  datatype CallbackRun = CallbackRun(context: ContextValue, written: seq<Frame>)

  /** Running the continuation an id names on a context and an input. */
  type Continuation = (CallbackId, ContextValue, CallbackInput) -> CallbackRun

  /** One routed message: the message handed back, which continuation ran
      on which input, and what that run yielded. */
  datatype Routed = Routed(message: Messages.Message, ran: Option<(CallbackId, CallbackInput)>, run: Option<CallbackRun>)

  /** A continuation ran exactly when there is a result, and that result is
      the continuation's run on a fresh context holding `socket`. */
  ghost predicate RanOnFresh(d: Routed, socket: Socket, run: Continuation) {
    (d.ran.None? <==> d.run.None?) &&
    (d.ran.Some? ==> d.run == Some(run(d.ran.value.0, Fresh(Some(socket)), d.ran.value.1)))
  }

  /** The continuation of the first entry whose key is `id` ran on `input`;
      with no such entry, none ran. */
  ghost predicate RanFirstWith<K>(entries: seq<(K, CallbackId)>, key: K -> U64, id: U64, d: Routed, input: CallbackInput) {
    match d.ran
    case None => NoneWith(entries, key, id)
    case Some(x) => x.1 == input && exists i :: IsFirst(entries, key, id, i) && entries[i].1 == x.0
  }

  /** Messages a client never receives: requests and client-to-router
      messages. */
  predicate NotForClient(m: Messages.Message) {
    m.Cancel? || m.Call? || m.Yield? || m.Authenticate? || m.Hello? || m.Invocation? ||
    m.Publish? || m.Register? || m.Subscribe? || m.Unregister? || m.Unsubscribe?
  }

  /** Runs the continuation of a found entry, if any. */
  function RunFound<K>(found: Option<(K, CallbackId)>, m: Messages.Message, input: CallbackInput, socket: Socket, run: Continuation): Routed {
    match found
    case None => Routed(m, None, None)
    case Some(e) => Routed(m, Some((e.1, input)), Some(run(e.1, Fresh(Some(socket)), input)))
  }

  /** Runs the handler in a slot, if one is set. */
  function RunSlot(slot: Option<CallbackId>, m: Messages.Message, socket: Socket, run: Continuation): Routed {
    match slot
    case None => Routed(m, None, None)
    case Some(id) => Routed(m, Some((id, Bare(m))), Some(run(id, Fresh(Some(socket)), Bare(m))))
  }

  /** An ERROR goes to the pending request of the type its cause names, with
      `Err(error)`; an error about an invocation runs nothing. */
  function RouteError(c: ContextValue, m: Messages.Message, socket: Socket, run: Continuation): (d: Routed)
    requires m.Error?
    ensures d.message == m && RanOnFresh(d, socket, run)
    ensures m.error.event == CoreError.Call ==> RanFirstWith(c.calls, CallKey, m.error.requestId, d, ErrReply(m.error))
    ensures m.error.event == CoreError.Unsubscribe ==> RanFirstWith(c.unsubscriptions, UnsubscribeKey, m.error.requestId, d, ErrReply(m.error))
    ensures m.error.event == CoreError.Subscribe ==> RanFirstWith(c.subscriptions, SubscribeKey, m.error.requestId, d, ErrReply(m.error))
    ensures m.error.event == CoreError.Publish ==> RanFirstWith(c.publications, PublishKey, m.error.requestId, d, ErrReply(m.error))
    ensures m.error.event == CoreError.Register ==> RanFirstWith(c.registrations, RegisterKey, m.error.requestId, d, ErrReply(m.error))
    ensures m.error.event == CoreError.Unregister ==> RanFirstWith(c.unregistrations, UnregisterKey, m.error.requestId, d, ErrReply(m.error))
    ensures m.error.event == CoreError.Cancel ==> RanFirstWith(c.cancelations, CancelKey, m.error.requestId, d, ErrReply(m.error))
    ensures m.error.event == CoreError.Invocation ==> d.ran.None?
  {
    var e := m.error;
    var input := ErrReply(e);
    match e.event
    case Call => RunFound(FindCall(c, e.requestId), m, input, socket, run)
    case Unsubscribe => RunFound(FindUnsubscription(c, e.requestId), m, input, socket, run)
    case Subscribe => RunFound(FindSubscription(c, e.requestId), m, input, socket, run)
    case Publish => RunFound(FindPublication(c, e.requestId), m, input, socket, run)
    case Register => RunFound(FindRegistration(c, e.requestId), m, input, socket, run)
    case Unregister => RunFound(FindUnregistration(c, e.requestId), m, input, socket, run)
    case Invocation => Routed(m, None, None)
    case Cancel => RunFound(FindCancelation(c, e.requestId), m, input, socket, run)
  }

  /** `get_message_context`, on the client's context `c`, its handler slots
      and its socket: an ABORT fails with the abort; a message a client never
      receives fails with `InvalidFrameReceived`; a reply runs the
      continuation of the first pending request with its request id, with
      `Ok(reply)`; an EVENT runs the first handler for its subscription; an
      INTERRUPT runs the first pending cancellation with its request id; a
      WELCOME or CHALLENGE runs its handler if one is set. Every continuation
      is handed a fresh context holding the client's socket, and the message
      always comes back. GOODBYE and extension frames are not handled by the
      client. */
  function GetMessageContext(c: ContextValue, onWelcome: Option<CallbackId>, onChallenge: Option<CallbackId>,
                             socket: Socket, message: Option<Messages.Message>, run: Continuation): (r: Result<Option<Routed>, Errors.Error>)
    requires message.Some? ==> !message.value.Goodbye? && !message.value.Extension?
    ensures message.None? ==> r == Ok(None)
    ensures message.Some? ==> (r.Err? <==> message.value.Abort? || NotForClient(message.value))
    ensures message.Some? && message.value.Abort? ==> r == Err(Errors.Abort(message.value.abort))
    ensures message.Some? && NotForClient(message.value) ==> r == Err(Errors.InvalidFrameReceived(message.value))
    ensures message.Some? && r.Ok? ==> r.value.Some? && r.value.value.message == message.value && RanOnFresh(r.value.value, socket, run)
    ensures message.Some? && message.value.Error? ==> r == Ok(Some(RouteError(c, message.value, socket, run)))
    ensures message.Some? && message.value.Published? ==>
      RanFirstWith(c.publications, PublishKey, message.value.published.requestId, r.value.value, OkReply(message.value))
    ensures message.Some? && message.value.Registered? ==>
      RanFirstWith(c.registrations, RegisterKey, message.value.registered.requestId, r.value.value, OkReply(message.value))
    ensures message.Some? && message.value.Result? ==>
      RanFirstWith(c.calls, CallKey, message.value.result.requestId, r.value.value, OkReply(message.value))
    ensures message.Some? && message.value.Subscribed? ==>
      RanFirstWith(c.subscriptions, SubscribeKey, message.value.subscribed.requestId, r.value.value, OkReply(message.value))
    ensures message.Some? && message.value.Unregistered? ==>
      RanFirstWith(c.unregistrations, UnregisterKey, message.value.unregistered.requestId, r.value.value, OkReply(message.value))
    ensures message.Some? && message.value.Unsubscribed? ==>
      RanFirstWith(c.unsubscriptions, UnsubscribeKey, message.value.unsubscribed.requestId, r.value.value, OkReply(message.value))
    ensures message.Some? && message.value.Event? ==>
      RanFirstWith(c.events, EventKey, message.value.event.subscription, r.value.value, Bare(message.value))
    ensures message.Some? && message.value.Interrupt? ==>
      RanFirstWith(c.cancelations, CancelKey, message.value.interrupt.requestId, r.value.value, OkReply(message.value))
    ensures message.Some? && message.value.Welcome? ==>
      r.value.value.ran == if onWelcome.Some? then Some((onWelcome.value, Bare(message.value))) else None
    ensures message.Some? && message.value.Challenge? ==>
      r.value.value.ran == if onChallenge.Some? then Some((onChallenge.value, Bare(message.value))) else None
  {
    match message
    case None => Ok(None)
    case Some(m) =>
      match m
      case Abort(a) => Err(Errors.Abort(a))
      case Error(_) => Ok(Some(RouteError(c, m, socket, run)))
      case Event(e) => Ok(Some(RunFound(FindEvent(c, e.subscription), m, Bare(m), socket, run)))
      case Interrupt(i) => Ok(Some(RunFound(FindCancelation(c, i.requestId), m, OkReply(m), socket, run)))
      case Published(p) => Ok(Some(RunFound(FindPublication(c, p.requestId), m, OkReply(m), socket, run)))
      case Registered(x) => Ok(Some(RunFound(FindRegistration(c, x.requestId), m, OkReply(m), socket, run)))
      case Result(x) => Ok(Some(RunFound(FindCall(c, x.requestId), m, OkReply(m), socket, run)))
      case Subscribed(x) => Ok(Some(RunFound(FindSubscription(c, x.requestId), m, OkReply(m), socket, run)))
      case Unregistered(x) => Ok(Some(RunFound(FindUnregistration(c, x.requestId), m, OkReply(m), socket, run)))
      case Unsubscribed(x) => Ok(Some(RunFound(FindUnsubscription(c, x.requestId), m, OkReply(m), socket, run)))
      case Welcome(_) => Ok(Some(RunSlot(onWelcome, m, socket, run)))
      case Challenge(_) => Ok(Some(RunSlot(onChallenge, m, socket, run)))
      case Cancel(_) => Err(Errors.InvalidFrameReceived(m))
      case Call(_) => Err(Errors.InvalidFrameReceived(m))
      case Yield(_) => Err(Errors.InvalidFrameReceived(m))
      case Authenticate(_) => Err(Errors.InvalidFrameReceived(m))
      case Hello(_) => Err(Errors.InvalidFrameReceived(m))
      case Invocation(_) => Err(Errors.InvalidFrameReceived(m))
      case Publish(_) => Err(Errors.InvalidFrameReceived(m))
      case Register(_) => Err(Errors.InvalidFrameReceived(m))
      case Subscribe(_) => Err(Errors.InvalidFrameReceived(m))
      case Unregister(_) => Err(Errors.InvalidFrameReceived(m))
      case Unsubscribe(_) => Err(Errors.InvalidFrameReceived(m))
  }

  /** Delivery never removes the pending entry: once the context has been
      extended with what the continuation returned, the same SUBSCRIBED
      routes to the same continuation again. */
  lemma {:induction false} RepeatedReplyRunsAgain(c: ContextValue, onWelcome: Option<CallbackId>, onChallenge: Option<CallbackId>,
                                                  socket: Socket, s: CoreSubscribed.Subscribed, run: Continuation)
    requires GetMessageContext(c, onWelcome, onChallenge, socket, Some(Messages.Subscribed(s)), run).value.value.run.Some?
    ensures var d := GetMessageContext(c, onWelcome, onChallenge, socket, Some(Messages.Subscribed(s)), run).value.value;
            GetMessageContext(Extended(c, d.run.value.context), onWelcome, onChallenge, socket, Some(Messages.Subscribed(s)), run).value.value == d
  {
    var d := GetMessageContext(c, onWelcome, onChallenge, socket, Some(Messages.Subscribed(s)), run).value.value;
    var c2 := Extended(c, d.run.value.context);
    FindAppend(c.subscriptions, d.run.value.context.subscriptions, SubscribeKey, s.requestId);
    assert FindSubscription(c2, s.requestId) == FindSubscription(c, s.requestId);
  }

  /** Event handlers persist the same way: every EVENT for a subscription
      reaches the handler that was first registered for it. */
  lemma {:induction false} RepeatedEventRunsAgain(c: ContextValue, onWelcome: Option<CallbackId>, onChallenge: Option<CallbackId>,
                                                  socket: Socket, e: LegacyEvent.Event, run: Continuation)
    requires GetMessageContext(c, onWelcome, onChallenge, socket, Some(Messages.Event(e)), run).value.value.run.Some?
    ensures var d := GetMessageContext(c, onWelcome, onChallenge, socket, Some(Messages.Event(e)), run).value.value;
            GetMessageContext(Extended(c, d.run.value.context), onWelcome, onChallenge, socket, Some(Messages.Event(e)), run).value.value == d
  {
    var d := GetMessageContext(c, onWelcome, onChallenge, socket, Some(Messages.Event(e)), run).value.value;
    FindEventAfterExtend(c, d.run.value.context, e.subscription);
  }

  /** The same holds for every message that runs a continuation: replies,
      errors, events, interrupts and the welcome and challenge handlers. */
  lemma {:induction false} RepeatedMessageRunsAgain(c: ContextValue, onWelcome: Option<CallbackId>, onChallenge: Option<CallbackId>,
                                                    socket: Socket, m: Messages.Message, run: Continuation)
    requires !m.Goodbye? && !m.Extension?
    requires GetMessageContext(c, onWelcome, onChallenge, socket, Some(m), run).Ok?
    requires GetMessageContext(c, onWelcome, onChallenge, socket, Some(m), run).value.value.run.Some?
    ensures var d := GetMessageContext(c, onWelcome, onChallenge, socket, Some(m), run).value.value;
            GetMessageContext(Extended(c, d.run.value.context), onWelcome, onChallenge, socket, Some(m), run).value.value == d
  {
    var o := GetMessageContext(c, onWelcome, onChallenge, socket, Some(m), run).value.value.run.value.context;
    match m {
      case Error(e) =>
        match e.event {
          case Call => FindAppend(c.calls, o.calls, CallKey, e.requestId);
          case Unsubscribe => FindAppend(c.unsubscriptions, o.unsubscriptions, UnsubscribeKey, e.requestId);
          case Subscribe => FindAppend(c.subscriptions, o.subscriptions, SubscribeKey, e.requestId);
          case Publish => FindAppend(c.publications, o.publications, PublishKey, e.requestId);
          case Register => FindAppend(c.registrations, o.registrations, RegisterKey, e.requestId);
          case Unregister => FindAppend(c.unregistrations, o.unregistrations, UnregisterKey, e.requestId);
          case Invocation =>
          case Cancel => FindAppend(c.cancelations, o.cancelations, CancelKey, e.requestId);
        }
      case Event(x) => FindAppend(c.events, o.events, EventKey, x.subscription);
      case Interrupt(x) => FindAppend(c.cancelations, o.cancelations, CancelKey, x.requestId);
      case Published(x) => FindAppend(c.publications, o.publications, PublishKey, x.requestId);
      case Registered(x) => FindAppend(c.registrations, o.registrations, RegisterKey, x.requestId);
      case Result(x) => FindAppend(c.calls, o.calls, CallKey, x.requestId);
      case Subscribed(x) => FindAppend(c.subscriptions, o.subscriptions, SubscribeKey, x.requestId);
      case Unregistered(x) => FindAppend(c.unregistrations, o.unregistrations, UnregisterKey, x.requestId);
      case Unsubscribed(x) => FindAppend(c.unsubscriptions, o.unsubscriptions, UnsubscribeKey, x.requestId);
      case _ =>
    }
  }

  // Pruning on an error

  /** The entries whose request satisfies `keep`, as `Vec::retain` leaves
      them. */
  function Retain<K>(entries: seq<(K, CallbackId)>, keep: K -> bool): (r: seq<(K, CallbackId)>)
    ensures forall i :: 0 <= i < |r| ==> r[i] in entries && keep(r[i].0)
    ensures forall i :: 0 <= i < |entries| && keep(entries[i].0) ==> entries[i] in r
    ensures |r| <= |entries|
  {
    if |entries| == 0 then []
    else (if keep(entries[0].0) then [entries[0]] else []) + Retain(entries[1..], keep)
  }

  /** Retaining splits over concatenation, so the kept entries stay in their
      relative order, each as often as it was there. */
  lemma {:induction false} RetainAppend<K>(a: seq<(K, CallbackId)>, b: seq<(K, CallbackId)>, keep: K -> bool)
    ensures Retain(a + b, keep) == Retain(a, keep) + Retain(b, keep)
  {
    if |a| == 0 {
      assert a + b == b;
    } else {
      assert (a + b)[1..] == a[1..] + b;
      RetainAppend(a[1..], b, keep);
    }
  }

  /** When every entry with key `id` is kept, a search for `id` after
      retaining finds what it found before. */
  lemma {:induction false} FindRetained<K>(entries: seq<(K, CallbackId)>, keep: K -> bool, key: K -> U64, id: U64)
    requires forall q :: key(q) == id ==> keep(q)
    ensures Find(Retain(entries, keep), key, id) == Find(entries, key, id)
  {
    if |entries| > 0 {
      var head: seq<(K, CallbackId)> := if keep(entries[0].0) then [entries[0]] else [];
      var tail := Retain(entries[1..], keep);
      assert entries == [entries[0]] + entries[1..];
      FindAppend([entries[0]], entries[1..], key, id);
      FindAppend(head, tail, key, id);
      FindRetained(entries[1..], keep, key, id);
      if !keep(entries[0].0) {
        assert Find([entries[0]], key, id).None? by {
          assert NoneWith([entries[0]], key, id);
        }
      }
    }
  }

  /** The context `handle_and_empty_contexts` leaves after an ERROR: the list
      of the type the cause names keeps only the entries whose request id
      EQUALS the error's; a Cancel cause prunes the invocation handlers; a
      Call cause changes nothing. */
  function Pruned(c: ContextValue, e: CoreError.WampError): (r: ContextValue)
    ensures e.event == CoreError.Call ==> r == c
    ensures e.event == CoreError.Subscribe ==> r == c.(subscriptions := r.subscriptions)
    ensures e.event == CoreError.Subscribe ==> forall x :: x in r.subscriptions <==> x in c.subscriptions && x.0.requestId == e.requestId
    ensures e.event == CoreError.Unsubscribe ==> r == c.(unsubscriptions := r.unsubscriptions)
    ensures e.event == CoreError.Unsubscribe ==> forall x :: x in r.unsubscriptions <==> x in c.unsubscriptions && x.0.requestId == e.requestId
    ensures e.event == CoreError.Publish ==> r == c.(publications := r.publications)
    ensures e.event == CoreError.Publish ==> forall x :: x in r.publications <==> x in c.publications && x.0.requestId == e.requestId
    ensures e.event == CoreError.Register ==> r == c.(registrations := r.registrations)
    ensures e.event == CoreError.Register ==> forall x :: x in r.registrations <==> x in c.registrations && x.0.requestId == e.requestId
    ensures e.event == CoreError.Unregister ==> r == c.(unregistrations := r.unregistrations)
    ensures e.event == CoreError.Unregister ==> forall x :: x in r.unregistrations <==> x in c.unregistrations && x.0.requestId == e.requestId
    ensures e.event == CoreError.Invocation || e.event == CoreError.Cancel ==> r == c.(invocations := r.invocations)
    ensures e.event == CoreError.Invocation || e.event == CoreError.Cancel ==> forall x :: x in r.invocations <==> x in c.invocations && x.0.requestId == e.requestId
  {
    var id := e.requestId;
    match e.event
    case Call => c
    case Unsubscribe => c.(unsubscriptions := Retain(c.unsubscriptions, (q: LegacyUnsubscribe.Unsubscribe) => q.requestId == id))
    case Subscribe => c.(subscriptions := Retain(c.subscriptions, (q: CoreSubscribe.Subscribe) => q.requestId == id))
    case Publish => c.(publications := Retain(c.publications, (q: LegacyPublish.Publish) => q.requestId == id))
    case Register => c.(registrations := Retain(c.registrations, (q: LegacyRegister.Register) => q.requestId == id))
    case Unregister => c.(unregistrations := Retain(c.unregistrations, (q: CoreUnregister.Unregister) => q.requestId == id))
    case Invocation => c.(invocations := Retain(c.invocations, (q: CoreRegistered.Registered) => q.requestId == id))
    case Cancel => c.(invocations := Retain(c.invocations, (q: CoreRegistered.Registered) => q.requestId == id))
  }

  /** With two pending subscriptions, an error for the first keeps the
      failed request and drops the other one, which is still waiting; and a
      Cancel-caused error leaves the failed cancellation in place. */
  lemma {:induction false} PrunedKeepsTheFailedRequest(socket: Option<Socket>)
    ensures var s1 := CoreSubscribe.Subscribe(1, Json.EmptyObject, "com.myapp.a");
            var s2 := CoreSubscribe.Subscribe(2, Json.EmptyObject, "com.myapp.b");
            var c := Fresh(socket).(subscriptions := [(s1, 10), (s2, 20)]);
            var r := Pruned(c, CoreError.WampError(CoreError.Subscribe, 1, Json.EmptyObject, "wamp.error.not_authorized"));
            (s1, 10) in r.subscriptions && (s2, 20) !in r.subscriptions
    ensures var k := CoreCancel.Cancel(3, Json.EmptyObject);
            var c := Fresh(socket).(cancelations := [(k, 30)]);
            Pruned(c, CoreError.WampError(CoreError.Cancel, 3, Json.EmptyObject, "wamp.error.canceled")).cancelations == [(k, 30)]
  {
  }

  /** The pruning the error handling evidently intends: the failed request
      leaves the list of its type, every other pending request stays, and a
      Cancel cause prunes the cancellations. */
  function PrunedCorrected(c: ContextValue, e: CoreError.WampError): (r: ContextValue)
    ensures e.event == CoreError.Call ==> r == c
    ensures e.event == CoreError.Subscribe ==> r == c.(subscriptions := r.subscriptions)
    ensures e.event == CoreError.Subscribe ==> forall x :: x in r.subscriptions <==> x in c.subscriptions && x.0.requestId != e.requestId
    ensures e.event == CoreError.Unsubscribe ==> r == c.(unsubscriptions := r.unsubscriptions)
    ensures e.event == CoreError.Unsubscribe ==> forall x :: x in r.unsubscriptions <==> x in c.unsubscriptions && x.0.requestId != e.requestId
    ensures e.event == CoreError.Publish ==> r == c.(publications := r.publications)
    ensures e.event == CoreError.Publish ==> forall x :: x in r.publications <==> x in c.publications && x.0.requestId != e.requestId
    ensures e.event == CoreError.Register ==> r == c.(registrations := r.registrations)
    ensures e.event == CoreError.Register ==> forall x :: x in r.registrations <==> x in c.registrations && x.0.requestId != e.requestId
    ensures e.event == CoreError.Unregister ==> r == c.(unregistrations := r.unregistrations)
    ensures e.event == CoreError.Unregister ==> forall x :: x in r.unregistrations <==> x in c.unregistrations && x.0.requestId != e.requestId
    ensures e.event == CoreError.Invocation ==> r == c.(invocations := r.invocations)
    ensures e.event == CoreError.Invocation ==> forall x :: x in r.invocations <==> x in c.invocations && x.0.requestId != e.requestId
    ensures e.event == CoreError.Cancel ==> r == c.(cancelations := r.cancelations)
    ensures e.event == CoreError.Cancel ==> forall x :: x in r.cancelations <==> x in c.cancelations && x.0.requestId != e.requestId
  {
    var id := e.requestId;
    match e.event
    case Call => c
    case Unsubscribe => c.(unsubscriptions := Retain(c.unsubscriptions, (q: LegacyUnsubscribe.Unsubscribe) => q.requestId != id))
    case Subscribe => c.(subscriptions := Retain(c.subscriptions, (q: CoreSubscribe.Subscribe) => q.requestId != id))
    case Publish => c.(publications := Retain(c.publications, (q: LegacyPublish.Publish) => q.requestId != id))
    case Register => c.(registrations := Retain(c.registrations, (q: LegacyRegister.Register) => q.requestId != id))
    case Unregister => c.(unregistrations := Retain(c.unregistrations, (q: CoreUnregister.Unregister) => q.requestId != id))
    case Invocation => c.(invocations := Retain(c.invocations, (q: CoreRegistered.Registered) => q.requestId != id))
    case Cancel => c.(cancelations := Retain(c.cancelations, (q: CoreCancel.Cancel) => q.requestId != id))
  }

  /** After the corrected pruning, an error's request is no longer pending:
      a reply or a second error with its id finds nothing. */
  lemma {:induction false} PrunedCorrectedForgetsFailed(c: ContextValue, e: CoreError.WampError)
    requires e.event == CoreError.Subscribe
    ensures FindSubscription(PrunedCorrected(c, e), e.requestId).None?
  {
    var r := PrunedCorrected(c, e);
    assert NoneWith(r.subscriptions, SubscribeKey, e.requestId) by {
      forall j | 0 <= j < |r.subscriptions| ensures SubscribeKey(r.subscriptions[j].0) != e.requestId {
        assert r.subscriptions[j] in r.subscriptions;
      }
    }
  }

  /** The corrected pruning disturbs no other pending request: for every
      other id, each list's first match is the one it was before. */
  lemma {:induction false} PrunedCorrectedKeepsOthers(c: ContextValue, e: CoreError.WampError, other: U64)
    requires other != e.requestId
    ensures FindRegistration(PrunedCorrected(c, e), other) == FindRegistration(c, other)
    ensures FindUnregistration(PrunedCorrected(c, e), other) == FindUnregistration(c, other)
    ensures FindSubscription(PrunedCorrected(c, e), other) == FindSubscription(c, other)
    ensures FindUnsubscription(PrunedCorrected(c, e), other) == FindUnsubscription(c, other)
    ensures FindPublication(PrunedCorrected(c, e), other) == FindPublication(c, other)
    ensures FindCall(PrunedCorrected(c, e), other) == FindCall(c, other)
    ensures FindInvocation(PrunedCorrected(c, e), other) == FindInvocation(c, other)
    ensures FindCancelation(PrunedCorrected(c, e), other) == FindCancelation(c, other)
  {
    var id := e.requestId;
    match e.event {
      case Call =>
      case Unsubscribe =>
        FindRetained(c.unsubscriptions, (q: LegacyUnsubscribe.Unsubscribe) => q.requestId != id, UnsubscribeKey, other);
      case Subscribe =>
        FindRetained(c.subscriptions, (q: CoreSubscribe.Subscribe) => q.requestId != id, SubscribeKey, other);
      case Publish =>
        FindRetained(c.publications, (q: LegacyPublish.Publish) => q.requestId != id, PublishKey, other);
      case Register =>
        FindRetained(c.registrations, (q: LegacyRegister.Register) => q.requestId != id, RegisterKey, other);
      case Unregister =>
        FindRetained(c.unregistrations, (q: CoreUnregister.Unregister) => q.requestId != id, UnregisterKey, other);
      case Invocation =>
        FindRetained(c.invocations, (q: CoreRegistered.Registered) => q.requestId != id, InvocationKey, other);
      case Cancel =>
        FindRetained(c.cancelations, (q: CoreCancel.Cancel) => q.requestId != id, CancelKey, other);
    }
  }

  /** The pruning as written leaves the failed request exactly where it was:
      every list's first match for the error's id is unchanged, so a second
      error or a late reply with that id reaches the same continuation. */
  lemma {:induction false} PrunedFindsFailedAsBefore(c: ContextValue, e: CoreError.WampError)
    ensures FindRegistration(Pruned(c, e), e.requestId) == FindRegistration(c, e.requestId)
    ensures FindUnregistration(Pruned(c, e), e.requestId) == FindUnregistration(c, e.requestId)
    ensures FindSubscription(Pruned(c, e), e.requestId) == FindSubscription(c, e.requestId)
    ensures FindUnsubscription(Pruned(c, e), e.requestId) == FindUnsubscription(c, e.requestId)
    ensures FindPublication(Pruned(c, e), e.requestId) == FindPublication(c, e.requestId)
    ensures FindCall(Pruned(c, e), e.requestId) == FindCall(c, e.requestId)
    ensures FindInvocation(Pruned(c, e), e.requestId) == FindInvocation(c, e.requestId)
    ensures FindCancelation(Pruned(c, e), e.requestId) == FindCancelation(c, e.requestId)
  {
    var id := e.requestId;
    match e.event {
      case Call =>
      case Unsubscribe =>
        FindRetained(c.unsubscriptions, (q: LegacyUnsubscribe.Unsubscribe) => q.requestId == id, UnsubscribeKey, id);
      case Subscribe =>
        FindRetained(c.subscriptions, (q: CoreSubscribe.Subscribe) => q.requestId == id, SubscribeKey, id);
      case Publish =>
        FindRetained(c.publications, (q: LegacyPublish.Publish) => q.requestId == id, PublishKey, id);
      case Register =>
        FindRetained(c.registrations, (q: LegacyRegister.Register) => q.requestId == id, RegisterKey, id);
      case Unregister =>
        FindRetained(c.unregistrations, (q: CoreUnregister.Unregister) => q.requestId == id, UnregisterKey, id);
      case Invocation =>
        FindRetained(c.invocations, (q: CoreRegistered.Registered) => q.requestId == id, InvocationKey, id);
      case Cancel =>
        FindRetained(c.invocations, (q: CoreRegistered.Registered) => q.requestId == id, InvocationKey, id);
    }
  }

  class Client {
    const socket: Socket
    var context: Context
    var onWelcome: Option<CallbackId>
    var onChallenge: Option<CallbackId>
    /** The continuations run so far, with what each was given. */
    ghost var ran: seq<(CallbackId, CallbackInput)>

    /** The client's own context never holds a socket. */
    ghost predicate Valid()
      reads this, context
    {
      context.socket.None?
    }

    /** The client as `connect` builds it: a context without a socket, and
        no handlers. */
    constructor (socket: Socket)
      ensures Valid() && fresh(context)
      ensures this.socket == socket && context.Value() == Fresh(None)
      ensures onWelcome.None? && onChallenge.None? && ran == []
    {
      this.socket := socket;
      context := new Context(None);
      onWelcome := None;
      onChallenge := None;
      ran := [];
    }

    /** `on_welcome`: replaces the welcome handler. */
    method OnWelcome(callback: CallbackId)
      modifies this
      ensures onWelcome == Some(callback)
      ensures context == old(context) && onChallenge == old(onChallenge) && ran == old(ran)
    {
      onWelcome := Some(callback);
    }

    /** `on_challenge`: replaces the challenge handler. */
    method OnChallenge(callback: CallbackId)
      modifies this
      ensures onChallenge == Some(callback)
      ensures context == old(context) && onWelcome == old(onWelcome) && ran == old(ran)
    {
      onChallenge := Some(callback);
    }

    // The delegates: since the client's context has no socket, every request
    // submitted here is buffered in `context.messages` and nothing is
    // written.

    method Publish(request: LegacyPublish.Publish, callback: CallbackId) returns (r: Result<(), Errors.Error>)
      requires Valid()
      modifies context
      ensures Valid() && socket.sent == old(socket.sent)
      ensures r.Ok? <==> LegacyPublish.Encode(request).Ok?
      ensures r.Err? ==> context.Value() == old(context.Value())
      ensures r.Ok? ==> context.Value() == old(context.Value()).(messages := old(context.messages) + [LegacyPublish.Encode(request).value],
                                                              publications := old(context.publications) + [(request, callback)])
    {
      r := context.Publish(request, callback);
    }

    method Register(request: LegacyRegister.Register, callback: CallbackId) returns (r: Result<(), Errors.Error>)
      requires Valid()
      modifies context
      ensures Valid() && socket.sent == old(socket.sent) && r.Ok?
      ensures context.Value() == old(context.Value()).(messages := old(context.messages) + [LegacyRegister.Encode(request)],
                                                       registrations := old(context.registrations) + [(request, callback)])
    {
      r := context.Register(request, callback);
    }

    method Unregister(request: CoreUnregister.Unregister, callback: CallbackId) returns (r: Result<(), Errors.Error>)
      requires Valid()
      modifies context
      ensures Valid() && socket.sent == old(socket.sent) && r.Ok?
      ensures context.Value() == old(context.Value()).(messages := old(context.messages) + [CoreUnregister.Encode(request)],
                                                       unregistrations := old(context.unregistrations) + [(request, callback)])
    {
      r := context.Unregister(request, callback);
    }

    method Event(subscribed: CoreSubscribed.Subscribed, callback: CallbackId) returns (r: Result<(), Errors.Error>)
      requires Valid()
      modifies context
      ensures Valid() && socket.sent == old(socket.sent) && r.Ok?
      ensures context.Value() == old(context.Value()).(events := old(context.events) + [(subscribed, callback)])
    {
      r := context.Event(subscribed, callback);
    }

    method Unsubscribe(request: LegacyUnsubscribe.Unsubscribe, callback: CallbackId) returns (r: Result<(), Errors.Error>)
      requires Valid()
      modifies context
      ensures Valid() && socket.sent == old(socket.sent) && r.Ok?
      ensures context.Value() == old(context.Value()).(messages := old(context.messages) + [LegacyUnsubscribe.Encode(request)],
                                                       unsubscriptions := old(context.unsubscriptions) + [(request, callback)])
    {
      r := context.Unsubscribe(request, callback);
    }

    method Subscribe(request: CoreSubscribe.Subscribe, callback: CallbackId) returns (r: Result<(), Errors.Error>)
      requires Valid()
      modifies context
      ensures Valid() && socket.sent == old(socket.sent) && r.Ok?
      ensures context.Value() == old(context.Value()).(messages := old(context.messages) + [CoreSubscribe.Encode(request)],
                                                       subscriptions := old(context.subscriptions) + [(request, callback)])
    {
      r := context.Subscribe(request, callback);
    }

    method Call(request: CoreCall.Call, callback: CallbackId) returns (r: Result<(), Errors.Error>)
      requires Valid()
      modifies context
      ensures Valid() && socket.sent == old(socket.sent)
      ensures r.Ok? <==> CoreCall.Encode(request).Ok?
      ensures r.Err? ==> context.Value() == old(context.Value())
      ensures r.Ok? ==> context.Value() == old(context.Value()).(messages := old(context.messages) + [CoreCall.Encode(request).value],
                                                              calls := old(context.calls) + [(request, callback)])
    {
      r := context.Call(request, callback);
    }

    method Invocation(registered: CoreRegistered.Registered, callback: CallbackId) returns (r: Result<(), Errors.Error>)
      requires Valid()
      modifies context
      ensures Valid() && socket.sent == old(socket.sent) && r.Ok?
      ensures context.Value() == old(context.Value()).(messages := old(context.messages) + [CoreRegistered.Encode(registered)],
                                                       invocations := old(context.invocations) + [(registered, callback)])
    {
      r := context.Invocation(registered, callback);
    }

    method Cancel(request: CoreCancel.Cancel, callback: CallbackId) returns (r: Result<(), Errors.Error>)
      requires Valid()
      modifies context
      ensures Valid() && socket.sent == old(socket.sent)
      ensures r.Ok? <==> CoreCancel.Encode(request).Ok?
      ensures r.Err? ==> context.Value() == old(context.Value())
      ensures r.Ok? ==> context.Value() == old(context.Value()).(messages := old(context.messages) + [CoreCancel.Encode(request).value],
                                                              cancelations := old(context.cancelations) + [(request, callback)])
    {
      r := context.Cancel(request, callback);
    }

    /** `extend_context`: merges the context a continuation returned, if
        any, and hands the message back. */
    method ExtendContext(routed: Option<Routed>) returns (r: Result<Option<Messages.Message>, Errors.Error>)
      requires Valid()
      modifies context
      ensures Valid()
      ensures routed.None? ==> r == Ok(None) && context.Value() == old(context.Value())
      ensures routed.Some? ==> r == Ok(Some(routed.value.message))
      ensures routed.Some? && routed.value.run.Some? ==> context.Value() == Extended(old(context.Value()), routed.value.run.value.context)
      ensures routed.Some? && routed.value.run.None? ==> context.Value() == old(context.Value())
    {
      if routed.None? {
        return Ok(None);
      }
      if routed.value.run.Some? {
        context.Extend(routed.value.run.value.context);
      }
      r := Ok(Some(routed.value.message));
    }

    /** `read_contexts`: one dispatch step. A failed routing is returned with
        nothing changed; otherwise the continuation that ran is logged, what
        it wrote reaches the socket, the context it returned is merged into
        the client's, and the message comes back. No entry is removed. */
    method ReadContexts(message: Option<Messages.Message>, run: Continuation) returns (r: Result<Option<Messages.Message>, Errors.Error>)
      requires Valid()
      requires message.Some? ==> !message.value.Goodbye? && !message.value.Extension?
      modifies this, context, socket
      ensures Valid() && context == old(context) && onWelcome == old(onWelcome) && onChallenge == old(onChallenge)
      ensures var d := GetMessageContext(old(context.Value()), onWelcome, onChallenge, socket, message, run);
        match d
        case Err(e) =>
          r == Err(e) && context.Value() == old(context.Value()) && ran == old(ran) && socket.sent == old(socket.sent)
        case Ok(None) =>
          r == Ok(None) && context.Value() == old(context.Value()) && ran == old(ran) && socket.sent == old(socket.sent)
        case Ok(Some(x)) =>
          r == Ok(Some(x.message)) &&
          (x.run.None? ==> context.Value() == old(context.Value()) && ran == old(ran) && socket.sent == old(socket.sent)) &&
          (x.run.Some? ==> context.Value() == Extended(old(context.Value()), x.run.value.context) &&
                           ran == old(ran) + [x.ran.value] && socket.sent == old(socket.sent) + x.run.value.written)
    {
      var d := GetMessageContext(context.Value(), onWelcome, onChallenge, socket, message, run);
      if d.Err? {
        return Err(d.error);
      }
      if d.value.Some? && d.value.value.run.Some? {
        ran := ran + [d.value.value.ran.value];
        socket.sent := socket.sent + d.value.value.run.value.written;
      }
      r := ExtendContext(d.value);
    }

    /** `handle_and_empty_contexts`: an ERROR whose cause is not Call prunes
        the context as `Pruned` says and comes back; a Call cause or any
        other message gives nothing and changes nothing. */
    method HandleAndEmptyContexts(message: Messages.Message) returns (r: Result<Option<Messages.Message>, Errors.Error>)
      requires Valid()
      modifies context
      ensures Valid()
      ensures !message.Error? || message.error.event == CoreError.Call ==> r == Ok(None) && context.Value() == old(context.Value())
      ensures message.Error? && message.error.event != CoreError.Call ==>
        r == Ok(Some(message)) && context.Value() == Pruned(old(context.Value()), message.error)
    {
      if !message.Error? {
        return Ok(None);
      }
      var e := message.error;
      var id := e.requestId;
      match e.event {
        case Call =>
          return Ok(None);
        case Unsubscribe =>
          context.unsubscriptions := Retain(context.unsubscriptions, (q: LegacyUnsubscribe.Unsubscribe) => q.requestId == id);
        case Subscribe =>
          context.subscriptions := Retain(context.subscriptions, (q: CoreSubscribe.Subscribe) => q.requestId == id);
        case Publish =>
          context.publications := Retain(context.publications, (q: LegacyPublish.Publish) => q.requestId == id);
        case Register =>
          context.registrations := Retain(context.registrations, (q: LegacyRegister.Register) => q.requestId == id);
        case Unregister =>
          context.unregistrations := Retain(context.unregistrations, (q: CoreUnregister.Unregister) => q.requestId == id);
        case Invocation =>
          context.invocations := Retain(context.invocations, (q: CoreRegistered.Registered) => q.requestId == id);
        case Cancel =>
          context.invocations := Retain(context.invocations, (q: CoreRegistered.Registered) => q.requestId == id);
      }
      r := Ok(Some(message));
    }
  }
}
