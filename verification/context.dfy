/** The correlation context: per request type, the list of requests still
    waiting for a reply, each paired with the continuation to run when the
    reply (or an error for it) arrives. Requests go out through `Send`, which
    writes them to the socket when the context has one and otherwise buffers
    the frame in `messages`. */
module ClientContext {
  import opened Wire
  import Errors
  import Messages
  import CoreCall
  import CoreCancel
  import CoreRegistered
  import CoreSubscribe
  import CoreSubscribed
  import CoreUnregister
  import LegacyPublish
  import LegacyRegister
  import LegacyUnsubscribe

  /** An opaque name for a caller-supplied continuation. */
  type CallbackId = nat

  /** The shared connection. Only the frames it has written are modelled;
      a write never fails here. */
  class Socket {
    var sent: seq<Frame>

    constructor ()
      ensures sent == []
    {
      sent := [];
    }

    method Write(frame: Frame)
      modifies this
      ensures sent == old(sent) + [frame]
    {
      sent := sent + [frame];
    }
  }

  /** The whole state of a context as a value: its socket, the eight lists of
      pending requests, the error list, the buffered frames and the
      cancellations. */
  datatype ContextValue = ContextValue(
    socket: Option<Socket>,
    registrations: seq<(LegacyRegister.Register, CallbackId)>,
    unregistrations: seq<(CoreUnregister.Unregister, CallbackId)>,
    subscriptions: seq<(CoreSubscribe.Subscribe, CallbackId)>,
    unsubscriptions: seq<(LegacyUnsubscribe.Unsubscribe, CallbackId)>,
    publications: seq<(LegacyPublish.Publish, CallbackId)>,
    calls: seq<(CoreCall.Call, CallbackId)>,
    events: seq<(CoreSubscribed.Subscribed, CallbackId)>,
    invocations: seq<(CoreRegistered.Registered, CallbackId)>,
    errors: seq<(Messages.Message, CallbackId)>,
    messages: seq<Frame>,
    cancelations: seq<(CoreCancel.Cancel, CallbackId)>)

  /** A context holding `socket` and nothing pending. */
  function Fresh(socket: Option<Socket>): ContextValue {
    ContextValue(socket, [], [], [], [], [], [], [], [], [], [], [])
  }

  /** The context after `frame` has gone out: buffered when there is no
      socket, and otherwise left to the socket. */
  function Buffered(c: ContextValue, frame: Frame): ContextValue {
    if c.socket.None? then c.(messages := c.messages + [frame]) else c
  }

  /** The lists of the context after `extend(other)`: each of the eight
      request lists gets `other`'s entries after its own; the socket, the
      buffered frames, the errors and the cancellations stay as they were,
      and `other`'s are dropped. */
  function Extended(c: ContextValue, other: ContextValue): (r: ContextValue)
    ensures r.socket == c.socket && r.messages == c.messages && r.errors == c.errors && r.cancelations == c.cancelations
    ensures |r.calls| == |c.calls| + |other.calls| && r.calls[..|c.calls|] == c.calls && r.calls[|c.calls|..] == other.calls
    ensures |r.events| == |c.events| + |other.events| && r.events[..|c.events|] == c.events && r.events[|c.events|..] == other.events
    ensures |r.registrations| == |c.registrations| + |other.registrations|
            && r.registrations[..|c.registrations|] == c.registrations && r.registrations[|c.registrations|..] == other.registrations
    ensures |r.unregistrations| == |c.unregistrations| + |other.unregistrations|
            && r.unregistrations[..|c.unregistrations|] == c.unregistrations && r.unregistrations[|c.unregistrations|..] == other.unregistrations
    ensures |r.unsubscriptions| == |c.unsubscriptions| + |other.unsubscriptions|
            && r.unsubscriptions[..|c.unsubscriptions|] == c.unsubscriptions && r.unsubscriptions[|c.unsubscriptions|..] == other.unsubscriptions
    ensures |r.subscriptions| == |c.subscriptions| + |other.subscriptions|
            && r.subscriptions[..|c.subscriptions|] == c.subscriptions && r.subscriptions[|c.subscriptions|..] == other.subscriptions
    ensures |r.publications| == |c.publications| + |other.publications|
            && r.publications[..|c.publications|] == c.publications && r.publications[|c.publications|..] == other.publications
    ensures |r.invocations| == |c.invocations| + |other.invocations|
            && r.invocations[..|c.invocations|] == c.invocations && r.invocations[|c.invocations|..] == other.invocations
  {
    c.(registrations := c.registrations + other.registrations,
       unregistrations := c.unregistrations + other.unregistrations,
       events := c.events + other.events,
       unsubscriptions := c.unsubscriptions + other.unsubscriptions,
       subscriptions := c.subscriptions + other.subscriptions,
       publications := c.publications + other.publications,
       calls := c.calls + other.calls,
       invocations := c.invocations + other.invocations)
  }

  /** Extending with an empty context changes nothing. */
  lemma {:induction false} ExtendedByFresh(c: ContextValue, socket: Option<Socket>)
    ensures Extended(c, Fresh(socket)) == c
  {
    assert c.registrations + [] == c.registrations;
    assert c.unregistrations + [] == c.unregistrations;
    assert c.events + [] == c.events;
    assert c.unsubscriptions + [] == c.unsubscriptions;
    assert c.subscriptions + [] == c.subscriptions;
    assert c.publications + [] == c.publications;
    assert c.calls + [] == c.calls;
    assert c.invocations + [] == c.invocations;
  }

  /** Extending twice in a row is extending once with the two merged. */
  lemma {:induction false} ExtendedAssociative(a: ContextValue, b: ContextValue, c: ContextValue)
    ensures Extended(Extended(a, b), c) == Extended(a, Extended(b, c))
  {
    assert (a.registrations + b.registrations) + c.registrations == a.registrations + (b.registrations + c.registrations);
    assert (a.unregistrations + b.unregistrations) + c.unregistrations == a.unregistrations + (b.unregistrations + c.unregistrations);
    assert (a.events + b.events) + c.events == a.events + (b.events + c.events);
    assert (a.unsubscriptions + b.unsubscriptions) + c.unsubscriptions == a.unsubscriptions + (b.unsubscriptions + c.unsubscriptions);
    assert (a.subscriptions + b.subscriptions) + c.subscriptions == a.subscriptions + (b.subscriptions + c.subscriptions);
    assert (a.publications + b.publications) + c.publications == a.publications + (b.publications + c.publications);
    assert (a.calls + b.calls) + c.calls == a.calls + (b.calls + c.calls);
    assert (a.invocations + b.invocations) + c.invocations == a.invocations + (b.invocations + c.invocations);
  }

  // First-match lookup

  /** `i` is the position of the first entry whose request has key `id`. */
  ghost predicate IsFirst<K>(entries: seq<(K, CallbackId)>, key: K -> U64, id: U64, i: int) {
    0 <= i < |entries| && key(entries[i].0) == id &&
    forall j :: 0 <= j < i ==> key(entries[j].0) != id
  }

  /** No entry's request has key `id`. */
  ghost predicate NoneWith<K>(entries: seq<(K, CallbackId)>, key: K -> U64, id: U64) {
    forall j :: 0 <= j < |entries| ==> key(entries[j].0) != id
  }

  /** `r` is what a first-match search for `id` must give. */
  ghost predicate FirstWith<K>(entries: seq<(K, CallbackId)>, key: K -> U64, id: U64, r: Option<(K, CallbackId)>) {
    match r
    case None => NoneWith(entries, key, id)
    case Some(e) => exists i :: IsFirst(entries, key, id, i) && entries[i] == e
  }

  /** The position of the first entry with key `id`, scanning from the front. */
  function FirstIndex<K>(entries: seq<(K, CallbackId)>, key: K -> U64, id: U64): (r: Option<nat>)
    ensures r.Some? ==> IsFirst(entries, key, id, r.value)
    ensures r.None? ==> NoneWith(entries, key, id)
  {
    if |entries| == 0 then None
    else if key(entries[0].0) == id then Some(0)
    else match FirstIndex(entries[1..], key, id)
      case None => None
      case Some(i) => Some(i + 1)
  }

  /** The first entry with key `id`, which stays in the list. */
  function Find<K>(entries: seq<(K, CallbackId)>, key: K -> U64, id: U64): (r: Option<(K, CallbackId)>)
    ensures FirstWith(entries, key, id, r)
  {
    match FirstIndex(entries, key, id)
    case None => None
    case Some(i) => Some(entries[i])
  }

  /** There is at most one first position. */
  lemma {:induction false} FirstUnique<K>(entries: seq<(K, CallbackId)>, key: K -> U64, id: U64, i: int, k: int)
    requires IsFirst(entries, key, id, i) && IsFirst(entries, key, id, k)
    ensures i == k
  {
  }

  /** Searching a list with entries appended finds the old list's match when
      it has one, and otherwise the appended entries' match. */
  lemma {:induction false} FindAppend<K>(a: seq<(K, CallbackId)>, b: seq<(K, CallbackId)>, key: K -> U64, id: U64)
    ensures Find(a + b, key, id) == if Find(a, key, id).Some? then Find(a, key, id) else Find(b, key, id)
  {
    var ab := a + b;
    match FirstIndex(a, key, id) {
      case Some(i) =>
        assert IsFirst(ab, key, id, i) by {
          assert ab[i] == a[i];
          forall j | 0 <= j < i ensures key(ab[j].0) != id {
            assert ab[j] == a[j];
          }
        }
        match FirstIndex(ab, key, id) {
          case None =>
            assert key(ab[i].0) == id;
          case Some(k) =>
            FirstUnique(ab, key, id, i, k);
        }
      case None =>
        match FirstIndex(b, key, id) {
          case Some(k) =>
            assert IsFirst(ab, key, id, |a| + k) by {
              assert ab[|a| + k] == b[k];
              forall j | 0 <= j < |a| + k ensures key(ab[j].0) != id {
                if j < |a| {
                  assert ab[j] == a[j];
                } else {
                  assert ab[j] == b[j - |a|];
                }
              }
            }
            match FirstIndex(ab, key, id) {
              case None =>
                assert key(ab[|a| + k].0) == id;
              case Some(m) =>
                FirstUnique(ab, key, id, |a| + k, m);
            }
          case None =>
            assert NoneWith(ab, key, id) by {
              forall j | 0 <= j < |ab| ensures key(ab[j].0) != id {
                if j < |a| {
                  assert ab[j] == a[j];
                } else {
                  assert ab[j] == b[j - |a|];
                }
              }
            }
        }
    }
  }

  // The keys the lookups compare: a request's id, or a subscription's id.

  function RegisterKey(q: LegacyRegister.Register): U64 { q.requestId }
  function UnregisterKey(q: CoreUnregister.Unregister): U64 { q.requestId }
  function SubscribeKey(q: CoreSubscribe.Subscribe): U64 { q.requestId }
  function UnsubscribeKey(q: LegacyUnsubscribe.Unsubscribe): U64 { q.requestId }
  function PublishKey(q: LegacyPublish.Publish): U64 { q.requestId }
  function CallKey(q: CoreCall.Call): U64 { q.requestId }
  function InvocationKey(q: CoreRegistered.Registered): U64 { q.requestId }
  function CancelKey(q: CoreCancel.Cancel): U64 { q.requestId }
  function EventKey(q: CoreSubscribed.Subscribed): U64 { q.subscription }

  // The lookups. `find_x` (keyed by a reply's request id) and
  // `find_by_error_x` (keyed by an error's request id) search the same list
  // the same way, so one function per list models both.

  /** The first pending REGISTER with this request id. */
  function FindRegistration(c: ContextValue, requestId: U64): (r: Option<(LegacyRegister.Register, CallbackId)>)
    ensures FirstWith(c.registrations, RegisterKey, requestId, r)
  {
    Find(c.registrations, RegisterKey, requestId)
  }

  /** The first pending UNREGISTER with this request id. */
  function FindUnregistration(c: ContextValue, requestId: U64): (r: Option<(CoreUnregister.Unregister, CallbackId)>)
    ensures FirstWith(c.unregistrations, UnregisterKey, requestId, r)
  {
    Find(c.unregistrations, UnregisterKey, requestId)
  }

  /** The first pending SUBSCRIBE with this request id. */
  function FindSubscription(c: ContextValue, requestId: U64): (r: Option<(CoreSubscribe.Subscribe, CallbackId)>)
    ensures FirstWith(c.subscriptions, SubscribeKey, requestId, r)
  {
    Find(c.subscriptions, SubscribeKey, requestId)
  }

  /** The first pending UNSUBSCRIBE with this request id. */
  function FindUnsubscription(c: ContextValue, requestId: U64): (r: Option<(LegacyUnsubscribe.Unsubscribe, CallbackId)>)
    ensures FirstWith(c.unsubscriptions, UnsubscribeKey, requestId, r)
  {
    Find(c.unsubscriptions, UnsubscribeKey, requestId)
  }

  /** The first pending PUBLISH with this request id. */
  function FindPublication(c: ContextValue, requestId: U64): (r: Option<(LegacyPublish.Publish, CallbackId)>)
    ensures FirstWith(c.publications, PublishKey, requestId, r)
  {
    Find(c.publications, PublishKey, requestId)
  }

  /** The first pending CALL with this request id. */
  function FindCall(c: ContextValue, requestId: U64): (r: Option<(CoreCall.Call, CallbackId)>)
    ensures FirstWith(c.calls, CallKey, requestId, r)
  {
    Find(c.calls, CallKey, requestId)
  }

  /** The first invocation handler whose REGISTERED record has this request
      id. */
  function FindInvocation(c: ContextValue, requestId: U64): (r: Option<(CoreRegistered.Registered, CallbackId)>)
    ensures FirstWith(c.invocations, InvocationKey, requestId, r)
  {
    Find(c.invocations, InvocationKey, requestId)
  }

  /** The first pending CANCEL with this request id. */
  function FindCancelation(c: ContextValue, requestId: U64): (r: Option<(CoreCancel.Cancel, CallbackId)>)
    ensures FirstWith(c.cancelations, CancelKey, requestId, r)
  {
    Find(c.cancelations, CancelKey, requestId)
  }

  /** The first event handler for this subscription id: events are matched
      by subscription, not by request id. */
  function FindEvent(c: ContextValue, subscription: U64): (r: Option<(CoreSubscribed.Subscribed, CallbackId)>)
    ensures FirstWith(c.events, EventKey, subscription, r)
  {
    Find(c.events, EventKey, subscription)
  }

  /** Extending never hides a pending call: a reply still finds the entry
      that was already there, and only otherwise one of the merged ones. */
  lemma {:induction false} FindCallAfterExtend(c: ContextValue, other: ContextValue, requestId: U64)
    ensures FindCall(Extended(c, other), requestId) ==
      if FindCall(c, requestId).Some? then FindCall(c, requestId) else FindCall(other, requestId)
  {
    FindAppend(c.calls, other.calls, CallKey, requestId);
  }

  /** Likewise for event handlers, matched by subscription. */
  lemma {:induction false} FindEventAfterExtend(c: ContextValue, other: ContextValue, subscription: U64)
    ensures FindEvent(Extended(c, other), subscription) ==
      if FindEvent(c, subscription).Some? then FindEvent(c, subscription) else FindEvent(other, subscription)
  {
    FindAppend(c.events, other.events, EventKey, subscription);
  }

  class Context {
    var socket: Option<Socket>
    var registrations: seq<(LegacyRegister.Register, CallbackId)>
    var unregistrations: seq<(CoreUnregister.Unregister, CallbackId)>
    var subscriptions: seq<(CoreSubscribe.Subscribe, CallbackId)>
    var unsubscriptions: seq<(LegacyUnsubscribe.Unsubscribe, CallbackId)>
    var publications: seq<(LegacyPublish.Publish, CallbackId)>
    var calls: seq<(CoreCall.Call, CallbackId)>
    var events: seq<(CoreSubscribed.Subscribed, CallbackId)>
    var invocations: seq<(CoreRegistered.Registered, CallbackId)>
    var errors: seq<(Messages.Message, CallbackId)>
    var messages: seq<Frame>
    var cancelations: seq<(CoreCancel.Cancel, CallbackId)>

    /** The context's fields as one value. */
    function Value(): ContextValue
      reads this
    {
      ContextValue(socket, registrations, unregistrations, subscriptions, unsubscriptions,
                   publications, calls, events, invocations, errors, messages, cancelations)
    }

    /** The objects a send may change: the socket, when there is one. */
    function Sink(): set<object>
      reads this
    {
      if socket.Some? then {socket.value} else {}
    }

    /** A new context holds the given socket and nothing else. */
    constructor (socket: Option<Socket>)
      ensures Value() == Fresh(socket)
    {
      this.socket := socket;
      registrations := [];
      unregistrations := [];
      subscriptions := [];
      unsubscriptions := [];
      publications := [];
      calls := [];
      events := [];
      invocations := [];
      messages := [];
      errors := [];
      cancelations := [];
    }

    /** Sends a serialised message: a serialisation failure is returned and
        nothing changes; otherwise the frame is written to the socket when
        there is one (and `messages` is untouched), and appended to
        `messages` when there is none. */
    method Send(encoded: Result<Frame, CodecError>) returns (r: Result<(), Errors.Error>)
      modifies this, Sink()
      ensures encoded.Err? ==> r == Err(Errors.SerdeJsonError(encoded.error))
      ensures encoded.Ok? ==> r == Ok(())
      ensures Value() == if r.Ok? then Buffered(old(Value()), encoded.value) else old(Value())
      ensures socket.Some? ==> socket.value.sent == old(socket.value.sent) + if r.Ok? then [encoded.value] else []
    {
      if encoded.Err? {
        return Err(Errors.SerdeJsonError(encoded.error));
      }
      if socket.Some? {
        socket.value.Write(encoded.value);
      } else {
        messages := messages + [encoded.value];
      }
      r := Ok(());
    }

    /** `register`: sends the REGISTER, then records it with its callback. */
    method Register(request: LegacyRegister.Register, callback: CallbackId) returns (r: Result<(), Errors.Error>)
      modifies this, Sink()
      ensures r.Ok?
      ensures Value() == Buffered(old(Value()), LegacyRegister.Encode(request)).(registrations := old(registrations) + [(request, callback)])
      ensures socket.Some? ==> socket.value.sent == old(socket.value.sent) + [LegacyRegister.Encode(request)]
    {
      r := Send(Ok(LegacyRegister.Encode(request)));
      registrations := registrations + [(request, callback)];
    }

    /** `unregister`: sends the UNREGISTER, then records it. */
    method Unregister(request: CoreUnregister.Unregister, callback: CallbackId) returns (r: Result<(), Errors.Error>)
      modifies this, Sink()
      ensures r.Ok?
      ensures Value() == Buffered(old(Value()), CoreUnregister.Encode(request)).(unregistrations := old(unregistrations) + [(request, callback)])
      ensures socket.Some? ==> socket.value.sent == old(socket.value.sent) + [CoreUnregister.Encode(request)]
    {
      r := Send(Ok(CoreUnregister.Encode(request)));
      unregistrations := unregistrations + [(request, callback)];
    }

    /** `event`: records an event handler for a subscription without sending
        anything. */
    method Event(subscribed: CoreSubscribed.Subscribed, callback: CallbackId) returns (r: Result<(), Errors.Error>)
      modifies this
      ensures r.Ok?
      ensures Value() == old(Value()).(events := old(events) + [(subscribed, callback)])
    {
      events := events + [(subscribed, callback)];
      r := Ok(());
    }

    /** `unsubscribe`: sends the UNSUBSCRIBE, then records it. */
    method Unsubscribe(request: LegacyUnsubscribe.Unsubscribe, callback: CallbackId) returns (r: Result<(), Errors.Error>)
      modifies this, Sink()
      ensures r.Ok?
      ensures Value() == Buffered(old(Value()), LegacyUnsubscribe.Encode(request)).(unsubscriptions := old(unsubscriptions) + [(request, callback)])
      ensures socket.Some? ==> socket.value.sent == old(socket.value.sent) + [LegacyUnsubscribe.Encode(request)]
    {
      r := Send(Ok(LegacyUnsubscribe.Encode(request)));
      unsubscriptions := unsubscriptions + [(request, callback)];
    }

    /** `subscribe`: sends the SUBSCRIBE, then records it. */
    method Subscribe(request: CoreSubscribe.Subscribe, callback: CallbackId) returns (r: Result<(), Errors.Error>)
      modifies this, Sink()
      ensures r.Ok?
      ensures Value() == Buffered(old(Value()), CoreSubscribe.Encode(request)).(subscriptions := old(subscriptions) + [(request, callback)])
      ensures socket.Some? ==> socket.value.sent == old(socket.value.sent) + [CoreSubscribe.Encode(request)]
    {
      r := Send(Ok(CoreSubscribe.Encode(request)));
      subscriptions := subscriptions + [(request, callback)];
    }

    /** `publish`: sends the PUBLISH and records it only if it serialised;
        otherwise nothing changes. */
    method Publish(request: LegacyPublish.Publish, callback: CallbackId) returns (r: Result<(), Errors.Error>)
      modifies this, Sink()
      ensures r.Ok? <==> LegacyPublish.Encode(request).Ok?
      ensures r.Err? ==> r.error == Errors.SerdeJsonError(LegacyPublish.Encode(request).error) && Value() == old(Value())
      ensures r.Ok? ==> Value() == Buffered(old(Value()), LegacyPublish.Encode(request).value).(publications := old(publications) + [(request, callback)])
      ensures socket.Some? ==> socket.value.sent == old(socket.value.sent) + if r.Ok? then [LegacyPublish.Encode(request).value] else []
    {
      r := Send(LegacyPublish.Encode(request));
      if r.Err? {
        return;
      }
      publications := publications + [(request, callback)];
    }

    /** `call`: sends the CALL and records it only if it serialised. */
    method Call(request: CoreCall.Call, callback: CallbackId) returns (r: Result<(), Errors.Error>)
      modifies this, Sink()
      ensures r.Ok? <==> CoreCall.Encode(request).Ok?
      ensures r.Err? ==> r.error == Errors.SerdeJsonError(CoreCall.Encode(request).error) && Value() == old(Value())
      ensures r.Ok? ==> Value() == Buffered(old(Value()), CoreCall.Encode(request).value).(calls := old(calls) + [(request, callback)])
      ensures socket.Some? ==> socket.value.sent == old(socket.value.sent) + if r.Ok? then [CoreCall.Encode(request).value] else []
    {
      r := Send(CoreCall.Encode(request));
      if r.Err? {
        return;
      }
      calls := calls + [(request, callback)];
    }

    /** `invocation`: sends the REGISTERED record itself, then records it as
        the handler for invocations. */
    method Invocation(registered: CoreRegistered.Registered, callback: CallbackId) returns (r: Result<(), Errors.Error>)
      modifies this, Sink()
      ensures r.Ok?
      ensures Value() == Buffered(old(Value()), CoreRegistered.Encode(registered)).(invocations := old(invocations) + [(registered, callback)])
      ensures socket.Some? ==> socket.value.sent == old(socket.value.sent) + [CoreRegistered.Encode(registered)]
    {
      r := Send(Ok(CoreRegistered.Encode(registered)));
      invocations := invocations + [(registered, callback)];
    }

    /** `cancel`: sends the CANCEL and records it only if it serialised. */
    method Cancel(request: CoreCancel.Cancel, callback: CallbackId) returns (r: Result<(), Errors.Error>)
      modifies this, Sink()
      ensures r.Ok? <==> CoreCancel.Encode(request).Ok?
      ensures r.Err? ==> r.error == Errors.SerdeJsonError(CoreCancel.Encode(request).error) && Value() == old(Value())
      ensures r.Ok? ==> Value() == Buffered(old(Value()), CoreCancel.Encode(request).value).(cancelations := old(cancelations) + [(request, callback)])
      ensures socket.Some? ==> socket.value.sent == old(socket.value.sent) + if r.Ok? then [CoreCancel.Encode(request).value] else []
    {
      r := Send(CoreCancel.Encode(request));
      if r.Err? {
        return;
      }
      cancelations := cancelations + [(request, callback)];
    }

    /** `extend`: merges another context's request lists after this one's. */
    method Extend(other: ContextValue)
      modifies this
      ensures Value() == Extended(old(Value()), other)
    {
      registrations := registrations + other.registrations;
      unregistrations := unregistrations + other.unregistrations;
      events := events + other.events;
      unsubscriptions := unsubscriptions + other.unsubscriptions;
      subscriptions := subscriptions + other.subscriptions;
      publications := publications + other.publications;
      calls := calls + other.calls;
      invocations := invocations + other.invocations;
    }
  }
}
