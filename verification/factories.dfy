/** The process-wide request counter and topic list of the newer tree's
    factories, held here as the fields of one object instead of globals. */
module Factories {
  import opened Wire

  /** `topics` with every occurrence of `topic` removed and the others kept
      in order, as `Vec::retain` leaves it. */
  function Without(topics: seq<string>, topic: string): (r: seq<string>)
    ensures forall t :: t in r <==> t in topics && t != topic
    ensures multiset(r) == multiset(topics)[topic := 0]
  {
    if |topics| == 0 then []
    else
      assert topics == [topics[0]] + topics[1..];
      (if topics[0] == topic then [] else [topics[0]]) + Without(topics[1..], topic)
  }

  /** Removal works piecewise, so the topics that stay keep their order. */
  lemma {:induction false} WithoutAppend(a: seq<string>, b: seq<string>, topic: string)
    ensures Without(a + b, topic) == Without(a, topic) + Without(b, topic)
  {
    if |a| == 0 {
      assert a + b == b;
    } else {
      assert (a + b)[1..] == a[1..] + b;
      WithoutAppend(a[1..], b, topic);
    }
  }

  class Registry {
    /** The last request id handed out. */
    var number: U64
    /** The topics subscribed to, in subscription order. */
    var topics: seq<string>

    /** Both start empty: the counter at 0, no topics. */
    constructor ()
      ensures number == 0 && topics == []
    {
      number := 0;
      topics := [];
    }

    /** `increment`: stores and returns the previous value plus one. The
        addition is unchecked arithmetic on a 64-bit counter, so the
        counter must not be at its maximum. */
    method Increment() returns (n: U64)
      requires number < U64_LIMIT - 1
      modifies this
      ensures n == old(number) + 1 && number == n
      ensures topics == old(topics)
    {
      var previous := number;
      number := previous + 1;
      n := number;
    }

    /** `subscribe`: appends the topic at the end. */
    method Subscribe(topic: string)
      modifies this
      ensures topics == old(topics) + [topic] && number == old(number)
      ensures topic in topics
    {
      topics := topics + [topic];
    }

    /** `unsubscribe`: removes every occurrence of the topic and keeps the
        rest in order. */
    method Unsubscribe(topic: string)
      modifies this
      ensures topics == Without(old(topics), topic) && number == old(number)
      ensures topic !in topics
    {
      topics := Without(topics, topic);
    }

    /** `subscription_contains`: whether the topic is in the list. */
    method SubscriptionContains(topic: string) returns (b: bool)
      ensures b <==> topic in topics
    {
      b := topic in topics;
    }
  }

  /** A new registry hands out 1 and then 2; a subscribed topic is reported
      present until it is unsubscribed. */
  method Lifecycle(topic: string) returns (first: U64, second: U64, before: bool, after: bool)
    ensures first == 1 && second == 2
    ensures before && !after
  {
    var registry := new Registry();
    first := registry.Increment();
    second := registry.Increment();
    registry.Subscribe(topic);
    before := registry.SubscriptionContains(topic);
    registry.Unsubscribe(topic);
    after := registry.SubscriptionContains(topic);
  }
}
