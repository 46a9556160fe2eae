/**
 The in-process publish/subscribe bus. The registry maps a topic to the
 ordered list of its subscribers; a topic that was never subscribed behaves
 as an empty list. Delivery is modelled sequentially: publishing invokes every
 subscriber of the list read at call time once, in list order, and records
 each invocation's outcome. What a subscriber does is an oracle `invoke`.
 */
module EventBus {

  datatype Bus<S> = Bus(subs: map<string, seq<S>>)

  /** What one subscriber invocation ended with: a value, or a raised exception. */
  datatype Outcome<+R> = Returned(value: R) | Raised

  /** One entry of a publish: which subscriber was invoked and how it ended. */
  datatype Delivery<S, R> = Delivery(subscriber: S, outcome: Outcome<R>)

  /** The bus as constructed: every topic has no subscriber. */
  function NewBus<S>(): (b: Bus<S>)
    ensures forall t :: Subscribers(b, t) == []
  {
    Bus(map[])
  }

  /** The topic's subscriber list, empty for a topic never subscribed. */
  function Subscribers<S>(b: Bus<S>, topic: string): seq<S> {
    if topic in b.subs then b.subs[topic] else []
  }

  /** Appends `s` to the topic's list, without any uniqueness check. */
  function Subscribe<S>(b: Bus<S>, topic: string, s: S): (r: Bus<S>)
    ensures Subscribers(r, topic) == Subscribers(b, topic) + [s]
    ensures forall t :: t != topic ==> Subscribers(r, t) == Subscribers(b, t)
  {
    Bus(b.subs[topic := Subscribers(b, topic) + [s]])
  }

  /** Drops every registration. */
  function Clear<S>(b: Bus<S>): (r: Bus<S>)
    ensures forall t :: Subscribers(r, t) == []
  {
    Bus(map[])
  }

  /**
   Invokes every subscriber of `subs` on `payload`, in order, each exactly
   once; an invocation that fails is recorded and the others still run.
   */
  function FanOut<S, P, R>(subs: seq<S>, payload: P, invoke: (S, P) -> Outcome<R>): (ds: seq<Delivery<S, R>>)
    ensures |ds| == |subs|
    ensures forall i | 0 <= i < |ds| :: ds[i].subscriber == subs[i]
    ensures forall i | 0 <= i < |ds| :: ds[i].outcome == invoke(subs[i], payload)
  {
    if subs == [] then []
    else [Delivery(subs[0], invoke(subs[0], payload))] + FanOut(subs[1..], payload, invoke)
  }

  /**
   Publishes `payload` on `topic`: the subscriber list is read once (the
   registry is not changed, and a topic with no entry yields no delivery) and
   every subscriber on it is invoked. Publish never fails itself: failures
   appear only as `Raised` outcomes in the result.
   */
  function Publish<S, P, R>(b: Bus<S>, topic: string, payload: P, invoke: (S, P) -> Outcome<R>): (ds: seq<Delivery<S, R>>)
    ensures |ds| == |Subscribers(b, topic)|
    ensures forall i | 0 <= i < |ds| :: ds[i].subscriber == Subscribers(b, topic)[i]
    ensures forall i | 0 <= i < |ds| :: ds[i].outcome == invoke(ds[i].subscriber, payload)
  {
    FanOut(Subscribers(b, topic), payload, invoke)
  }

  /** The subscribers invoked by a publish, in invocation order. */
  function Invoked<S, R>(ds: seq<Delivery<S, R>>): (ss: seq<S>)
    ensures |ss| == |ds|
    ensures forall i | 0 <= i < |ds| :: ss[i] == ds[i].subscriber
  {
    if ds == [] then [] else [ds[0].subscriber] + Invoked(ds[1..])
  }

  /** Number of occurrences of `x` in `xs`. */
  function Count<S(==)>(xs: seq<S>, x: S): nat {
    if xs == [] then 0 else (if xs[0] == x then 1 else 0) + Count(xs[1..], x)
  }

  lemma {:induction false} CountAppend<S>(xs: seq<S>, ys: seq<S>, x: S)
    ensures Count(xs + ys, x) == Count(xs, x) + Count(ys, x)
  {
    if xs == [] {
      assert xs + ys == ys;
    } else {
      assert (xs + ys)[1..] == xs[1..] + ys;
      CountAppend(xs[1..], ys, x);
    }
  }

  /** Publishing invokes exactly the snapshotted list, in order: nothing skipped, nothing added. */
  lemma PublishInvokesSnapshot<S, P, R>(b: Bus<S>, topic: string, payload: P, invoke: (S, P) -> Outcome<R>)
    ensures Invoked(Publish(b, topic, payload, invoke)) == Subscribers(b, topic)
  {
  }

  /** A topic never subscribed (or cleared) yields no invocation at all. */
  lemma PublishUnsubscribedTopic<S, P, R>(b: Bus<S>, topic: string, payload: P, invoke: (S, P) -> Outcome<R>)
    requires topic !in b.subs
    ensures Publish(b, topic, payload, invoke) == []
  {
  }

  /**
   Subscribing the same subscriber twice makes every later publish on that
   topic invoke it twice more than before.
   */
  lemma SubscribeTwiceInvokesTwice<S, P, R>(b: Bus<S>, topic: string, s: S, payload: P, invoke: (S, P) -> Outcome<R>)
    ensures var b2 := Subscribe(Subscribe(b, topic, s), topic, s);
      Count(Invoked(Publish(b2, topic, payload, invoke)), s)
        == Count(Invoked(Publish(b, topic, payload, invoke)), s) + 2
  {
    var b2 := Subscribe(Subscribe(b, topic, s), topic, s);
    PublishInvokesSnapshot(b, topic, payload, invoke);
    PublishInvokesSnapshot(b2, topic, payload, invoke);
    var b1 := Subscribe(b, topic, s);
    assert Subscribers(b2, topic) == Subscribers(b1, topic) + [s] == Subscribers(b, topic) + [s] + [s];
    assert Subscribers(b, topic) + [s] + [s] == Subscribers(b, topic) + [s, s];
    CountAppend(Subscribers(b, topic), [s, s], s);
    assert [s, s][1..] == [s] && [s][1..] == [];
    assert Count([s], s) == 1 + Count([], s) == 1;
    assert Count([s, s], s) == 1 + Count([s], s);
  }

  /**
   Failure isolation: changing how one subscriber `f` behaves (for instance
   from succeeding to raising) changes nothing in the deliveries to any other
   subscriber, and never the number of deliveries.
   */
  lemma FailureIsolation<S, P, R>(b: Bus<S>, topic: string, payload: P, invoke: (S, P) -> Outcome<R>, invoke': (S, P) -> Outcome<R>, f: S)
    requires forall s :: s != f ==> invoke(s, payload) == invoke'(s, payload)
    ensures var ds := Publish(b, topic, payload, invoke);
      var ds' := Publish(b, topic, payload, invoke');
      && |ds| == |ds'|
      && forall i | 0 <= i < |ds| && ds[i].subscriber != f :: ds'[i] == ds[i]
  {
  }
}
