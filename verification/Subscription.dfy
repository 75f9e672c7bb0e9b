/**
 * The goroutines of one subscriber as the methods that they run: the delivery of a message, its handling with retries,
 * and an acknowledgement. Each method takes exactly the steps of the state machine of `PubSub`, so what is proved there
 * of every interleaving of these steps holds of these bodies.
 */
module Subscription {
  import opened PubSub

  function Rank(place: Place): nat {
    match place
    case Delivering(Checking) => 4
    case Delivering(AddingPending) => 3
    case Delivering(Sending) => 2
    case Delivering(RemovingPending) => 1
    case _ => 0
  }

  /** The steps of a delivery, to the end. */
  function DeliverAll(c: Config, u: Subscriber, id: nat): Subscriber
    requires c.guarantee || (!u.At(id, Delivering(AddingPending)) && !u.At(id, Delivering(RemovingPending)))
    decreases if id in u.items then Rank(u.items[id].place) else 0
  {
    if u.IsDelivering(id) then DeliverAll(c, DeliverStep(c, u, id), id) else u
  }

  /** The handler calls of one message, with what they return, to the end. */
  function AttemptAll(c: Config, u: Subscriber, outcomes: seq<bool>): Subscriber
    decreases |outcomes|
  {
    if u.handler.Handling? && outcomes != [] then
      AttemptAll(c, SubscriberApply(c, u, Attempt(outcomes[0])), outcomes[1..])
    else u
  }

  /** Everything the goroutine of processMessages does with one message. */
  function HandleAll(c: Config, u: Subscriber, outcomes: seq<bool>): Subscriber {
    var begun := SubscriberApply(c, SubscriberApply(c, u, Receive), Deduplicate);
    SubscriberApply(c, AttemptAll(c, begun, outcomes), SendAck)
  }

  class SubscriberGoroutines {
    const config: Config
    var messageChan: seq<Message>
    var processedMsgs: set<nat>
    var pendingMessages: map<nat, Message>
    var ackChan: seq<nat>
    ghost var value: Subscriber

    ghost predicate Valid()
      reads this
    {
      && messageChan == value.queue && processedMsgs == value.processed
      && pendingMessages == value.pending && ackChan == value.acks
    }

    constructor (config: Config, topic: int)
      ensures Valid() && this.config == config && value == NewSubscriber(topic)
    {
      this.config := config;
      messageChan, processedMsgs, pendingMessages, ackChan := [], {}, map[], [];
      value := NewSubscriber(topic);
    }

    method DeliverToSubscriber(m: Message)
      requires Valid() && m.sequence !in value.items
      modifies this
      ensures Valid() && value == DeliverAll(config, Begin(old(value), m), m.sequence)
    {
      var id := m.sequence;
      value := Begin(value, m);
      if config.deduplication {
        if id in processedMsgs {
          value := DeliverStep(config, value, id);
          return;
        }
      }
      ghost var goal := DeliverAll(config, value, id);
      value := DeliverStep(config, value, id);
      assert DeliverAll(config, value, id) == goal;
      if config.guarantee {
        pendingMessages := pendingMessages[id := m];
        value := DeliverStep(config, value, id);
        assert DeliverAll(config, value, id) == goal;
      }
      SendOrGiveUp(m);
    }

    /** The non-blocking send at the end of deliverToSubscriber. */
    method SendOrGiveUp(m: Message)
      requires Valid() && m.sequence in value.items && value.items[m.sequence] == Item(m, Delivering(Sending))
      modifies this
      ensures Valid() && value == DeliverAll(config, old(value), m.sequence)
    {
      var id := m.sequence;
      ghost var goal := DeliverAll(config, value, id);
      if |messageChan| < config.bufferSize {
        messageChan := messageChan + [m];
        value := DeliverStep(config, value, id);
      } else {
        value := DeliverStep(config, value, id);
        assert DeliverAll(config, value, id) == goal;
        if config.guarantee {
          pendingMessages := pendingMessages - {id};
          value := DeliverStep(config, value, id);
        }
        assert DeliverAll(config, value, id) == goal && !value.IsDelivering(id);
      }
    }

    /** The next message is received and handled; `outcomes` says which of the calls of the handler would succeed. */
    method HandleMessage(outcomes: seq<bool>)
      requires Valid() && messageChan != [] && value.handler.Idle? && |outcomes| >= Attempts(config)
      modifies this
      ensures Valid() && value == HandleAll(config, old(value), outcomes)
      ensures SubscriberOk(config, old(value)) ==> SubscriberOk(config, value)
    {
      hide SubscriberOk;
      HandleKeeps(config, value, outcomes);
      var message := messageChan[0];
      messageChan := messageChan[1..];
      value := SubscriberApply(config, value, Receive);
      value := SubscriberApply(config, value, Deduplicate);
      if message.sequence in processedMsgs {
        return;
      }
      processedMsgs := processedMsgs + {message.sequence};
      var ok := RunHandler(message, outcomes);
      if !ok {
        return;
      }
      if |ackChan| < config.bufferSize {
        ackChan := ackChan + [message.sequence];
      }
      value := SubscriberApply(config, value, SendAck);
    }

    /** The retry loop. */
    method RunHandler(message: Message, outcomes: seq<bool>) returns (ok: bool)
      requires Valid() && |outcomes| >= Attempts(config)
      requires value.handler == if Attempts(config) == 0 then Succeeded(message) else Handling(message, 0)
      modifies this`value
      ensures Valid() && value == AttemptAll(config, old(value), outcomes)
      ensures value.handler == if ok then Succeeded(message) else Idle
    {
      ghost var goal := AttemptAll(config, value, outcomes);
      ok := Attempts(config) == 0;
      var attempt := 0;
      assert outcomes[attempt..] == outcomes;
      while attempt < Attempts(config) && !ok
        invariant 0 <= attempt <= Attempts(config) && Valid()
        invariant goal == AttemptAll(config, value, outcomes[attempt..])
        invariant value.handler ==
          if ok then Succeeded(message) else if attempt < Attempts(config) then Handling(message, attempt) else Idle
        decreases Attempts(config) - attempt
      {
        ok := outcomes[attempt];
        value := SubscriberApply(config, value, Attempt(ok));
        assert outcomes[attempt..][1..] == outcomes[attempt + 1..];
        attempt := attempt + 1;
      }
    }

    method ProcessAcknowledgment()
      requires Valid() && ackChan != [] && value.acker.None?
      modifies this
      ensures Valid()
      ensures value == SubscriberApply(config, SubscriberApply(config, old(value), TakeAck), DeletePending)
    {
      var messageId := ackChan[0];
      ackChan := ackChan[1..];
      value := SubscriberApply(config, value, TakeAck);
      pendingMessages := pendingMessages - {messageId};
      value := SubscriberApply(config, value, DeletePending);
    }
  }

  // ---------- What the bodies keep ----------

  lemma {:induction false} AttemptAllOk(c: Config, u: Subscriber, outcomes: seq<bool>)
    requires SubscriberOk(c, u)
    ensures SubscriberOk(c, AttemptAll(c, u, outcomes))
    decreases |outcomes|
  {
    hide SubscriberOk, SubscriberApply;
    if u.handler.Handling? && outcomes != [] {
      SubscriberStepOk(c, u, Attempt(outcomes[0]));
      AttemptAllOk(c, SubscriberApply(c, u, Attempt(outcomes[0])), outcomes[1..]);
    }
  }

  lemma HandleKeeps(c: Config, u: Subscriber, outcomes: seq<bool>)
    ensures SubscriberOk(c, u) ==> SubscriberOk(c, HandleAll(c, u, outcomes))
  {
    hide *;
    if SubscriberOk(c, u) { HandleAllOk(c, u, outcomes); }
  }

  /** Handling a message keeps everything in agreement. */
  lemma HandleAllOk(c: Config, u: Subscriber, outcomes: seq<bool>)
    requires SubscriberOk(c, u)
    ensures SubscriberOk(c, HandleAll(c, u, outcomes))
  {
    hide SubscriberOk, SubscriberApply;
    var received := SubscriberApply(c, u, Receive);
    SubscriberStepOk(c, u, Receive);
    SubscriberStepOk(c, received, Deduplicate);
    var begun := SubscriberApply(c, received, Deduplicate);
    AttemptAllOk(c, begun, outcomes);
    SubscriberStepOk(c, AttemptAll(c, begun, outcomes), SendAck);
  }

  /** The first success among the handler's calls. */
  function FirstSuccess(outcomes: seq<bool>): nat {
    if outcomes == [] || outcomes[0] then 0 else 1 + FirstSuccess(outcomes[1..])
  }

  /** The handler succeeds if and only if one of the remaining calls of its handler does. */
  lemma {:induction false} SucceedsIff(c: Config, u: Subscriber, outcomes: seq<bool>)
    requires u.handler.Handling? && u.handler.attempt < Attempts(c)
    requires |outcomes| >= Attempts(c) - u.handler.attempt
    ensures var u' := AttemptAll(c, u, outcomes);
      && (u'.handler.Succeeded? <==> FirstSuccess(outcomes) < Attempts(c) - u.handler.attempt)
      && (!u'.handler.Succeeded? ==> u'.handler.Idle?)
    decreases |outcomes|
  {
    var next := SubscriberApply(c, u, Attempt(outcomes[0]));
    if next.handler.Handling? { SucceedsIff(c, next, outcomes[1..]); }
  }
}
