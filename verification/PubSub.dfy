/**
 * The publish/subscribe system as a state machine over its goroutines: any number of publishers, topics and
 * subscribers. One step is one lock region, one channel operation or one handler call. A message is known by its
 * sequence number, from which its id is formed.
 */
module PubSub {
  import opened GoInt

  datatype Option<T> = None | Some(value: T)

  datatype Config = Config(
    bufferSize: nat,
    maxRetries: int,
    deduplication: bool,
    ordering: bool,
    guarantee: bool)

  /** How often handleMessage calls the handler at most: it loops over `range maxRetries + 1`. */
  function Attempts(c: Config): nat {
    Rounds(c.maxRetries)
  }

  datatype Message = Message(topic: int, sequence: nat, payload: int)

  /** The steps of one deliverToSubscriber call. */
  datatype DeliveryStep = Checking | AddingPending | Sending | RemovingPending

  /** How far a message has come at one subscriber; `Refused` when it never entered the subscriber's queue. */
  datatype Place =
    | Delivering(step: DeliveryStep)
    | Refused
    | Queued
    | InHandler
    | Failed
    | Abandoned
    | AckDropped
    | AckQueued
    | Acking
    | Confirmed

  datatype Item = Item(message: Message, place: Place)

  /** The goroutine of processMessages. */
  datatype Handler =
    | Idle
    | Received(message: Message)
    | Handling(message: Message, attempt: nat)
    | Succeeded(message: Message)

  /**
   * `items`, `started` and `succeeded` record what has happened to each message: where it is, which messages the
   * handler was called for, and for which it returned nil.
   */
  datatype Subscriber = Subscriber(
    topic: int,
    queue: seq<Message>,
    processed: set<nat>,
    pending: map<nat, Message>,
    handler: Handler,
    acks: seq<nat>,
    acker: Option<nat>,
    items: map<nat, Item>,
    started: seq<Message>,
    succeeded: set<nat>)
  {
    predicate At(id: nat, place: Place) {
      id in items && items[id].place == place
    }

    predicate IsDelivering(id: nat) {
      id in items && items[id].place.Delivering?
    }

    /** The message has been put into the subscriber's queue. */
    predicate Accepted(id: nat) {
      id in items && !items[id].place.Delivering? && items[id].place != Refused
    }

    function Move(id: nat, place: Place): Subscriber {
      if id in items then this.(items := items[id := items[id].(place := place)]) else this
    }
  }

  datatype SubscriberStep =
    | Deliver(id: nat)
    | Receive
    | Deduplicate
    | Attempt(ok: bool)
    | Abandon
    | SendAck
    | TakeAck
    | DeletePending

  /** The next action of the deliverer of message `id`. */
  function DeliverStep(c: Config, u: Subscriber, id: nat): Subscriber
    requires u.IsDelivering(id)
  {
    var m := u.items[id].message;
    match u.items[id].place.step
    case Checking =>
      if c.deduplication && id in u.processed then u.Move(id, Refused)
      else u.Move(id, Delivering(if c.guarantee then AddingPending else Sending))
    case AddingPending => u.Move(id, Delivering(Sending)).(pending := u.pending[id := m])
    case Sending =>
      if |u.queue| < c.bufferSize then u.Move(id, Queued).(queue := u.queue + [m])
      else u.Move(id, if c.guarantee then Delivering(RemovingPending) else Refused)
    case RemovingPending => u.Move(id, Refused).(pending := u.pending - {id})
  }

  /** One step of a subscriber's own goroutines or of a deliverer to it; a step that cannot happen changes nothing. */
  function SubscriberApply(c: Config, u: Subscriber, a: SubscriberStep): Subscriber {
    match a
    case Deliver(id) =>
      if u.IsDelivering(id) then DeliverStep(c, u, id) else u
    case Receive =>
      if u.handler.Idle? && u.queue != [] then
        u.Move(u.queue[0].sequence, InHandler).(queue := u.queue[1..], handler := Received(u.queue[0]))
      else u
    case Deduplicate =>
      if u.handler.Received? then
        var m := u.handler.message;
        if m.sequence in u.processed then u.(handler := Idle)
        else if Attempts(c) == 0 then u.(processed := u.processed + {m.sequence}, handler := Succeeded(m))
        else u.(processed := u.processed + {m.sequence}, handler := Handling(m, 0), started := u.started + [m])
      else u
    case Attempt(ok) =>
      if u.handler.Handling? then
        var m := u.handler.message;
        if ok then u.(handler := Succeeded(m), succeeded := u.succeeded + {m.sequence})
        else if u.handler.attempt + 1 < Attempts(c) then u.(handler := Handling(m, u.handler.attempt + 1))
        else u.Move(m.sequence, Failed).(handler := Idle)
      else u
    case Abandon =>
      if u.handler.Handling? && u.handler.attempt > 0 then
        u.Move(u.handler.message.sequence, Abandoned).(handler := Idle)
      else u
    case SendAck =>
      if u.handler.Succeeded? then
        var id := u.handler.message.sequence;
        if |u.acks| < c.bufferSize then u.Move(id, AckQueued).(handler := Idle, acks := u.acks + [id])
        else u.Move(id, AckDropped).(handler := Idle)
      else u
    case TakeAck =>
      if u.acker.None? && u.acks != [] then u.Move(u.acks[0], Acking).(acks := u.acks[1..], acker := Some(u.acks[0])) else u
    case DeletePending =>
      if u.acker.Some? then u.Move(u.acker.value, Confirmed).(pending := u.pending - {u.acker.value}, acker := None) else u
  }

  // ---------- One subscriber ----------

  function Ids(queue: seq<Message>): set<nat> {
    set i | 0 <= i < |queue| :: queue[i].sequence
  }

  function Elements(s: seq<nat>): set<nat> {
    set i | 0 <= i < |s| :: s[i]
  }

  ghost predicate Distinct(queue: seq<Message>) {
    forall i, j :: 0 <= i < j < |queue| ==> queue[i].sequence != queue[j].sequence
  }

  ghost predicate DistinctIds(s: seq<nat>) {
    forall i, j :: 0 <= i < j < |s| ==> s[i] != s[j]
  }

  ghost predicate IsItem(u: Subscriber, m: Message) {
    m.sequence in u.items && u.items[m.sequence].message == m
  }

  /** A message in this place has an entry in pendingMessages. */
  predicate IsPendingPlace(place: Place) {
    place in {Delivering(Sending), Delivering(RemovingPending), Queued, InHandler, Failed, Abandoned, AckDropped, AckQueued, Acking}
  }

  /** A message in this place has had its handler called to the end. */
  predicate IsHandledPlace(place: Place) {
    place in {Failed, Abandoned, AckDropped, AckQueued, Acking, Confirmed}
  }

  /** Where message `id` is, and that every structure of the subscriber agrees with it. */
  ghost predicate ItemOk(c: Config, u: Subscriber, id: nat) {
    var at := if id in u.items then Some(u.items[id].place) else None;
    && (at.Some? ==> u.items[id].message.sequence == id && u.items[id].message.topic == u.topic)
    && (at == Some(Queued) <==> id in Ids(u.queue))
    && (at == Some(InHandler) <==> !u.handler.Idle? && u.handler.message.sequence == id)
    && (at == Some(AckQueued) <==> id in Elements(u.acks))
    && (at == Some(Acking) <==> u.acker == Some(id))
    && (id in u.processed <==> at.Some? && (IsHandledPlace(at.value) || (at.value == InHandler && !u.handler.Received?)))
    && (c.guarantee ==> (id in u.pending <==> at.Some? && IsPendingPlace(at.value)))
    && (c.guarantee && id in u.pending ==> u.pending[id] == u.items[id].message)
    && (!c.guarantee ==> at != Some(Delivering(AddingPending)) && at != Some(Delivering(RemovingPending)))
    && (Attempts(c) > 0 ==> (id in u.succeeded <==>
         at.Some? && (at.value in {AckDropped, AckQueued, Acking, Confirmed} || (at.value == InHandler && u.handler.Succeeded?))))
  }

  ghost predicate SequencesOk(u: Subscriber) {
    && Distinct(u.queue) && Distinct(u.started) && DistinctIds(u.acks)
    && (forall i :: 0 <= i < |u.queue| ==> IsItem(u, u.queue[i]))
    && (!u.handler.Idle? ==> IsItem(u, u.handler.message))
    && (forall i :: 0 <= i < |u.started| ==> IsItem(u, u.started[i]) && u.started[i].sequence in u.processed)
  }

  ghost predicate SubscriberOk(c: Config, u: Subscriber) {
    SequencesOk(u) && forall id: nat :: ItemOk(c, u, id)
  }

  lemma IdsSnoc(queue: seq<Message>, m: Message)
    requires Distinct(queue) && m.sequence !in Ids(queue)
    ensures Distinct(queue + [m]) && Ids(queue + [m]) == Ids(queue) + {m.sequence}
  {
    var queue' := queue + [m];
    assert queue'[|queue|] == m;
    forall i | 0 <= i < |queue| ensures queue[i].sequence != m.sequence && queue[i].sequence in Ids(queue') {
      assert queue[i].sequence in Ids(queue);
      assert queue'[i] == queue[i];
    }
  }

  lemma ElementsSnoc(s: seq<nat>, id: nat)
    requires DistinctIds(s) && id !in Elements(s)
    ensures DistinctIds(s + [id]) && Elements(s + [id]) == Elements(s) + {id}
  {
    var s' := s + [id];
    assert s'[|s|] == id;
    forall i | 0 <= i < |s| ensures s[i] != id && s[i] in Elements(s') {
      assert s[i] in Elements(s);
      assert s'[i] == s[i];
    }
  }

  /** A step that moves only message `id` and touches the structures only at `id`. */
  ghost predicate MovesOnly(c: Config, u: Subscriber, u': Subscriber, id: nat) {
    && u'.topic == u.topic
    && u'.items.Keys == u.items.Keys
    && (u'.handler == u.handler || ((u.handler.Idle? || u.handler.message.sequence == id)
         && (u'.handler.Idle? || u'.handler.message.sequence == id)))
    && forall k: nat :: k != id ==>
      && (k in u.items ==> u'.items[k] == u.items[k])
      && (k in Ids(u'.queue) <==> k in Ids(u.queue))
      && (k in Elements(u'.acks) <==> k in Elements(u.acks))
      && (u'.acker == Some(k) <==> u.acker == Some(k))
      && (k in u'.processed <==> k in u.processed) && (k in u'.succeeded <==> k in u.succeeded)
      && (k in u'.pending <==> k in u.pending) && (k in u.pending ==> u'.pending[k] == u.pending[k])
  }

  lemma MovesOnlyOk(c: Config, u: Subscriber, u': Subscriber, id: nat)
    requires (forall k: nat :: ItemOk(c, u, k)) && MovesOnly(c, u, u', id) && ItemOk(c, u', id)
    ensures forall k: nat :: ItemOk(c, u', k)
  {
    forall k: nat ensures ItemOk(c, u', k) {
      assert ItemOk(c, u, k);
    }
  }

  lemma EnqueueOk(c: Config, u: Subscriber, id: nat)
    requires SubscriberOk(c, u) && u.At(id, Delivering(Sending)) && |u.queue| < c.bufferSize
    ensures SubscriberOk(c, DeliverStep(c, u, id))
  {
    assert ItemOk(c, u, id);
    IdsSnoc(u.queue, u.items[id].message);
    hide Ids, Elements, Distinct, DistinctIds;
    MovesOnlyOk(c, u, DeliverStep(c, u, id), id);
  }

  lemma ChangePendingOk(c: Config, u: Subscriber, id: nat)
    requires SubscriberOk(c, u) && (u.At(id, Delivering(AddingPending)) || u.At(id, Delivering(RemovingPending)))
    ensures SubscriberOk(c, DeliverStep(c, u, id))
  {
    assert ItemOk(c, u, id);
    hide Ids, Elements, Distinct, DistinctIds;
    MovesOnlyOk(c, u, DeliverStep(c, u, id), id);
  }

  lemma MoveOnOk(c: Config, u: Subscriber, id: nat)
    requires SubscriberOk(c, u)
    requires u.At(id, Delivering(Checking)) || (u.At(id, Delivering(Sending)) && |u.queue| >= c.bufferSize)
    ensures SubscriberOk(c, DeliverStep(c, u, id))
  {
    assert ItemOk(c, u, id);
    hide Ids, Elements, Distinct, DistinctIds;
    MovesOnlyOk(c, u, DeliverStep(c, u, id), id);
  }

  lemma DeliverOk(c: Config, u: Subscriber, id: nat)
    requires SubscriberOk(c, u) && u.IsDelivering(id)
    ensures SubscriberOk(c, DeliverStep(c, u, id))
  {
    match u.items[id].place.step {
      case Checking => MoveOnOk(c, u, id);
      case AddingPending => ChangePendingOk(c, u, id);
      case Sending => if |u.queue| < c.bufferSize { EnqueueOk(c, u, id); } else { MoveOnOk(c, u, id); }
      case RemovingPending => ChangePendingOk(c, u, id);
    }
  }

  function Begin(u: Subscriber, m: Message): Subscriber {
    u.(items := u.items[m.sequence := Item(m, Delivering(Checking))])
  }

  lemma BeginOk(c: Config, u: Subscriber, m: Message)
    requires SubscriberOk(c, u) && m.sequence !in u.items && m.topic == u.topic
    ensures SubscriberOk(c, Begin(u, m))
  {
    hide Ids, Elements, Distinct, DistinctIds;
    forall id: nat ensures ItemOk(c, Begin(u, m), id) {
      assert ItemOk(c, u, id);
    }
  }

  lemma ReceiveOk(c: Config, u: Subscriber)
    requires SubscriberOk(c, u) && u.handler.Idle? && u.queue != []
    ensures SubscriberOk(c, SubscriberApply(c, u, Receive))
  {
    var id := u.queue[0].sequence;
    assert IsItem(u, u.queue[0]) && ItemOk(c, u, id);
    hide Ids, Elements, Distinct, DistinctIds;
    MovesOnlyOk(c, u, SubscriberApply(c, u, Receive), id);
  }

  /** A message reaches the handler once, so the second check for duplicates never finds one. */
  lemma DeduplicateOk(c: Config, u: Subscriber)
    requires SubscriberOk(c, u) && u.handler.Received?
    ensures u.handler.message.sequence !in u.processed
    ensures SubscriberOk(c, SubscriberApply(c, u, Deduplicate))
  {
    var id := u.handler.message.sequence;
    assert ItemOk(c, u, id);
    forall i | 0 <= i < |u.started| ensures u.started[i].sequence != id {
      assert u.started[i].sequence in u.processed;
    }
    hide Ids, Elements, DistinctIds;
    MovesOnlyOk(c, u, SubscriberApply(c, u, Deduplicate), id);
  }

  lemma AttemptOk(c: Config, u: Subscriber, ok: bool)
    requires SubscriberOk(c, u) && u.handler.Handling?
    ensures SubscriberOk(c, SubscriberApply(c, u, Attempt(ok)))
  {
    var id := u.handler.message.sequence;
    assert ItemOk(c, u, id);
    hide Ids, Elements, Distinct, DistinctIds;
    MovesOnlyOk(c, u, SubscriberApply(c, u, Attempt(ok)), id);
  }

  lemma AbandonOk(c: Config, u: Subscriber)
    requires SubscriberOk(c, u) && u.handler.Handling?
    ensures SubscriberOk(c, SubscriberApply(c, u, Abandon))
  {
    var id := u.handler.message.sequence;
    assert ItemOk(c, u, id);
    hide Ids, Elements, Distinct, DistinctIds;
    MovesOnlyOk(c, u, SubscriberApply(c, u, Abandon), id);
  }

  lemma SendAckOk(c: Config, u: Subscriber)
    requires SubscriberOk(c, u) && u.handler.Succeeded?
    ensures SubscriberOk(c, SubscriberApply(c, u, SendAck))
  {
    var id := u.handler.message.sequence;
    assert ItemOk(c, u, id);
    ElementsSnoc(u.acks, id);
    hide Ids, Elements, Distinct, DistinctIds;
    MovesOnlyOk(c, u, SubscriberApply(c, u, SendAck), id);
  }

  lemma TakeAckOk(c: Config, u: Subscriber)
    requires SubscriberOk(c, u) && u.acker.None? && u.acks != []
    ensures SubscriberOk(c, SubscriberApply(c, u, TakeAck))
  {
    var id := u.acks[0];
    assert ItemOk(c, u, id);
    hide Ids, Elements, Distinct, DistinctIds;
    MovesOnlyOk(c, u, SubscriberApply(c, u, TakeAck), id);
  }

  lemma DeletePendingOk(c: Config, u: Subscriber)
    requires SubscriberOk(c, u) && u.acker.Some?
    ensures SubscriberOk(c, SubscriberApply(c, u, DeletePending))
  {
    var id := u.acker.value;
    assert ItemOk(c, u, id);
    hide Ids, Elements, Distinct, DistinctIds;
    MovesOnlyOk(c, u, SubscriberApply(c, u, DeletePending), id);
  }

  lemma SubscriberStepOk(c: Config, u: Subscriber, a: SubscriberStep)
    requires SubscriberOk(c, u)
    ensures SubscriberOk(c, SubscriberApply(c, u, a))
  {
    match a {
      case Deliver(id) => if u.IsDelivering(id) { DeliverOk(c, u, id); }
      case Receive => if u.handler.Idle? && u.queue != [] { ReceiveOk(c, u); }
      case Deduplicate => if u.handler.Received? { DeduplicateOk(c, u); }
      case Attempt(ok) => if u.handler.Handling? { AttemptOk(c, u, ok); }
      case Abandon => if u.handler.Handling? { AbandonOk(c, u); }
      case SendAck => if u.handler.Succeeded? { SendAckOk(c, u); }
      case TakeAck => if u.acker.None? && u.acks != [] { TakeAckOk(c, u); }
      case DeletePending => if u.acker.Some? { DeletePendingOk(c, u); }
    }
  }

  // ---------- In ordering mode: the handler sees increasing sequence numbers ----------

  ghost predicate Increasing(s: seq<Message>) {
    forall i, j :: 0 <= i < j < |s| ==> s[i].sequence < s[j].sequence
  }

  /** What the handler has begun, holds, or will find in its queue, in that order. */
  function Flow(u: Subscriber): seq<Message> {
    u.started + (if u.handler.Received? then [u.handler.message] else []) + u.queue
  }

  /** With ordering, a message on its way to the queue comes after everything already in the flow. */
  ghost predicate FlowOk(u: Subscriber) {
    && Increasing(Flow(u))
    && (forall m :: m in Flow(u) ==> IsItem(u, m))
    && (forall id: nat, m :: u.IsDelivering(id) && m in Flow(u) ==> m.sequence < id)
  }

  lemma FlowSame(u: Subscriber, u': Subscriber)
    requires FlowOk(u) && Flow(u') == Flow(u)
    requires forall id :: id in u.items ==> id in u'.items && u'.items[id].message == u.items[id].message
    requires forall id: nat :: u'.IsDelivering(id) ==> u.IsDelivering(id)
    ensures FlowOk(u')
  {
    hide Flow;
  }

  lemma FlowMore(u: Subscriber, u': Subscriber, m: Message)
    requires FlowOk(u) && Flow(u') == Flow(u) + [m] && u.IsDelivering(m.sequence) && IsItem(u, m)
    requires forall id :: id in u.items ==> id in u'.items && u'.items[id].message == u.items[id].message
    requires forall id: nat :: u'.IsDelivering(id) ==> u.IsDelivering(id) && id > m.sequence
    ensures FlowOk(u')
  {
    hide Flow;
    var flow := Flow(u');
    forall i, j | 0 <= i < j < |flow| ensures flow[i].sequence < flow[j].sequence {
      assert flow[i] == Flow(u)[i] && flow[i] in Flow(u);
    }
    forall k: nat, x | u'.IsDelivering(k) && x in flow ensures x.sequence < k {
      assert x in Flow(u) || x == m;
    }
  }

  ghost predicate OneDelivery(u: Subscriber) {
    forall i: nat, j: nat :: u.IsDelivering(i) && u.IsDelivering(j) ==> i == j
  }

  lemma FlowDeliver(c: Config, u: Subscriber, id: nat)
    requires SubscriberOk(c, u) && FlowOk(u) && OneDelivery(u) && u.IsDelivering(id)
    ensures FlowOk(DeliverStep(c, u, id))
  {
    var u' := DeliverStep(c, u, id);
    var m := u.items[id].message;
    assert ItemOk(c, u, id);
    assert u'.handler == u.handler && u'.started == u.started;
    if u.items[id].place.step == Sending && |u.queue| < c.bufferSize {
      assert Flow(u') == Flow(u) + [m];
      forall k: nat ensures !u'.IsDelivering(k) {
        assert u.IsDelivering(k) ==> k == id;
      }
      FlowMore(u, u', m);
    } else {
      assert u'.queue == u.queue;
      FlowSame(u, u');
    }
  }

  lemma ItemsStay(c: Config, u: Subscriber, a: SubscriberStep)
    ensures var u' := SubscriberApply(c, u, a);
      && u'.topic == u.topic && u'.items.Keys == u.items.Keys
      && (forall id :: id in u.items ==> u'.items[id].message == u.items[id].message)
      && (forall id: nat :: u'.IsDelivering(id) ==> u.IsDelivering(id))
  {
    match a {
      case Deliver(id) => if u.IsDelivering(id) { match u.items[id].place.step { case _ => } }
      case _ =>
    }
  }

  /** With at most one deliverer at a time, every step keeps the flow in order. */
  lemma FlowStepOk(c: Config, u: Subscriber, a: SubscriberStep)
    requires Attempts(c) > 0 && SubscriberOk(c, u) && FlowOk(u) && OneDelivery(u)
    ensures FlowOk(SubscriberApply(c, u, a))
  {
    if a.Deliver? {
      if u.IsDelivering(a.id) { FlowDeliver(c, u, a.id); }
    } else {
      if u.handler.Received? { DeduplicateOk(c, u); }
      ItemsStay(c, u, a);
      hide SubscriberOk, FlowOk, Flow, SubscriberApply;
      FlowSame(u, SubscriberApply(c, u, a));
    }
  }

  // ---------- The whole system ----------

  /** The goroutine of processTopicMessages. */
  datatype Distributor = Waiting | Took(message: Message) | Distributing(message: Message, todo: set<nat>)

  /**
   * `held` is the message of the publisher inside enqueue's lock. `log` records the messages accepted by the topic's
   * channel, of which the first `taken` have been received from it.
   */
  datatype Topic = Topic(channel: seq<Message>, held: Option<Message>, distributor: Distributor, log: seq<Message>, taken: nat)

  datatype State = State(sequence: nat, topics: map<int, Topic>, subscribers: map<nat, Subscriber>)

  datatype Step =
    | CreateTopic(topic: int)
    | Subscribe(topic: int, subscriber: nat)
    | Number(topic: int, payload: int)
    | Enqueue(topic: int)
    | Take(topic: int)
    | Snapshot(topic: int)
    | StartDelivery(topic: int, subscriber: nat)
    | Distributed(topic: int)
    | Inside(subscriber: nat, action: SubscriberStep)

  function NewSubscriber(topic: int): Subscriber {
    Subscriber(topic, [], {}, map[], Idle, [], None, map[], [], {})
  }

  function SetTopic(s: State, t: int, topic: Topic): State {
    s.(topics := s.topics[t := topic])
  }

  /** No deliverToSubscriber call for message `id` is still running. */
  predicate AllDelivered(s: State, id: nat) {
    forall u :: u in s.subscribers ==> !s.subscribers[u].IsDelivering(id)
  }

  /** The state after `step`; a step that cannot happen in `s` changes nothing. */
  function Apply(c: Config, s: State, step: Step): State {
    match step
    case CreateTopic(t) =>
      if t in s.topics then s else SetTopic(s, t, Topic([], None, Waiting, [], 0))
    case Subscribe(t, u) =>
      if t in s.topics && s.topics[t].held.None? && u !in s.subscribers then
        s.(subscribers := s.subscribers[u := NewSubscriber(t)])
      else s
    case Number(t, payload) =>
      if t in s.topics && s.topics[t].held.None? then
        SetTopic(s, t, s.topics[t].(held := Some(Message(t, s.sequence + 1, payload)))).(sequence := s.sequence + 1)
      else s
    case Enqueue(t) =>
      if t in s.topics && s.topics[t].held.Some? then
        var p := s.topics[t].(held := None);
        var m := s.topics[t].held.value;
        SetTopic(s, t, if |p.channel| < c.bufferSize then p.(channel := p.channel + [m], log := p.log + [m]) else p)
      else s
    case Take(t) =>
      if t in s.topics && s.topics[t].distributor.Waiting? && s.topics[t].channel != [] then
        var p := s.topics[t];
        SetTopic(s, t, p.(channel := p.channel[1..], distributor := Took(p.channel[0]), taken := p.taken + 1))
      else s
    case Snapshot(t) =>
      if t in s.topics && s.topics[t].distributor.Took? && s.topics[t].held.None? then
        SetTopic(s, t, s.topics[t].(distributor := Distributing(s.topics[t].distributor.message,
          set u | u in s.subscribers && s.subscribers[u].topic == t)))
      else s
    case StartDelivery(t, u) =>
      if t in s.topics && s.topics[t].distributor.Distributing? && u in s.topics[t].distributor.todo && u in s.subscribers
         && (c.ordering ==> AllDelivered(s, s.topics[t].distributor.message.sequence)) then
        var d := s.topics[t].distributor;
        SetTopic(s, t, s.topics[t].(distributor := d.(todo := d.todo - {u})))
        .(subscribers := s.subscribers[u := Begin(s.subscribers[u], d.message)])
      else s
    case Distributed(t) =>
      if t in s.topics && s.topics[t].distributor.Distributing? && s.topics[t].distributor.todo == {}
         && (c.ordering ==> AllDelivered(s, s.topics[t].distributor.message.sequence)) then
        SetTopic(s, t, s.topics[t].(distributor := Waiting))
      else s
    case Inside(u, a) =>
      if u in s.subscribers then s.(subscribers := s.subscribers[u := SubscriberApply(c, s.subscribers[u], a)]) else s
  }

  function Exec(c: Config, steps: seq<Step>): State {
    if steps == [] then State(0, map[], map[]) else Apply(c, Exec(c, steps[..|steps| - 1]), steps[|steps| - 1])
  }

  // ---------- The invariant ----------

  /** The number of the message that the distributor took last. */
  function LastTaken(p: Topic): nat
    requires p.taken <= |p.log|
  {
    if p.taken == 0 then 0 else p.log[p.taken - 1].sequence
  }

  ghost predicate TopicOk(s: State, t: int, p: Topic) {
    && p.taken <= |p.log| && p.channel == p.log[p.taken..]
    && Increasing(p.log)
    && (forall i :: 0 <= i < |p.log| ==> p.log[i].topic == t && 0 < p.log[i].sequence <= s.sequence)
    && (p.held.Some? ==> p.held.value.topic == t && 0 < p.held.value.sequence <= s.sequence)
    && (p.held.Some? ==> forall i :: 0 <= i < |p.log| ==> p.log[i].sequence < p.held.value.sequence)
    && (!p.distributor.Waiting? ==> p.taken > 0 && p.log[p.taken - 1] == p.distributor.message)
  }

  /** Subscriber `n` has met only messages taken from its topic, and the one being distributed only if its turn is over. */
  ghost predicate MetOnlyTaken(c: Config, p: Topic, n: nat, u: Subscriber)
    requires p.taken <= |p.log|
  {
    && (forall id :: id in u.items ==> u.items[id].message in p.log && 0 < id <= LastTaken(p))
    && (p.distributor.Took? || (p.distributor.Distributing? && n in p.distributor.todo) ==> LastTaken(p) !in u.items)
    && (c.ordering ==> forall id :: u.IsDelivering(id) ==> id == LastTaken(p) && p.distributor.Distributing?)
  }

  ghost predicate MemberOk(c: Config, s: State, n: nat, u: Subscriber) {
    && SubscriberOk(c, u)
    && (c.ordering && Attempts(c) > 0 ==> FlowOk(u))
    && u.topic in s.topics && s.topics[u.topic].taken <= |s.topics[u.topic].log|
    && MetOnlyTaken(c, s.topics[u.topic], n, u)
  }

  /** A message is handed only to subscribers of its own topic. */
  ghost predicate TodoOk(s: State, t: int, p: Topic) {
    p.distributor.Distributing? ==>
      forall n :: n in p.distributor.todo ==> n in s.subscribers && s.subscribers[n].topic == t
  }

  ghost predicate Inv(c: Config, s: State) {
    && (forall t :: t in s.topics ==> TopicOk(s, t, s.topics[t]) && TodoOk(s, t, s.topics[t]))
    && (forall n :: n in s.subscribers ==> MemberOk(c, s, n, s.subscribers[n]))
  }

  // ---------- Every step keeps it ----------

  /** A step that changes only topic `t`. */
  lemma TopicStep(c: Config, s: State, t: int, p: Topic, sequence: nat)
    requires Inv(c, s) && s.sequence <= sequence
    requires var s' := SetTopic(s, t, p).(sequence := sequence); TopicOk(s', t, p) && TodoOk(s', t, p)
    requires forall n :: n in s.subscribers && s.subscribers[n].topic == t ==> t in s.topics && MetOnlyTaken(c, p, n, s.subscribers[n])
    ensures Inv(c, SetTopic(s, t, p).(sequence := sequence))
  {
    var s' := SetTopic(s, t, p).(sequence := sequence);
    hide SubscriberOk, FlowOk, MetOnlyTaken;
    forall q | q in s'.topics ensures TopicOk(s', q, s'.topics[q]) && TodoOk(s', q, s'.topics[q]) {
      if q != t { assert TopicOk(s, q, s.topics[q]) && TodoOk(s, q, s.topics[q]); }
    }
    forall n | n in s'.subscribers ensures MemberOk(c, s', n, s'.subscribers[n]) {
      assert MemberOk(c, s, n, s.subscribers[n]);
    }
  }

  lemma EnqueueTopicOk(c: Config, s: State, t: int)
    requires Inv(c, s)
    ensures Inv(c, Apply(c, s, Enqueue(t)))
  {
    if t in s.topics && s.topics[t].held.Some? {
      var p := s.topics[t];
      var p' := Apply(c, s, Enqueue(t)).topics[t];
      assert TopicOk(s, t, p) && TodoOk(s, t, p);
      if |p.channel| < c.bufferSize {
        assert p'.log[p.taken..] == p.log[p.taken..] + [p.held.value];
      }
      assert LastTaken(p') == LastTaken(p);
      forall n | n in s.subscribers && s.subscribers[n].topic == t ensures MetOnlyTaken(c, p', n, s.subscribers[n]) {
        assert MemberOk(c, s, n, s.subscribers[n]);
      }
      TopicStep(c, s, t, p', s.sequence);
    }
  }

  lemma TakeOk(c: Config, s: State, t: int)
    requires Inv(c, s)
    ensures Inv(c, Apply(c, s, Take(t)))
  {
    if t in s.topics && s.topics[t].distributor.Waiting? && s.topics[t].channel != [] {
      var p := s.topics[t];
      var p' := Apply(c, s, Take(t)).topics[t];
      assert TopicOk(s, t, p);
      assert p'.log[p'.taken - 1] == p.channel[0];
      assert LastTaken(p) < LastTaken(p');
      forall n | n in s.subscribers && s.subscribers[n].topic == t ensures MetOnlyTaken(c, p', n, s.subscribers[n]) {
        assert MemberOk(c, s, n, s.subscribers[n]);
      }
      TopicStep(c, s, t, p', s.sequence);
    }
  }

  /** A step that only moves topic `t`'s distributor on. */
  lemma DistributorStep(c: Config, s: State, t: int, d: Distributor)
    requires Inv(c, s) && t in s.topics
    requires var p := s.topics[t].(distributor := d); TopicOk(s, t, p) && TodoOk(s, t, p)
    requires forall n :: n in s.subscribers && s.subscribers[n].topic == t ==>
      MetOnlyTaken(c, s.topics[t].(distributor := d), n, s.subscribers[n])
    ensures Inv(c, SetTopic(s, t, s.topics[t].(distributor := d)))
  {
    var p := s.topics[t].(distributor := d);
    TopicStep(c, s, t, p, s.sequence);
    assert SetTopic(s, t, p).(sequence := s.sequence) == SetTopic(s, t, p);
  }

  lemma SnapshotOk(c: Config, s: State, t: int)
    requires Inv(c, s)
    ensures Inv(c, Apply(c, s, Snapshot(t)))
  {
    if t in s.topics && s.topics[t].distributor.Took? && s.topics[t].held.None? {
      assert TopicOk(s, t, s.topics[t]);
      var d := Apply(c, s, Snapshot(t)).topics[t].distributor;
      forall n | n in s.subscribers && s.subscribers[n].topic == t
        ensures MetOnlyTaken(c, s.topics[t].(distributor := d), n, s.subscribers[n])
      {
        assert MemberOk(c, s, n, s.subscribers[n]);
      }
      DistributorStep(c, s, t, d);
    }
  }

  lemma DistributedOk(c: Config, s: State, t: int)
    requires Inv(c, s)
    ensures Inv(c, Apply(c, s, Distributed(t)))
  {
    var s' := Apply(c, s, Distributed(t));
    if s' != s {
      var p := s.topics[t];
      assert TopicOk(s, t, p);
      forall n | n in s.subscribers && s.subscribers[n].topic == t
        ensures MetOnlyTaken(c, p.(distributor := Waiting), n, s.subscribers[n])
      {
        assert MemberOk(c, s, n, s.subscribers[n]);
      }
      DistributorStep(c, s, t, Waiting);
    }
  }

  lemma BeginFlow(u: Subscriber, m: Message)
    requires FlowOk(u) && m.sequence !in u.items && forall id :: id in u.items ==> id <= m.sequence
    requires forall id :: id in u.items ==> u.items[id].message.sequence == id
    ensures FlowOk(Begin(u, m))
  {
    var u' := Begin(u, m);
    assert Flow(u') == Flow(u);
    hide Flow;
    forall x | x in Flow(u) ensures IsItem(u', x) && x.sequence < m.sequence {
      assert IsItem(u, x);
    }
    forall k: nat, x | u'.IsDelivering(k) && x in Flow(u') ensures x.sequence < k {
      assert k == m.sequence || u.IsDelivering(k);
    }
  }

  lemma BeginMet(c: Config, p: Topic, n: nat, u: Subscriber)
    requires p.taken <= |p.log| && p.taken > 0 && p.distributor.Distributing? && p.log[p.taken - 1] == p.distributor.message
    requires p.distributor.message.sequence > 0 && MetOnlyTaken(c, p, n, u)
    ensures MetOnlyTaken(c, p.(distributor := p.distributor.(todo := p.distributor.todo - {n})), n, Begin(u, p.distributor.message))
  {
    var m := p.distributor.message;
    forall id | Begin(u, m).IsDelivering(id) ensures id == m.sequence || u.IsDelivering(id) {}
  }

  /** The subscriber's side of the start of a delivery. */
  lemma BeginMember(c: Config, s: State, t: int, n: nat)
    requires Inv(c, s) && t in s.topics && n in s.subscribers
    requires var d := s.topics[t].distributor; d.Distributing? && n in d.todo
    ensures s.subscribers[n].topic == t && n in Apply(c, s, StartDelivery(t, n)).subscribers
    ensures Apply(c, s, StartDelivery(t, n)) != s ==>
      MemberOk(c, Apply(c, s, StartDelivery(t, n)), n, Apply(c, s, StartDelivery(t, n)).subscribers[n])
  {
    var p, u := s.topics[t], s.subscribers[n];
    var m := p.distributor.message;
    assert TopicOk(s, t, p) && TodoOk(s, t, p) && MemberOk(c, s, n, u);
    assert m.topic == t && LastTaken(p) == m.sequence;
    BeginOk(c, u, m);
    BeginMet(c, p, n, u);
    if c.ordering && Attempts(c) > 0 {
      assert forall id :: id in u.items ==> ItemOk(c, u, id);
      BeginFlow(u, m);
    }
    hide Inv, SubscriberOk, FlowOk, MetOnlyTaken, TopicOk, Begin;
  }

  lemma StartDeliveryOthers(c: Config, s: State, t: int, n: nat, k: nat)
    requires Inv(c, s) && n in s.subscribers && k in s.subscribers && k != n
    ensures MemberOk(c, Apply(c, s, StartDelivery(t, n)), k, s.subscribers[k])
  {
    assert MemberOk(c, s, k, s.subscribers[k]);
    hide Inv, SubscriberOk, FlowOk;
  }

  lemma StartDeliveryOk(c: Config, s: State, t: int, n: nat)
    requires Inv(c, s)
    ensures Inv(c, Apply(c, s, StartDelivery(t, n)))
  {
    var s' := Apply(c, s, StartDelivery(t, n));
    if s' != s {
      BeginMember(c, s, t, n);
      hide MemberOk, Begin;
      forall q | q in s'.topics ensures TopicOk(s', q, s'.topics[q]) && TodoOk(s', q, s'.topics[q]) {
        assert TopicOk(s, q, s.topics[q]) && TodoOk(s, q, s.topics[q]);
        StartDeliveryTopic(c, s, t, n, q);
      }
      forall k | k in s'.subscribers ensures MemberOk(c, s', k, s'.subscribers[k]) {
        if k != n { StartDeliveryOthers(c, s, t, n, k); }
      }
    }
  }

  lemma StartDeliveryTopic(c: Config, s: State, t: int, n: nat, q: int)
    requires q in s.topics && TopicOk(s, q, s.topics[q]) && TodoOk(s, q, s.topics[q])
    ensures var s' := Apply(c, s, StartDelivery(t, n));
      q in s'.topics && TopicOk(s', q, s'.topics[q]) && TodoOk(s', q, s'.topics[q])
  {
  }

  lemma InsideMember(c: Config, s: State, n: nat, a: SubscriberStep)
    requires Inv(c, s) && n in s.subscribers
    ensures var s' := Apply(c, s, Inside(n, a)); MemberOk(c, s', n, s'.subscribers[n])
    ensures var u, u' := s.subscribers[n], SubscriberApply(c, s.subscribers[n], a);
      u'.topic == u.topic && forall id: nat :: u'.IsDelivering(id) ==> u.IsDelivering(id)
  {
    var u := s.subscribers[n];
    assert MemberOk(c, s, n, u);
    SubscriberStepOk(c, u, a);
    ItemsStay(c, u, a);
    if c.ordering && Attempts(c) > 0 { FlowStepOk(c, u, a); }
    hide SubscriberOk, FlowOk, SubscriberApply, TopicOk;
  }

  lemma InsideOk(c: Config, s: State, n: nat, a: SubscriberStep)
    requires Inv(c, s)
    ensures Inv(c, Apply(c, s, Inside(n, a)))
  {
    if n in s.subscribers {
      var s' := Apply(c, s, Inside(n, a));
      var u := s.subscribers[n];
      var u' := SubscriberApply(c, u, a);
      InsideMember(c, s, n, a);
      hide SubscriberOk, FlowOk, SubscriberApply, TopicOk;
      forall k | k in s'.subscribers ensures MemberOk(c, s', k, s'.subscribers[k]) {
        if k != n { assert MemberOk(c, s, k, s.subscribers[k]); }
      }
      forall q | q in s'.topics ensures TopicOk(s', q, s'.topics[q]) && TodoOk(s', q, s'.topics[q]) {
        assert TopicOk(s, q, s.topics[q]) && TodoOk(s, q, s.topics[q]);
      }
    }
  }

  lemma NumberTopic(c: Config, s: State, t: int, payload: int)
    requires t in s.topics && s.topics[t].held.None? && TopicOk(s, t, s.topics[t]) && TodoOk(s, t, s.topics[t])
    ensures var p := s.topics[t].(held := Some(Message(t, s.sequence + 1, payload)));
      var s' := SetTopic(s, t, p).(sequence := s.sequence + 1);
      Apply(c, s, Number(t, payload)) == s' && TopicOk(s', t, p) && TodoOk(s', t, p)
  {
  }

  lemma NumberOk(c: Config, s: State, t: int, payload: int)
    requires Inv(c, s)
    ensures Inv(c, Apply(c, s, Number(t, payload)))
  {
    hide SubscriberOk, FlowOk, TopicOk, TodoOk;
    if t in s.topics && s.topics[t].held.None? {
      var p := s.topics[t].(held := Some(Message(t, s.sequence + 1, payload)));
      NumberTopic(c, s, t, payload);
      hide Apply;
      forall n | n in s.subscribers && s.subscribers[n].topic == t ensures MetOnlyTaken(c, p, n, s.subscribers[n]) {
        assert MemberOk(c, s, n, s.subscribers[n]);
      }
      TopicStep(c, s, t, p, s.sequence + 1);
    }
  }

  lemma StepInv(c: Config, s: State, step: Step)
    requires Inv(c, s)
    ensures Inv(c, Apply(c, s, step))
  {
    match step {
      case CreateTopic(t) =>
      case Subscribe(t, n) =>
      case Number(t, payload) => NumberOk(c, s, t, payload);
      case Enqueue(t) => EnqueueTopicOk(c, s, t);
      case Take(t) => TakeOk(c, s, t);
      case Snapshot(t) => SnapshotOk(c, s, t);
      case StartDelivery(t, n) => StartDeliveryOk(c, s, t, n);
      case Distributed(t) => DistributedOk(c, s, t);
      case Inside(n, a) => InsideOk(c, s, n, a);
    }
  }

  lemma {:induction false} Reachable(c: Config, steps: seq<Step>)
    ensures Inv(c, Exec(c, steps))
  {
    if steps != [] {
      Reachable(c, steps[..|steps| - 1]);
      StepInv(c, Exec(c, steps[..|steps| - 1]), steps[|steps| - 1]);
    }
  }

  // ---------- Delivery guarantee ----------

  /** A message that has entered a subscriber's queue and is no longer pending has had its handler return nil. */
  predicate Guaranteed(s: State, n: nat, id: nat) {
    n in s.subscribers && s.subscribers[n].Accepted(id) && id !in s.subscribers[n].pending ==>
      id in s.subscribers[n].succeeded && id in s.subscribers[n].processed
  }

  /** With the guarantee on, this holds in every run, whenever the handler is called at all; see `GuaranteeIff`. */
  lemma LeavesPendingOnlyWhenHandled(c: Config, steps: seq<Step>, n: nat, id: nat)
    requires c.guarantee && 0 <= c.maxRetries < INT64_MAX
    ensures Guaranteed(Exec(c, steps), n, id)
  {
    hide Exec;
    RoundsIs(c.maxRetries);
    Reachable(c, steps);
    var s := Exec(c, steps);
    if n in s.subscribers {
      assert MemberOk(c, s, n, s.subscribers[n]);
      assert ItemOk(c, s.subscribers[n], id);
    }
  }

  /** Once the acknowledgement of a message is consumed, the message is not pending, and no later step makes it so again. */
  lemma ConfirmedStaysConfirmed(c: Config, steps: seq<Step>, step: Step, n: nat, id: nat)
    requires c.guarantee && n in Exec(c, steps).subscribers && Exec(c, steps).subscribers[n].At(id, Confirmed)
    ensures id !in Exec(c, steps).subscribers[n].pending
    ensures var s' := Exec(c, steps + [step]);
      n in s'.subscribers && s'.subscribers[n].At(id, Confirmed) && id !in s'.subscribers[n].pending
  {
    assert (steps + [step])[..|steps|] == steps;
    Reachable(c, steps);
    Reachable(c, steps + [step]);
    var s, s' := Exec(c, steps), Exec(c, steps + [step]);
    var u := s.subscribers[n];
    assert MemberOk(c, s, n, u) && ItemOk(c, u, id);
    hide Exec;
    ConfirmedStep(c, s, step, n, id);
    assert MemberOk(c, s', n, s'.subscribers[n]) && ItemOk(c, s'.subscribers[n], id);
  }

  lemma ConfirmedStep(c: Config, s: State, step: Step, n: nat, id: nat)
    requires Inv(c, s) && n in s.subscribers && s.subscribers[n].At(id, Confirmed)
    ensures var s' := Apply(c, s, step); n in s'.subscribers && s'.subscribers[n].At(id, Confirmed)
  {
    var u := s.subscribers[n];
    assert MemberOk(c, s, n, u);
    assert ItemOk(c, u, id);
    match step {
      case Inside(k, a) => if k == n { ConfirmedInside(c, u, a, id); }
      case StartDelivery(t, k) =>
        if t in s.topics && s.topics[t].distributor.Distributing? && k in s.topics[t].distributor.todo {
          assert TopicOk(s, t, s.topics[t]) && TodoOk(s, t, s.topics[t]);
        }
      case _ =>
    }
  }

  lemma ConfirmedInside(c: Config, u: Subscriber, a: SubscriberStep, id: nat)
    requires SubscriberOk(c, u) && u.At(id, Confirmed)
    ensures SubscriberApply(c, u, a).At(id, Confirmed)
  {
    assert ItemOk(c, u, id);
    if u.queue != [] { assert IsItem(u, u.queue[0]); assert u.queue[0].sequence in Ids(u.queue); }
    if u.acks != [] { assert u.acks[0] in Elements(u.acks); }
  }

  /** Nothing is on its way at the subscriber any more. */
  predicate IsQuiet(u: Subscriber) {
    && u.queue == [] && u.handler.Idle? && u.acks == [] && u.acker.None?
    && forall id :: id in u.items ==> !u.items[id].place.Delivering?
  }

  /** At rest, what is pending is exactly the messages that failed or were given up, and those whose ACK was dropped. */
  lemma PendingAtRest(c: Config, steps: seq<Step>, n: nat, id: nat)
    requires c.guarantee && n in Exec(c, steps).subscribers && IsQuiet(Exec(c, steps).subscribers[n])
    ensures var u := Exec(c, steps).subscribers[n];
      id in u.pending <==> u.At(id, Failed) || u.At(id, Abandoned) || u.At(id, AckDropped)
  {
    hide Exec;
    Reachable(c, steps);
    var s := Exec(c, steps);
    assert MemberOk(c, s, n, s.subscribers[n]);
    assert ItemOk(c, s.subscribers[n], id);
  }

  // ---------- Which messages a subscriber meets ----------

  /** The distributor has taken its message and has not yet turned to this subscriber. */
  predicate IsNext(p: Topic, n: nat) {
    p.distributor.Took? || (p.distributor.Distributing? && n in p.distributor.todo)
  }

  /**
   * How many messages its topic's distributor was done with, or had already looked for subscribers for, when subscriber n
   * subscribed.
   */
  function Since(c: Config, steps: seq<Step>, n: nat): nat {
    if steps == [] then 0
    else
      var init, last := steps[..|steps| - 1], steps[|steps| - 1];
      var s := Exec(c, init);
      if last.Subscribe? && last.subscriber == n && n !in s.subscribers && last.topic in s.topics then
        var p := s.topics[last.topic];
        if p.distributor.Took? && p.taken > 0 then p.taken - 1 else p.taken
      else Since(c, init, n)
  }

  ghost predicate Meets(p: Topic, n: nat, u: Subscriber, since: nat) {
    && since <= p.taken <= |p.log| && (IsNext(p, n) ==> since < p.taken)
    && forall k :: 0 <= k < p.taken ==>
      (p.log[k].sequence in u.items <==> since <= k && !(k == p.taken - 1 && IsNext(p, n)))
  }

  lemma MeetsSame(p: Topic, p': Topic, n: nat, u: Subscriber, u': Subscriber, since: nat)
    requires Meets(p, n, u, since) && u'.items.Keys == u.items.Keys
    requires p'.taken == p.taken <= |p'.log| && p'.log[..p.taken] == p.log[..p.taken] && IsNext(p', n) == IsNext(p, n)
    ensures Meets(p', n, u', since)
  {
    forall k | 0 <= k < p'.taken ensures p'.log[k] == p.log[k] {
      assert p'.log[..p.taken][k] == p.log[..p.taken][k];
    }
  }

  lemma MeetsTake(c: Config, s: State, t: int, n: nat, since: nat)
    requires Inv(c, s) && n in s.subscribers && s.subscribers[n].topic == t && t in s.topics
    requires s.topics[t].distributor.Waiting? && s.topics[t].channel != []
    requires Meets(s.topics[t], n, s.subscribers[n], since)
    ensures Meets(Apply(c, s, Take(t)).topics[t], n, s.subscribers[n], since)
  {
    var p := s.topics[t];
    assert TopicOk(s, t, p) && MemberOk(c, s, n, s.subscribers[n]);
    assert LastTaken(p) < p.log[p.taken].sequence;
  }

  /** The delivery to subscriber n of the message that was taken last. */
  lemma MeetsBegin(p: Topic, n: nat, u: Subscriber, since: nat)
    requires Meets(p, n, u, since) && Increasing(p.log) && p.distributor.Distributing? && n in p.distributor.todo
    requires p.taken > 0 && p.log[p.taken - 1] == p.distributor.message
    ensures Meets(p.(distributor := p.distributor.(todo := p.distributor.todo - {n})), n, Begin(u, p.distributor.message), since)
  {
    var m := p.distributor.message;
    forall k | 0 <= k < p.taken - 1 ensures p.log[k].sequence != m.sequence {
      assert p.log[k].sequence < p.log[p.taken - 1].sequence;
    }
  }

  lemma MeetsStart(c: Config, s: State, t: int, n: nat, k: nat, since: nat)
    requires t in s.topics && TopicOk(s, t, s.topics[t]) && TodoOk(s, t, s.topics[t])
    requires k in s.subscribers && s.subscribers[k].topic in s.topics
    requires Meets(s.topics[s.subscribers[k].topic], k, s.subscribers[k], since)
    ensures var s' := Apply(c, s, StartDelivery(t, n));
      k in s'.subscribers && s'.subscribers[k].topic == s.subscribers[k].topic && s.subscribers[k].topic in s'.topics
      && Meets(s'.topics[s.subscribers[k].topic], k, s'.subscribers[k], since)
  {
    var s' := Apply(c, s, StartDelivery(t, n));
    hide Meets;
    if s' != s {
      var q := s.subscribers[k].topic;
      if k == n {
        MeetsBegin(s.topics[t], n, s.subscribers[n], since);
      } else {
        MeetsSizes(s.topics[q], k, s.subscribers[k], since);
        MeetsSame(s.topics[q], s'.topics[q], k, s.subscribers[k], s'.subscribers[k], since);
      }
    }
  }

  lemma MeetsInside(c: Config, s: State, n: nat, a: SubscriberStep, k: nat, since: nat)
    requires n in s.subscribers && k in s.subscribers && s.subscribers[k].topic in s.topics
    requires Meets(s.topics[s.subscribers[k].topic], k, s.subscribers[k], since)
    ensures var s' := Apply(c, s, Inside(n, a));
      k in s'.subscribers && s'.subscribers[k].topic == s.subscribers[k].topic && s'.topics == s.topics
      && Meets(s'.topics[s.subscribers[k].topic], k, s'.subscribers[k], since)
  {
    hide Meets, SubscriberApply;
    ItemsStay(c, s.subscribers[n], a);
    var p := s.topics[s.subscribers[k].topic];
    MeetsSizes(p, k, s.subscribers[k], since);
    MeetsSame(p, p, k, s.subscribers[k], Apply(c, s, Inside(n, a)).subscribers[k], since);
  }

  lemma MeetsSizes(p: Topic, n: nat, u: Subscriber, since: nat)
    requires Meets(p, n, u, since)
    ensures p.taken <= |p.log|
  {
  }

  /** The other steps do not touch the subscriber, or only create it. */
  lemma MeetsOther(c: Config, s: State, step: Step, n: nat, since: nat)
    requires step.CreateTopic? || step.Subscribe? || step.Number? || step.Enqueue? || step.Snapshot? || step.Distributed?
    requires n in s.subscribers && s.subscribers[n].topic in s.topics
    requires TopicOk(s, s.subscribers[n].topic, s.topics[s.subscribers[n].topic])
    requires Meets(s.topics[s.subscribers[n].topic], n, s.subscribers[n], since)
    ensures var s' := Apply(c, s, step);
      n in s'.subscribers && s'.subscribers[n] == s.subscribers[n] && s.subscribers[n].topic in s'.topics
      && Meets(s'.topics[s.subscribers[n].topic], n, s.subscribers[n], since)
  {
    hide Meets, Increasing;
    var t, s' := s.subscribers[n].topic, Apply(c, s, step);
    MeetsSame(s.topics[t], s'.topics[t], n, s.subscribers[n], s.subscribers[n], since);
  }

  lemma MeetsStep(c: Config, s: State, step: Step, n: nat, since: nat)
    requires Inv(c, s) && n in s.subscribers && s.subscribers[n].topic in s.topics
    requires Meets(s.topics[s.subscribers[n].topic], n, s.subscribers[n], since)
    ensures var s' := Apply(c, s, step);
      n in s'.subscribers && s'.subscribers[n].topic == s.subscribers[n].topic && s.subscribers[n].topic in s'.topics
      && Meets(s'.topics[s.subscribers[n].topic], n, s'.subscribers[n], since)
  {
    var t := s.subscribers[n].topic;
    assert TopicOk(s, t, s.topics[t]);
    match step {
      case StartDelivery(q, k) =>
        if q in s.topics {
          assert TopicOk(s, q, s.topics[q]) && TodoOk(s, q, s.topics[q]);
          hide Meets, Inv, TopicOk, Apply;
          MeetsStart(c, s, q, k, n, since);
        }
      case Take(q) =>
        if q == t && s.topics[t].distributor.Waiting? && s.topics[t].channel != [] {
          hide Meets, Inv, TopicOk;
          MeetsTake(c, s, t, n, since);
        }
      case Inside(k, a) =>
        if k in s.subscribers {
          hide Meets, Inv, TopicOk, Apply;
          MeetsInside(c, s, k, a, n, since);
        }
      case _ =>
        hide Meets, Inv, TopicOk, Apply;
        MeetsOther(c, s, step, n, since);
    }
  }

  lemma MeetsNew(c: Config, s: State, t: int, n: nat)
    requires Inv(c, s) && n !in s.subscribers && n in Apply(c, s, Subscribe(t, n)).subscribers
    ensures t in s.topics
    ensures var p := s.topics[t];
      Meets(p, n, NewSubscriber(t), if p.distributor.Took? && p.taken > 0 then p.taken - 1 else p.taken)
  {
    assert TopicOk(s, t, s.topics[t]);
  }

  /**
   * A subscriber meets exactly the messages that its topic's distributor has turned to it with since it subscribed: none
   * of those before, and none of those after is left out, whatever publishers, other subscribers and topics do.
   */
  lemma {:induction false} MeetsEveryMessage(c: Config, steps: seq<Step>, n: nat)
    requires n in Exec(c, steps).subscribers
    ensures var s := Exec(c, steps);
      s.subscribers[n].topic in s.topics && Meets(s.topics[s.subscribers[n].topic], n, s.subscribers[n], Since(c, steps, n))
  {
    hide Meets, Inv;
    if steps != [] {
      var init, last := steps[..|steps| - 1], steps[|steps| - 1];
      var s := Exec(c, init);
      Reachable(c, init);
      if n in s.subscribers {
        MeetsEveryMessage(c, init, n);
        MeetsStep(c, s, last, n, Since(c, init, n));
      } else {
        OnlySubscribeAdds(c, s, last, n);
        MeetsNew(c, s, last.topic, n);
      }
    }
  }

  lemma OnlySubscribeAdds(c: Config, s: State, step: Step, n: nat)
    requires n !in s.subscribers && n in Apply(c, s, step).subscribers
    ensures step.Subscribe? && step.subscriber == n && step.topic in s.topics
    ensures Apply(c, s, step).subscribers[n] == NewSubscriber(step.topic) && Apply(c, s, step).topics == s.topics
  {
  }

  // ---------- What is dropped, and when ----------

  /** The messages that have been put into the subscriber's queue. */
  function AcceptedIds(u: Subscriber): set<nat> {
    set id | id in u.items && u.Accepted(id)
  }

  /**
   * Neither channel holds more than it can; an ACK was dropped only after more handlers have succeeded than the ACK channel
   * holds, and a message refused only after as many have been accepted as the queue holds.
   */
  ghost predicate RoomOk(c: Config, u: Subscriber) {
    && |u.queue| <= c.bufferSize && |u.acks| <= c.bufferSize
    && (Attempts(c) > 0 ==> forall id: nat :: u.At(id, AckDropped) ==> |u.succeeded| > c.bufferSize)
    && forall id: nat :: u.At(id, Refused) || u.At(id, Delivering(RemovingPending)) ==> |AcceptedIds(u)| >= c.bufferSize
  }

  lemma {:induction false} ManyElements(s: seq<nat>)
    requires DistinctIds(s)
    ensures |Elements(s)| == |s|
  {
    if s == [] {
      assert Elements(s) == {};
    } else {
      var n := |s| - 1;
      assert s == s[..n] + [s[n]];
      ManyElements(s[..n]);
      ElementsSnoc(s[..n], s[n]);
    }
  }

  lemma {:induction false} ManyIds(queue: seq<Message>)
    requires Distinct(queue)
    ensures |Ids(queue)| == |queue|
  {
    if queue == [] {
      assert Ids(queue) == {};
    } else {
      var n := |queue| - 1;
      assert queue == queue[..n] + [queue[n]];
      ManyIds(queue[..n]);
      assert queue[n].sequence !in Ids(queue[..n]);
      IdsSnoc(queue[..n], queue[n]);
    }
  }

  lemma SubsetSize(a: set<nat>, b: set<nat>)
    requires a <= b
    ensures |a| <= |b|
  {
    assert b == a + (b - a);
  }

  lemma DropNeedsSuccesses(c: Config, u: Subscriber)
    requires SubscriberOk(c, u) && Attempts(c) > 0 && u.handler.Succeeded? && |u.acks| >= c.bufferSize
    ensures |u.succeeded| > c.bufferSize
  {
    var id := u.handler.message.sequence;
    ManyElements(u.acks);
    assert ItemOk(c, u, id);
    forall k | k in Elements(u.acks) ensures k in u.succeeded && k != id {
      assert ItemOk(c, u, k);
    }
    SubsetSize(Elements(u.acks) + {id}, u.succeeded);
  }

  lemma RefusalNeedsAccepted(c: Config, u: Subscriber)
    requires SubscriberOk(c, u) && |u.queue| >= c.bufferSize
    ensures |AcceptedIds(u)| >= c.bufferSize
  {
    ManyIds(u.queue);
    forall k | k in Ids(u.queue) ensures k in AcceptedIds(u) {
      assert ItemOk(c, u, k);
    }
    SubsetSize(Ids(u.queue), AcceptedIds(u));
  }

  lemma AcceptedStay(c: Config, u: Subscriber, a: SubscriberStep)
    requires SubscriberOk(c, u)
    ensures |AcceptedIds(u)| <= |AcceptedIds(SubscriberApply(c, u, a))| && |u.succeeded| <= |SubscriberApply(c, u, a).succeeded|
  {
    var u' := SubscriberApply(c, u, a);
    forall id | id in AcceptedIds(u) ensures id in AcceptedIds(u') {
      StaysAccepted(c, u, a, id);
    }
    SubsetSize(AcceptedIds(u), AcceptedIds(u'));
    SucceededStay(c, u, a);
  }

  lemma SucceededStay(c: Config, u: Subscriber, a: SubscriberStep)
    ensures |u.succeeded| <= |SubscriberApply(c, u, a).succeeded|
  {
    SubsetSize(u.succeeded, SubscriberApply(c, u, a).succeeded);
  }

  lemma StaysAccepted(c: Config, u: Subscriber, a: SubscriberStep, id: nat)
    requires u.Accepted(id)
    ensures SubscriberApply(c, u, a).Accepted(id)
  {
  }

  /** A step leaves what was dropped or refused as it is, and drops or refuses only for want of room. */
  lemma DropsForWantOfRoom(c: Config, u: Subscriber, a: SubscriberStep, id: nat)
    requires SubscriberOk(c, u)
    ensures var u' := SubscriberApply(c, u, a);
      && (u'.At(id, AckDropped) ==>
            u.At(id, AckDropped) || (u.handler.Succeeded? && |u.acks| >= c.bufferSize))
      && (u'.At(id, Refused) || u'.At(id, Delivering(RemovingPending)) ==>
            u.At(id, Refused) || u.At(id, Delivering(RemovingPending)) || |u.queue| >= c.bufferSize)
  {
    assert ItemOk(c, u, id);
    hide Elements, Ids, SequencesOk;
  }

  lemma ChannelsStep(c: Config, u: Subscriber, a: SubscriberStep)
    requires |u.queue| <= c.bufferSize && |u.acks| <= c.bufferSize
    ensures |SubscriberApply(c, u, a).queue| <= c.bufferSize && |SubscriberApply(c, u, a).acks| <= c.bufferSize
  {
  }

  lemma RoomStep(c: Config, u: Subscriber, a: SubscriberStep)
    requires SubscriberOk(c, u) && RoomOk(c, u)
    ensures RoomOk(c, SubscriberApply(c, u, a))
  {
    hide SubscriberOk, AcceptedIds, SubscriberApply, Subscriber.At;
    var u' := SubscriberApply(c, u, a);
    AcceptedStay(c, u, a);
    ChannelsStep(c, u, a);
    if |u.queue| >= c.bufferSize { RefusalNeedsAccepted(c, u); }
    if Attempts(c) > 0 && u.handler.Succeeded? && |u.acks| >= c.bufferSize { DropNeedsSuccesses(c, u); }
    forall id: nat ensures u'.At(id, AckDropped) && Attempts(c) > 0 ==> |u'.succeeded| > c.bufferSize {
      DropsForWantOfRoom(c, u, a, id);
    }
    forall id: nat ensures u'.At(id, Refused) || u'.At(id, Delivering(RemovingPending)) ==> |AcceptedIds(u')| >= c.bufferSize {
      DropsForWantOfRoom(c, u, a, id);
    }
  }

  lemma RoomBegin(c: Config, u: Subscriber, m: Message)
    requires RoomOk(c, u) && m.sequence !in u.items
    ensures RoomOk(c, Begin(u, m))
  {
    var u' := Begin(u, m);
    assert AcceptedIds(u') == AcceptedIds(u);
    forall id: nat
      ensures u'.At(id, AckDropped) ==> u.At(id, AckDropped)
      ensures u'.At(id, Refused) || u'.At(id, Delivering(RemovingPending)) ==>
        u.At(id, Refused) || u.At(id, Delivering(RemovingPending))
    {
    }
    hide AcceptedIds, Subscriber.At;
  }

  lemma RoomNew(c: Config, topic: int)
    ensures RoomOk(c, NewSubscriber(topic))
  {
  }

  lemma BeginsNew(c: Config, s: State, t: int, n: nat)
    requires Inv(c, s) && n in s.subscribers && Apply(c, s, StartDelivery(t, n)) != s
    ensures t in s.topics && s.topics[t].distributor.Distributing?
    ensures var m := s.topics[t].distributor.message;
      && m.sequence !in s.subscribers[n].items
      && Apply(c, s, StartDelivery(t, n)).subscribers == s.subscribers[n := Begin(s.subscribers[n], m)]
  {
    assert TopicOk(s, t, s.topics[t]) && TodoOk(s, t, s.topics[t]) && MemberOk(c, s, n, s.subscribers[n]);
  }

  ghost predicate AllHaveRoom(c: Config, s: State) {
    forall n :: n in s.subscribers ==> RoomOk(c, s.subscribers[n])
  }

  ghost predicate TopicsHaveRoom(c: Config, s: State) {
    forall t :: t in s.topics ==> |s.topics[t].channel| <= c.bufferSize
  }

  lemma {:induction false} TopicRoomHolds(c: Config, steps: seq<Step>)
    ensures TopicsHaveRoom(c, Exec(c, steps))
  {
    if steps != [] {
      TopicRoomHolds(c, steps[..|steps| - 1]);
      TopicRoomStep(c, Exec(c, steps[..|steps| - 1]), steps[|steps| - 1]);
    }
  }

  lemma TopicRoomStep(c: Config, s: State, step: Step)
    requires TopicsHaveRoom(c, s)
    ensures TopicsHaveRoom(c, Apply(c, s, step))
  {
  }

  lemma RoomSystemStep(c: Config, s: State, step: Step)
    requires Inv(c, s) && AllHaveRoom(c, s)
    ensures AllHaveRoom(c, Apply(c, s, step))
  {
    hide RoomOk, SubscriberApply, SubscriberOk, FlowOk;
    var s' := Apply(c, s, step);
    match step {
      case StartDelivery(t, n) =>
        if s' != s && n in s.subscribers {
          BeginsNew(c, s, t, n);
          RoomBegin(c, s.subscribers[n], s.topics[t].distributor.message);
        }
      case Inside(n, a) =>
        if n in s.subscribers {
          assert MemberOk(c, s, n, s.subscribers[n]);
          RoomStep(c, s.subscribers[n], a);
        }
      case Subscribe(t, n) => RoomNew(c, t);
      case _ =>
    }
  }

  lemma {:induction false} RoomHolds(c: Config, steps: seq<Step>)
    ensures AllHaveRoom(c, Exec(c, steps))
  {
    hide Apply, RoomOk;
    if steps != [] {
      RoomHolds(c, steps[..|steps| - 1]);
      Reachable(c, steps[..|steps| - 1]);
      RoomSystemStep(c, Exec(c, steps[..|steps| - 1]), steps[|steps| - 1]);
    }
  }

  /**
   * In every run, no ACK is dropped while at most as many handlers have succeeded as the ACK channel holds, and no message
   * is refused while fewer have been accepted than the queue holds.
   */
  lemma NothingDroppedEarly(c: Config, steps: seq<Step>, n: nat, id: nat)
    requires n in Exec(c, steps).subscribers
    ensures var u := Exec(c, steps).subscribers[n];
      && (Attempts(c) > 0 && |u.succeeded| <= c.bufferSize ==> !u.At(id, AckDropped))
      && (|AcceptedIds(u)| < c.bufferSize ==> !u.At(id, Refused))
  {
    hide Exec;
    RoomHolds(c, steps);
    assert RoomOk(c, Exec(c, steps).subscribers[n]);
  }

  /**
   * In every run, a message that was given its number is accepted by its topic if and only if the topic's channel is not
   * full; otherwise it is lost, and the lock is given back either way.
   */
  lemma AcceptedIff(c: Config, steps: seq<Step>, t: int)
    requires t in Exec(c, steps).topics && Exec(c, steps).topics[t].held.Some?
    ensures t in Exec(c, steps + [Enqueue(t)]).topics
    ensures var p, p' := Exec(c, steps).topics[t], Exec(c, steps + [Enqueue(t)]).topics[t];
      var more := if |p.channel| == c.bufferSize then [] else [p.held.value];
      && |p.channel| <= c.bufferSize && p'.held.None? && p'.distributor == p.distributor && p'.taken == p.taken
      && p'.channel == p.channel + more && p'.log == p.log + more
  {
    ExecSnoc(c, steps, Enqueue(t));
    hide Exec;
    TopicRoomHolds(c, steps);
  }

  /** While a publisher holds the lock, nobody else gets a number, subscribes or takes the snapshot of the subscribers. */
  lemma LockExcludes(c: Config, s: State, t: int, step: Step)
    requires t in s.topics && s.topics[t].held.Some?
    requires (step.Number? || step.Subscribe? || step.Snapshot?) && step.topic == t
    ensures Apply(c, s, step) == s
  {
  }

  /** A subscriber that stops gives a message up only between two attempts: its handler has failed, and another would follow. */
  lemma AbandonedIff(c: Config, steps: seq<Step>, n: nat)
    requires n in Exec(c, steps).subscribers
    ensures n in Exec(c, steps + [Inside(n, Abandon)]).subscribers
    ensures var u, u' := Exec(c, steps).subscribers[n], Exec(c, steps + [Inside(n, Abandon)]).subscribers[n];
      if u.handler.Handling? && u.handler.attempt > 0 then
        u'.handler.Idle? && u'.At(u.handler.message.sequence, Abandoned) && u'.pending == u.pending
      else u' == u
  {
    ExecSnoc(c, steps, Inside(n, Abandon));
    hide Exec;
    Reachable(c, steps);
    var u := Exec(c, steps).subscribers[n];
    assert MemberOk(c, Exec(c, steps), n, u);
    if u.handler.Handling? { assert ItemOk(c, u, u.handler.message.sequence); }
  }

  /**
   * In every run, the success of a handler leads to an ACK in the channel, behind those that wait there, if and only if
   * the channel is not full, and otherwise the ACK is dropped.
   */
  lemma AckDroppedIff(c: Config, steps: seq<Step>, n: nat)
    requires n in Exec(c, steps).subscribers && Exec(c, steps).subscribers[n].handler.Succeeded?
    ensures n in Exec(c, steps + [Inside(n, SendAck)]).subscribers
    ensures var u, u' := Exec(c, steps).subscribers[n], Exec(c, steps + [Inside(n, SendAck)]).subscribers[n];
      var id := u.handler.message.sequence;
      && |u.acks| <= c.bufferSize && u'.handler.Idle? && id in u'.items
      && (u'.At(id, AckDropped) <==> |u.acks| == c.bufferSize)
      && (u'.At(id, AckQueued) <==> |u.acks| < c.bufferSize)
      && u'.acks == (if |u.acks| < c.bufferSize then u.acks + [id] else u.acks)
      && u'.queue == u.queue && u'.pending == u.pending
  {
    ExecSnoc(c, steps, Inside(n, SendAck));
    hide Exec;
    Reachable(c, steps);
    RoomHolds(c, steps);
    var u := Exec(c, steps).subscribers[n];
    assert MemberOk(c, Exec(c, steps), n, u) && RoomOk(c, u) && ItemOk(c, u, u.handler.message.sequence);
  }

  /** And a message that is sent to a subscriber is queued there if and only if its queue is not full. */
  lemma RefusedIff(c: Config, steps: seq<Step>, n: nat, id: nat)
    requires n in Exec(c, steps).subscribers && Exec(c, steps).subscribers[n].At(id, Delivering(Sending))
    ensures n in Exec(c, steps + [Inside(n, Deliver(id))]).subscribers
    ensures var u, u' := Exec(c, steps).subscribers[n], Exec(c, steps + [Inside(n, Deliver(id))]).subscribers[n];
      && |u.queue| <= c.bufferSize && id in u'.items
      && (u'.At(id, Queued) <==> |u.queue| < c.bufferSize)
      && (u'.At(id, if c.guarantee then Delivering(RemovingPending) else Refused) <==> |u.queue| == c.bufferSize)
      && u'.queue == (if |u.queue| < c.bufferSize then u.queue + [u.items[id].message] else u.queue)
      && u'.pending == u.pending
  {
    ExecSnoc(c, steps, Inside(n, Deliver(id)));
    hide Exec;
    RoomHolds(c, steps);
    assert RoomOk(c, Exec(c, steps).subscribers[n]);
  }

  /** The check for duplicates before a delivery refuses nothing. */
  lemma CheckRefusesNothing(c: Config, steps: seq<Step>, n: nat, id: nat)
    requires n in Exec(c, steps).subscribers && Exec(c, steps).subscribers[n].At(id, Delivering(Checking))
    ensures n in Exec(c, steps + [Inside(n, Deliver(id))]).subscribers
    ensures Exec(c, steps + [Inside(n, Deliver(id))]).subscribers[n].At(
      id, Delivering(if c.guarantee then AddingPending else Sending))
  {
    ExecSnoc(c, steps, Inside(n, Deliver(id)));
    hide Exec;
    Reachable(c, steps);
    var u := Exec(c, steps).subscribers[n];
    assert MemberOk(c, Exec(c, steps), n, u) && ItemOk(c, u, id);
  }

  lemma ExecSnoc(c: Config, steps: seq<Step>, step: Step)
    ensures Exec(c, steps + [step]) == Apply(c, Exec(c, steps), step)
  {
    assert (steps + [step])[..|steps|] == steps;
  }

  // ---------- Ordering ----------

  /** In every mode, no message is started twice; its retries belong to the one start. */
  lemma StartedOnce(c: Config, steps: seq<Step>, n: nat)
    requires n in Exec(c, steps).subscribers
    ensures Distinct(Exec(c, steps).subscribers[n].started)
  {
    hide Exec;
    Reachable(c, steps);
    assert MemberOk(c, Exec(c, steps), n, Exec(c, steps).subscribers[n]);
  }

  /** `s` is `log` with some messages left out: position i of `s` is position at[i] of `log`. */
  ghost predicate IsSubsequence(s: seq<Message>, log: seq<Message>, at: seq<nat>) {
    && |at| == |s|
    && (forall i :: 0 <= i < |s| ==> at[i] < |log| && log[at[i]] == s[i])
    && (forall i, j :: 0 <= i < j < |s| ==> at[i] < at[j])
  }

  lemma {:induction false} SubsequenceOf(s: seq<Message>, log: seq<Message>) returns (at: seq<nat>)
    requires Increasing(s) && Increasing(log) && forall i :: 0 <= i < |s| ==> s[i] in log
    ensures IsSubsequence(s, log, at)
  {
    if s == [] {
      at := [];
    } else {
      var n := |s| - 1;
      var before := SubsequenceOf(s[..n], log);
      assert s[n] in log;
      var k :| 0 <= k < |log| && log[k] == s[n];
      at := before + [k];
      forall i | 0 <= i < n ensures at[i] < k {
        assert s[..n][i].sequence < s[n].sequence;
      }
    }
  }

  /**
   * With ordering, whatever publishers, topics and full queues do, each handler is started on messages with strictly
   * increasing sequence numbers, and they form a subsequence of what its topic accepted.
   */
  lemma HandlerSeesOrder(c: Config, steps: seq<Step>, n: nat) returns (at: seq<nat>)
    requires c.ordering && n in Exec(c, steps).subscribers
    ensures var s := Exec(c, steps);
      var u := s.subscribers[n];
      && Increasing(u.started)
      && u.topic in s.topics && Increasing(s.topics[u.topic].log)
      && IsSubsequence(u.started, s.topics[u.topic].log, at)
  {
    hide Exec;
    Reachable(c, steps);
    var s := Exec(c, steps);
    var u := s.subscribers[n];
    assert MemberOk(c, s, n, u) && TopicOk(s, u.topic, s.topics[u.topic]);
    if Attempts(c) == 0 {
      NeverStarted(c, steps, n);
    } else {
      assert u.started <= Flow(u);
    }
    forall i | 0 <= i < |u.started| ensures u.started[i] in s.topics[u.topic].log {
      assert IsItem(u, u.started[i]);
    }
    at := SubsequenceOf(u.started, s.topics[u.topic].log);
  }

  // ---------- No attempt: a negative maxRetries, or one whose successor does not fit ----------

  predicate Untouched(u: Subscriber) {
    u.started == [] && u.succeeded == {} && !u.handler.Handling?
  }

  lemma NeverStartedStep(c: Config, s: State, step: Step)
    requires Attempts(c) == 0 && forall n :: n in s.subscribers ==> Untouched(s.subscribers[n])
    ensures forall n :: n in Apply(c, s, step).subscribers ==> Untouched(Apply(c, s, step).subscribers[n])
  {
    if step.Inside? && step.subscriber in s.subscribers {
      var u := s.subscribers[step.subscriber];
      assert Untouched(SubscriberApply(c, u, step.action));
    }
  }

  lemma {:induction false} NeverStartedAny(c: Config, steps: seq<Step>)
    requires Attempts(c) == 0
    ensures forall n :: n in Exec(c, steps).subscribers ==> Untouched(Exec(c, steps).subscribers[n])
  {
    if steps != [] {
      NeverStartedAny(c, steps[..|steps| - 1]);
      NeverStartedStep(c, Exec(c, steps[..|steps| - 1]), steps[|steps| - 1]);
    }
  }

  /** Then no handler is ever called, in any run. */
  lemma NeverStarted(c: Config, steps: seq<Step>, n: nat)
    requires Attempts(c) == 0 && n in Exec(c, steps).subscribers
    ensures var u := Exec(c, steps).subscribers[n]; u.started == [] && u.succeeded == {}
  {
    NeverStartedAny(c, steps);
    assert Untouched(Exec(c, steps).subscribers[n]);
  }

  lemma Do(c: Config, steps: seq<Step>, step: Step) returns (steps': seq<Step>)
    ensures steps' == steps + [step] && Exec(c, steps') == Apply(c, Exec(c, steps), step)
  {
    steps' := steps + [step];
    assert steps'[..|steps'| - 1] == steps;
  }

  /** One topic with one subscriber and one message in its channel. */
  lemma OnePublished(c: Config) returns (steps: seq<Step>)
    requires c.bufferSize > 0
    ensures var s, m := Exec(c, steps), Message(0, 1, 0);
      && 0 in s.topics && s.topics[0] == Topic([m], None, Waiting, [m], 0)
      && s.subscribers == map[0 := NewSubscriber(0)]
  {
    var m, topic := Message(0, 1, 0), Topic([], None, Waiting, [], 0);
    steps := Do(c, [], CreateTopic(0));
    assert Exec(c, steps) == State(0, map[0 := topic], map[]);
    hide Exec;
    steps := Do(c, steps, Subscribe(0, 0));
    assert Exec(c, steps) == State(0, map[0 := topic], map[0 := NewSubscriber(0)]);
    steps := Do(c, steps, Number(0, 0));
    assert Exec(c, steps).topics[0] == topic.(held := Some(m));
    steps := Do(c, steps, Enqueue(0));
    assert [] + [m] == [m];
  }

  /** That message about to be delivered to the subscriber. */
  lemma OneMessage(c: Config) returns (steps: seq<Step>, u: Subscriber)
    requires c.bufferSize > 0
    ensures 0 in Exec(c, steps).subscribers && Exec(c, steps).subscribers[0] == u
    ensures u == Begin(NewSubscriber(0), Message(0, 1, 0))
  {
    var m, empty := Message(0, 1, 0), NewSubscriber(0);
    steps := OnePublished(c);
    hide Exec;
    steps := Do(c, steps, Take(0));
    assert Exec(c, steps).topics[0] == Topic([], None, Took(m), [m], 1);
    steps := Do(c, steps, Snapshot(0));
    assert Exec(c, steps).topics[0].distributor.Distributing? && 0 in Exec(c, steps).topics[0].distributor.todo;
    steps := Do(c, steps, StartDelivery(0, 0));
    u := Begin(empty, m);
  }

  lemma DoInside(c: Config, steps: seq<Step>, n: nat, a: SubscriberStep) returns (steps': seq<Step>)
    requires n in Exec(c, steps).subscribers
    ensures n in Exec(c, steps').subscribers
    ensures Exec(c, steps').subscribers[n] == SubscriberApply(c, Exec(c, steps).subscribers[n], a)
  {
    steps' := Do(c, steps, Inside(n, a));
  }

  /** What its subscriber does with that message when no attempt is made. */
  function Skip(c: Config, u: Subscriber): Subscriber {
    Acknowledge(c, SubscriberApply(c, SubscriberApply(c, Send(c, u), Receive), Deduplicate))
  }

  function Send(c: Config, u: Subscriber): Subscriber {
    SubscriberApply(c, SubscriberApply(c, SubscriberApply(c, u, Deliver(1)), Deliver(1)), Deliver(1))
  }

  function Acknowledge(c: Config, u: Subscriber): Subscriber {
    SubscriberApply(c, SubscriberApply(c, SubscriberApply(c, u, SendAck), TakeAck), DeletePending)
  }

  lemma Acknowledged(c: Config, u: Subscriber, m: Message)
    requires c.bufferSize > 0 && m.sequence == 1
    requires u.handler == Succeeded(m) && u.acks == [] && u.acker == None && u.items == map[1 := Item(m, InHandler)]
    ensures var u' := Acknowledge(c, u);
      && u'.items == map[1 := Item(m, Confirmed)] && u'.pending == u.pending - {1}
      && u'.started == u.started && u'.succeeded == u.succeeded
  {
    var u1 := SubscriberApply(c, u, SendAck);
    assert u1 == u.(items := map[1 := Item(m, AckQueued)], handler := Idle, acks := [1]);
    var u2 := SubscriberApply(c, u1, TakeAck);
    assert u2 == u1.(items := map[1 := Item(m, Acking)], acks := [], acker := Some(1));
  }

  lemma Skipped(c: Config, m: Message)
    requires c.guarantee && c.bufferSize > 0 && Attempts(c) == 0 && m.sequence == 1
    ensures var u' := Skip(c, Begin(NewSubscriber(0), m));
      u'.Accepted(1) && 1 !in u'.pending && 1 !in u'.succeeded && u'.started == []
  {
    var u3 := Send(c, Begin(NewSubscriber(0), m));
    var u4 := SubscriberApply(c, u3, Receive);
    assert u4 == u3.(items := map[1 := Item(m, InHandler)], handler := Received(m), queue := []);
    var u5 := SubscriberApply(c, u4, Deduplicate);
    hide Acknowledge, Send;
    Acknowledged(c, u5, m);
  }

  /**
   * For every such configuration there is a run in which a message is accepted, acknowledged and forgotten although its
   * handler has never been called.
   */
  lemma NoAttemptLosesMessages(c: Config) returns (steps: seq<Step>)
    requires c.guarantee && c.bufferSize > 0 && Attempts(c) == 0
    ensures 0 in Exec(c, steps).subscribers
    ensures var u := Exec(c, steps).subscribers[0];
      u.Accepted(1) && 1 !in u.pending && 1 !in u.succeeded && u.started == []
  {
    var u;
    steps, u := OneMessage(c);
    Skipped(c, Message(0, 1, 0));
    hide Exec, SubscriberApply;
    steps := DoInside(c, steps, 0, Deliver(1));
    steps := DoInside(c, steps, 0, Deliver(1));
    steps := DoInside(c, steps, 0, Deliver(1));
    steps := DoInside(c, steps, 0, Receive);
    steps := DoInside(c, steps, 0, Deduplicate);
    steps := DoInside(c, steps, 0, SendAck);
    steps := DoInside(c, steps, 0, TakeAck);
    steps := DoInside(c, steps, 0, DeletePending);
    assert Exec(c, steps).subscribers[0] == Skip(c, u);
  }

  /**
   * The delivery guarantee holds in every run if and only if maxRetries is neither negative nor the largest int: these
   * are the values for which the loop over `range maxRetries + 1` runs.
   */
  lemma GuaranteeIff(c: Config)
    requires c.guarantee && c.bufferSize > 0 && IsInt64(c.maxRetries)
    ensures (forall steps, n, id :: Guaranteed(Exec(c, steps), n, id)) <==> 0 <= c.maxRetries < INT64_MAX
  {
    hide Exec;
    if 0 <= c.maxRetries < INT64_MAX {
      forall steps, n, id ensures Guaranteed(Exec(c, steps), n, id) {
        LeavesPendingOnlyWhenHandled(c, steps, n, id);
      }
    } else {
      RoundsIs(c.maxRetries);
      var steps := NoAttemptLosesMessages(c);
      assert !Guaranteed(Exec(c, steps), 0, 1);
    }
  }
}
