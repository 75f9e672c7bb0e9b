/**
 * Nothing gets stuck in the publish/subscribe system: every subscriber can come to rest with its messages handled, and
 * every distributor can finish with the message that it has.
 */
module PubSubProgress {
  import opened PubSub

  // ---------- The goroutines of one subscriber ----------

  /** The subscriber after these actions of its goroutines. */
  function Run(c: Config, u: Subscriber, actions: seq<SubscriberStep>): Subscriber
    decreases |actions|
  {
    if actions == [] then u else Run(c, SubscriberApply(c, u, actions[0]), actions[1..])
  }

  lemma {:induction false} RunConcat(c: Config, u: Subscriber, a: seq<SubscriberStep>, b: seq<SubscriberStep>)
    ensures Run(c, u, a + b) == Run(c, Run(c, u, a), b)
    decreases |a|
  {
    if a == [] {
      assert a + b == b;
    } else {
      assert (a + b)[0] == a[0] && (a + b)[1..] == a[1..] + b;
      RunConcat(c, SubscriberApply(c, u, a[0]), a[1..], b);
    }
  }

  function Inner(n: nat, actions: seq<SubscriberStep>): seq<Step> {
    seq(|actions|, i requires 0 <= i < |actions| => Inside(n, actions[i]))
  }

  lemma {:induction false} InnerRun(c: Config, steps: seq<Step>, n: nat, actions: seq<SubscriberStep>)
    requires n in Exec(c, steps).subscribers
    ensures var s, s' := Exec(c, steps), Exec(c, steps + Inner(n, actions));
      s' == s.(subscribers := s.subscribers[n := Run(c, s.subscribers[n], actions)])
    decreases |actions|
  {
    var s := Exec(c, steps);
    if actions == [] {
      assert steps + Inner(n, actions) == steps;
      assert s.subscribers[n := s.subscribers[n]] == s.subscribers;
    } else {
      var first, rest := Inside(n, actions[0]), actions[1..];
      ExecSnoc(c, steps, first);
      InnerRun(c, steps + [first], n, rest);
      assert Inner(n, actions) == [first] + Inner(n, rest);
      assert steps + Inner(n, actions) == (steps + [first]) + Inner(n, rest);
      hide Exec, SubscriberApply;
      var u := SubscriberApply(c, s.subscribers[n], actions[0]);
      assert s.subscribers[n := u][n := Run(c, u, rest)] == s.subscribers[n := Run(c, u, rest)];
    }
  }

  function DeliveringIds(u: Subscriber): set<nat> {
    set id | id in u.items && u.IsDelivering(id)
  }

  function Rank(u: Subscriber, id: nat): nat {
    if id !in u.items then 0 else
    match u.items[id].place
    case Delivering(Checking) => 4
    case Delivering(AddingPending) => 3
    case Delivering(Sending) => 2
    case Delivering(RemovingPending) => 1
    case _ => 0
  }

  /** No message has failed or been given up that had not before. */
  ghost predicate FailsNothing(u: Subscriber, u': Subscriber) {
    && u'.items.Keys == u.items.Keys
    && forall id: nat :: u'.At(id, Failed) || u'.At(id, Abandoned) ==> u.At(id, Failed) || u.At(id, Abandoned)
  }

  lemma DeliverMoves(c: Config, u: Subscriber, id: nat)
    requires SubscriberOk(c, u) && u.IsDelivering(id)
    ensures var u' := SubscriberApply(c, u, Deliver(id));
      && SubscriberOk(c, u') && Rank(u', id) < Rank(u, id) && FailsNothing(u, u')
      && DeliveringIds(u') == if u'.IsDelivering(id) then DeliveringIds(u) else DeliveringIds(u) - {id}
  {
    DeliverOk(c, u, id);
    assert ItemOk(c, u, id);
    hide SubscriberOk;
  }

  lemma FailsNothingTwice(u: Subscriber, v: Subscriber, w: Subscriber)
    requires FailsNothing(u, v) && FailsNothing(v, w)
    ensures FailsNothing(u, w)
  {
  }

  /** A delivery that has begun can be finished. */
  lemma {:induction false} FinishDelivery(c: Config, u: Subscriber, id: nat) returns (actions: seq<SubscriberStep>)
    requires SubscriberOk(c, u) && u.IsDelivering(id)
    ensures var u' := Run(c, u, actions);
      SubscriberOk(c, u') && FailsNothing(u, u') && DeliveringIds(u') == DeliveringIds(u) - {id} && !u'.IsDelivering(id)
    decreases Rank(u, id)
  {
    hide SubscriberOk, FailsNothing, SubscriberApply, DeliveringIds, Rank;
    DeliverMoves(c, u, id);
    var v := SubscriberApply(c, u, Deliver(id));
    actions := [Deliver(id)];
    assert actions[1..] == [] && Run(c, u, actions) == Run(c, v, []);
    if v.IsDelivering(id) {
      var rest := FinishDelivery(c, v, id);
      actions := [Deliver(id)] + rest;
      assert actions[1..] == rest;
      FailsNothingTwice(u, v, Run(c, v, rest));
    }
  }

  lemma {:induction false} FinishDeliveries(c: Config, u: Subscriber) returns (actions: seq<SubscriberStep>)
    requires SubscriberOk(c, u)
    ensures var u' := Run(c, u, actions); SubscriberOk(c, u') && FailsNothing(u, u') && DeliveringIds(u') == {}
    decreases |DeliveringIds(u)|
  {
    hide SubscriberOk, SubscriberApply;
    actions := [];
    if id :| id in DeliveringIds(u) {
      var first := FinishDelivery(c, u, id);
      var v := Run(c, u, first);
      var rest := FinishDeliveries(c, v);
      actions := first + rest;
      RunConcat(c, u, first, rest);
      FailsNothingTwice(u, v, Run(c, v, rest));
    }
  }

  /** What the processing goroutine and the acknowledging one have still to do. */
  function ToDo(u: Subscriber): nat {
    6 * |u.queue| + 2 * |u.acks| + (if u.acker.Some? then 1 else 0) +
    match u.handler case Idle => 0 case Received(_) => 5 case Handling(_, _) => 4 case Succeeded(_) => 3
  }

  /** The next action of one of the two, with handlers that succeed. */
  function NextAction(u: Subscriber): SubscriberStep {
    if u.handler.Received? then Deduplicate
    else if u.handler.Handling? then Attempt(true)
    else if u.handler.Succeeded? then SendAck
    else if u.queue != [] then Receive
    else if u.acker.Some? then DeletePending
    else TakeAck
  }

  lemma ActionMoves(c: Config, u: Subscriber)
    requires SubscriberOk(c, u) && DeliveringIds(u) == {} && !IsQuiet(u)
    ensures var u' := SubscriberApply(c, u, NextAction(u));
      SubscriberOk(c, u') && FailsNothing(u, u') && DeliveringIds(u') == {} && ToDo(u') < ToDo(u)
  {
    var a := NextAction(u);
    var u' := SubscriberApply(c, u, a);
    SubscriberStepOk(c, u, a);
    ItemsStay(c, u, a);
    assert forall id :: id in u.items && u.items[id].place.Delivering? ==> id in DeliveringIds(u);
    hide SubscriberOk;
  }

  lemma {:induction false} FinishHandling(c: Config, u: Subscriber) returns (actions: seq<SubscriberStep>)
    requires SubscriberOk(c, u) && DeliveringIds(u) == {}
    ensures var u' := Run(c, u, actions); SubscriberOk(c, u') && FailsNothing(u, u') && IsQuiet(u')
    decreases ToDo(u)
  {
    hide SubscriberOk, FailsNothing, SubscriberApply, DeliveringIds, ToDo, IsQuiet;
    if IsQuiet(u) {
      actions := [];
      assert FailsNothing(u, u) by { SameFails(u); }
    } else {
      ActionMoves(c, u);
      var v := SubscriberApply(c, u, NextAction(u));
      var rest := FinishHandling(c, v);
      actions := [NextAction(u)] + rest;
      assert actions[1..] == rest;
      FailsNothingTwice(u, v, Run(c, v, rest));
    }
  }

  lemma SameFails(u: Subscriber)
    ensures FailsNothing(u, u)
  {
  }

  lemma AtRest(c: Config, u: Subscriber, id: nat)
    requires SubscriberOk(c, u) && IsQuiet(u) && Attempts(c) > 0 && u.Accepted(id)
    ensures u.At(id, Failed) || u.At(id, Abandoned) || id in u.succeeded
  {
    assert ItemOk(c, u, id);
  }

  /**
   * From every reachable state a subscriber can come to rest by steps of its own goroutines and deliverers; if its
   * handlers succeed, every message that it has accepted is handled, but for those that had failed or been given up.
   */
  lemma ComesToRest(c: Config, steps: seq<Step>, n: nat) returns (actions: seq<SubscriberStep>)
    requires n in Exec(c, steps).subscribers
    ensures var s, s' := Exec(c, steps), Exec(c, steps + Inner(n, actions));
      && s'.topics == s.topics && s'.subscribers.Keys == s.subscribers.Keys && IsQuiet(s'.subscribers[n])
      && (Attempts(c) > 0 ==> forall id: nat :: s'.subscribers[n].Accepted(id) ==>
            s.subscribers[n].At(id, Failed) || s.subscribers[n].At(id, Abandoned) || id in s'.subscribers[n].succeeded)
  {
    Reachable(c, steps);
    var u := Exec(c, steps).subscribers[n];
    assert MemberOk(c, Exec(c, steps), n, u);
    hide Exec, SubscriberOk, SubscriberApply, Run, IsQuiet, Subscriber.Accepted;
    var first := FinishDeliveries(c, u);
    var v := Run(c, u, first);
    var rest := FinishHandling(c, v);
    actions := first + rest;
    RunConcat(c, u, first, rest);
    InnerRun(c, steps, n, actions);
    FailsNothingTwice(u, v, Run(c, v, rest));
    var u' := Run(c, u, actions);
    if Attempts(c) > 0 {
      forall id: nat | u'.Accepted(id) ensures u.At(id, Failed) || u.At(id, Abandoned) || id in u'.succeeded {
        AtRest(c, u', id);
      }
    }
  }

  // ---------- The distributor of a topic ----------

  function StillDelivering(s: State, id: nat): set<nat> {
    set n | n in s.subscribers && s.subscribers[n].IsDelivering(id)
  }

  /** Only the insides of subscribers have changed, who have met the same messages. */
  ghost predicate SameOutside(s: State, s': State) {
    s'.topics == s.topics && SameSubscribers(s, s')
  }

  ghost predicate SameSubscribers(s: State, s': State) {
    && s'.subscribers.Keys == s.subscribers.Keys
    && forall n :: n in s.subscribers ==> s'.subscribers[n].topic == s.subscribers[n].topic
  }

  lemma {:induction false} RunKeepsTopic(c: Config, u: Subscriber, actions: seq<SubscriberStep>)
    ensures Run(c, u, actions).topic == u.topic
    decreases |actions|
  {
    if actions != [] {
      ItemsStay(c, u, actions[0]);
      RunKeepsTopic(c, SubscriberApply(c, u, actions[0]), actions[1..]);
    }
  }

  lemma SubscriberIsOk(c: Config, steps: seq<Step>, n: nat)
    requires n in Exec(c, steps).subscribers
    ensures SubscriberOk(c, Exec(c, steps).subscribers[n])
  {
    hide Exec, SubscriberOk;
    Reachable(c, steps);
    assert MemberOk(c, Exec(c, steps), n, Exec(c, steps).subscribers[n]);
  }

  lemma OneLess(s: State, n: nat, u: Subscriber, id: nat)
    requires n in s.subscribers && !u.IsDelivering(id) && u.topic == s.subscribers[n].topic
    ensures var s' := s.(subscribers := s.subscribers[n := u]);
      StillDelivering(s', id) == StillDelivering(s, id) - {n} && SameOutside(s, s')
  {
  }

  /** The deliveries of a message to one subscriber. */
  lemma EndDelivery(c: Config, steps: seq<Step>, id: nat, n: nat) returns (more: seq<Step>)
    requires n in StillDelivering(Exec(c, steps), id)
    ensures SameOutside(Exec(c, steps), Exec(c, steps + more))
    ensures StillDelivering(Exec(c, steps + more), id) == StillDelivering(Exec(c, steps), id) - {n}
  {
    hide Exec, SubscriberOk, Run, SameOutside, FailsNothing;
    var u := Exec(c, steps).subscribers[n];
    SubscriberIsOk(c, steps, n);
    var actions := FinishDelivery(c, u, id);
    InnerRun(c, steps, n, actions);
    RunKeepsTopic(c, u, actions);
    more := Inner(n, actions);
    OneLess(Exec(c, steps), n, Run(c, u, actions), id);
  }

  lemma NoneDelivering(s: State, id: nat)
    requires StillDelivering(s, id) == {}
    ensures AllDelivered(s, id)
  {
    assert forall n :: n in s.subscribers && s.subscribers[n].IsDelivering(id) ==> n in StillDelivering(s, id);
  }

  lemma SameOutsideTwice(s: State, t: State, r: State)
    requires SameOutside(s, t) && SameOutside(t, r)
    ensures SameOutside(s, r)
  {
  }

  /** All deliveries of a message that have begun can be finished. */
  lemma {:induction false} EndDeliveries(c: Config, steps: seq<Step>, id: nat) returns (more: seq<Step>)
    ensures SameOutside(Exec(c, steps), Exec(c, steps + more)) && AllDelivered(Exec(c, steps + more), id)
    decreases |StillDelivering(Exec(c, steps), id)|
  {
    hide Exec, SameOutside, AllDelivered, StillDelivering;
    if n :| n in StillDelivering(Exec(c, steps), id) {
      var first := EndDelivery(c, steps, id, n);
      var rest := EndDeliveries(c, steps + first, id);
      more := first + rest;
      assert steps + more == steps + first + rest;
      SameOutsideTwice(Exec(c, steps), Exec(c, steps + first), Exec(c, steps + more));
    } else {
      more := [];
      assert steps + more == steps;
      assert StillDelivering(Exec(c, steps), id) == {};
      NoneDelivering(Exec(c, steps), id);
      assert SameOutside(Exec(c, steps), Exec(c, steps)) by { SameAsItself(Exec(c, steps)); }
    }
  }

  lemma SameAsItself(s: State)
    ensures SameOutside(s, s)
  {
  }

  /** The topic's distributor is done, and has taken so many messages; nobody has subscribed meanwhile. */
  ghost predicate Done(s: State, s': State, t: int, taken: nat) {
    t in s'.topics && s'.topics[t].distributor.Waiting? && s'.topics[t].taken == taken && SameSubscribers(s, s')
  }

  /** The delivery to one more subscriber is started, or the distributor is done. */
  lemma HandOne(c: Config, s: State, t: int, step: Step)
    requires t in s.topics && s.topics[t].distributor.Distributing? && TodoOk(s, t, s.topics[t])
    requires AllDelivered(s, s.topics[t].distributor.message.sequence)
    requires var todo := s.topics[t].distributor.todo;
      if todo == {} then step == Distributed(t) else step.StartDelivery? && step.topic == t && step.subscriber in todo
    ensures var s', d := Apply(c, s, step), s.topics[t].distributor;
      && t in s'.topics && s'.topics[t].taken == s.topics[t].taken && SameSubscribers(s, s')
      && s'.topics[t].distributor == if d.todo == {} then Waiting else Distributing(d.message, d.todo - {step.subscriber})
  {
    hide AllDelivered;
  }

  lemma {:induction false} HandOut(c: Config, steps: seq<Step>, t: int) returns (more: seq<Step>)
    requires t in Exec(c, steps).topics && Exec(c, steps).topics[t].distributor.Distributing?
    ensures Done(Exec(c, steps), Exec(c, steps + more), t, Exec(c, steps).topics[t].taken)
    decreases |Exec(c, steps).topics[t].distributor.todo|
  {
    hide Exec, AllDelivered, Apply, TopicOk, TodoOk, MemberOk;
    var d := Exec(c, steps).topics[t].distributor;
    var ended := EndDeliveries(c, steps, d.message.sequence);
    Reachable(c, steps + ended);
    var step := Distributed(t);
    if n :| n in d.todo { step := StartDelivery(t, n); }
    assert d.todo != {} ==> step.StartDelivery?;
    HandOne(c, Exec(c, steps + ended), t, step);
    ExecSnoc(c, steps + ended, step);
    more := ended + [step];
    assert steps + more == steps + ended + [step];
    if d.todo != {} {
      var rest := HandOut(c, steps + more, t);
      assert steps + (more + rest) == steps + more + rest;
      more := more + rest;
    }
  }

  /** The lock is given back, and the distributor comes to the point where it knows its subscribers. */
  lemma GetGoing(c: Config, steps: seq<Step>, t: int) returns (more: seq<Step>)
    requires t in Exec(c, steps).topics
    requires var p := Exec(c, steps).topics[t]; !p.distributor.Waiting? || p.channel != []
    ensures var s, s' := Exec(c, steps), Exec(c, steps + more);
      && t in s'.topics && s'.topics[t].distributor.Distributing? && s'.subscribers == s.subscribers
      && s'.topics[t].taken == s.topics[t].taken + if s.topics[t].distributor.Waiting? then 1 else 0
  {
    hide Exec;
    more := [];
    assert steps + more == steps;
    if Exec(c, steps).topics[t].held.Some? {
      ExecSnoc(c, steps + more, Enqueue(t));
      more := more + [Enqueue(t)];
      assert steps + more == steps + [Enqueue(t)];
    }
    if Exec(c, steps + more).topics[t].distributor.Waiting? {
      ExecSnoc(c, steps + more, Take(t));
      assert steps + (more + [Take(t)]) == steps + more + [Take(t)];
      more := more + [Take(t)];
    }
    if Exec(c, steps + more).topics[t].distributor.Took? {
      ExecSnoc(c, steps + more, Snapshot(t));
      assert steps + (more + [Snapshot(t)]) == steps + more + [Snapshot(t)];
      more := more + [Snapshot(t)];
    }
  }

  lemma {:induction false} SinceStays(c: Config, steps: seq<Step>, more: seq<Step>, n: nat)
    requires n in Exec(c, steps).subscribers
    ensures n in Exec(c, steps + more).subscribers && Since(c, steps + more, n) == Since(c, steps, n)
  {
    if more == [] {
      assert steps + more == steps;
    } else {
      var init := more[..|more| - 1];
      assert (steps + more)[..|steps + more| - 1] == steps + init;
      SinceStays(c, steps, init, n);
      SubscribersStay(c, Exec(c, steps + init), more[|more| - 1], n);
    }
  }

  lemma SubscribersStay(c: Config, s: State, step: Step, n: nat)
    requires n in s.subscribers
    ensures n in Apply(c, s, step).subscribers
  {
  }

  /**
   * From every reachable state in which a topic has a message to distribute, its distributor can finish with it; and then
   * every subscriber that the topic had at the beginning has met that message, unless the distributor had turned to its
   * subscribers before that one subscribed.
   */
  lemma DistributorFinishes(c: Config, steps: seq<Step>, t: int) returns (more: seq<Step>)
    requires t in Exec(c, steps).topics
    requires var p := Exec(c, steps).topics[t]; !p.distributor.Waiting? || p.channel != []
    ensures var s, s' := Exec(c, steps), Exec(c, steps + more);
      var taken := s.topics[t].taken + if s.topics[t].distributor.Waiting? then 1 else 0;
      && Done(s, s', t, taken) && 0 < taken <= |s'.topics[t].log|
      && forall n :: n in s.subscribers && s.subscribers[n].topic == t && Since(c, steps, n) < taken ==>
           s'.topics[t].log[taken - 1].sequence in s'.subscribers[n].items
  {
    hide Exec, Since, SubscriberOk, MemberOk, Increasing;
    var first := GetGoing(c, steps, t);
    var rest := HandOut(c, steps + first, t);
    more := first + rest;
    assert steps + more == steps + first + rest;
    var s, s' := Exec(c, steps), Exec(c, steps + more);
    var taken := s'.topics[t].taken;
    Reachable(c, steps + first);
    Reachable(c, steps + more);
    assert TopicOk(Exec(c, steps + first), t, Exec(c, steps + first).topics[t]) && TopicOk(s', t, s'.topics[t]);
    forall n | n in s.subscribers && s.subscribers[n].topic == t && Since(c, steps, n) < taken
      ensures s'.topics[t].log[taken - 1].sequence in s'.subscribers[n].items
    {
      SinceStays(c, steps, more, n);
      MeetsEveryMessage(c, steps + more, n);
    }
  }
}
