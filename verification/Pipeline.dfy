/**
 * The multi-stage pipeline: stages joined by bounded channels, any number of processors for each stage. One step is one
 * channel operation or one call of a stage's function.
 */
module Pipeline {

  datatype Option<T> = None | Some(value: T)

  /** What ProcessorFn returns; `Nothing` is a nil result without an error. */
  datatype Outcome<T> = Value(value: T) | Nothing | Error

  /**
   * The stage functions, the capacity of each of the |stages| + 1 channels, and the stage of each processor.
   */
  datatype Config<!T> = Config(stages: seq<T -> Outcome<T>>, capacity: seq<nat>, stageOf: seq<nat>)

  datatype Slot<T> = Idle | Processing(item: T) | Sending(result: T) | Stopped

  /**
   * `accepted` and `delivered` record what SubmitData took and what left the last channel; `lost` is what the results
   * given up after a cancellation would have led to.
   */
  datatype State<T> = State(
    channels: seq<seq<T>>,
    slots: seq<Slot<T>>,
    cancelled: bool,
    accepted: seq<T>,
    delivered: multiset<T>,
    lost: multiset<T>)

  /**
   * In `SubmitTo` and `SendTo` a waiting receiver takes the value from the sender without the buffer. A submission that
   * was let through before the cancellation may still be taken after it.
   */
  datatype Step<T> =
    | Submit(item: T)
    | SubmitTo(item: T, receiver: nat)
    | Receive(processor: nat)
    | Process(processor: nat)
    | Send(processor: nat)
    | SendTo(processor: nat, receiver: nat)
    | Collect
    | Cancel
    | Stop(processor: nat)

  ghost predicate ConfigOk<T>(c: Config<T>) {
    && |c.capacity| == |c.stages| + 1
    && forall w :: 0 <= w < |c.stageOf| ==> c.stageOf[w] < |c.stages|
  }

  ghost predicate Shape<T>(c: Config<T>, s: State<T>) {
    |s.channels| == |c.stages| + 1 && |s.slots| == |c.stageOf|
  }

  function Set<T>(s: State<T>, w: nat, slot: Slot<T>): State<T>
    requires w < |s.slots|
  {
    s.(slots := s.slots[w := slot])
  }

  predicate CanBuffer<T>(c: Config<T>, s: State<T>, k: nat)
    requires ConfigOk(c) && Shape(c, s) && k <= |c.stages|
  {
    |s.channels[k]| < c.capacity[k]
  }

  function Buffer<T>(s: State<T>, k: nat, item: T): State<T>
    requires k < |s.channels|
  {
    s.(channels := s.channels[k := s.channels[k] + [item]])
  }

  /** Someone waits at the empty channel k: an idle processor of stage k, or collectResults at the last channel. */
  predicate CanHand<T>(c: Config<T>, s: State<T>, k: nat, receiver: nat)
    requires ConfigOk(c) && Shape(c, s) && k <= |c.stages|
  {
    && s.channels[k] == []
    && (k < |c.stages| ==> receiver < |c.stageOf| && c.stageOf[receiver] == k && s.slots[receiver].Idle?)
  }

  ghost function Hand<T>(c: Config<T>, s: State<T>, k: nat, item: T, receiver: nat): State<T>
    requires ConfigOk(c) && Shape(c, s) && k <= |c.stages| && CanHand(c, s, k, receiver)
  {
    if k < |c.stages| then Set(s, receiver, Processing(item)) else s.(delivered := s.delivered + multiset{item})
  }

  ghost predicate Enabled<T>(c: Config<T>, s: State<T>, step: Step<T>)
    requires ConfigOk(c) && Shape(c, s)
  {
    match step
    case Submit(_) => CanBuffer(c, s, 0)
    case SubmitTo(_, r) => CanHand(c, s, 0, r)
    case Receive(w) => w < |s.slots| && s.slots[w].Idle? && s.channels[c.stageOf[w]] != []
    case Process(w) => w < |s.slots| && s.slots[w].Processing?
    case Send(w) => w < |s.slots| && s.slots[w].Sending? && CanBuffer(c, s, c.stageOf[w] + 1)
    case SendTo(w, r) => w < |s.slots| && s.slots[w].Sending? && CanHand(c, s, c.stageOf[w] + 1, r)
    case Collect => s.channels[|c.stages|] != []
    case Cancel => true
    case Stop(w) => s.cancelled && w < |s.slots| && (s.slots[w].Idle? || s.slots[w].Sending?)
  }

  /** The effect of an enabled step; a step that cannot happen changes nothing. */
  ghost function Apply<T>(c: Config<T>, s: State<T>, step: Step<T>): State<T>
    requires ConfigOk(c) && Shape(c, s)
    ensures Shape(c, Apply(c, s, step))
  {
    if !Enabled(c, s, step) then s else
    match step
    case Submit(item) => Buffer(s, 0, item).(accepted := s.accepted + [item])
    case SubmitTo(item, r) => Hand(c, s, 0, item, r).(accepted := s.accepted + [item])
    case Receive(w) =>
      var k := c.stageOf[w];
      Set(s, w, Processing(s.channels[k][0])).(channels := s.channels[k := s.channels[k][1..]])
    case Process(w) =>
      Set(s, w, match c.stages[c.stageOf[w]](s.slots[w].item)
                case Value(v) => Sending(v)
                case _ => Idle)
    case Send(w) => Set(Buffer(s, c.stageOf[w] + 1, s.slots[w].result), w, Idle)
    case SendTo(w, r) => Set(Hand(c, s, c.stageOf[w] + 1, s.slots[w].result, r), w, Idle)
    case Collect =>
      var last := s.channels[|c.stages|];
      s.(channels := s.channels[|c.stages| := last[1..]], delivered := s.delivered + multiset{last[0]})
    case Cancel => s.(cancelled := true)
    case Stop(w) => Set(s, w, Stopped).(lost := s.lost + SlotImage(c, w, s.slots[w]))
  }

  ghost function Start<T>(c: Config<T>): State<T>
    requires ConfigOk(c)
    ensures Shape(c, Start(c))
  {
    State(seq(|c.stages| + 1, _ => []), seq(|c.stageOf|, _ => Idle), false, [], multiset{}, multiset{})
  }

  ghost function Exec<T>(c: Config<T>, steps: seq<Step<T>>): State<T>
    requires ConfigOk(c)
    ensures Shape(c, Exec(c, steps))
  {
    if steps == [] then Start(c) else Apply(c, Exec(c, steps[..|steps| - 1]), steps[|steps| - 1])
  }

  // ---------- What an item leads to ----------

  /** What becomes of an item that waits at channel k. */
  ghost function Image<T>(c: Config<T>, k: nat, item: T): multiset<T>
    requires ConfigOk(c)
    decreases |c.stages| - k
  {
    if k >= |c.stages| then multiset{item} else
    match c.stages[k](item)
    case Value(v) => Image(c, k + 1, v)
    case _ => multiset{}
  }

  /** How often x comes out of the items that wait at channel k. */
  ghost function Yield<T>(c: Config<T>, k: nat, items: seq<T>, x: T): nat
    requires ConfigOk(c)
  {
    if items == [] then 0 else Yield(c, k, items[..|items| - 1], x) + Image(c, k, items[|items| - 1])[x]
  }

  ghost function SlotImage<T>(c: Config<T>, w: nat, slot: Slot<T>): multiset<T>
    requires ConfigOk(c) && w < |c.stageOf|
  {
    match slot
    case Processing(item) => Image(c, c.stageOf[w], item)
    case Sending(result) => Image(c, c.stageOf[w] + 1, result)
    case _ => multiset{}
  }

  ghost function ChannelYield<T>(c: Config<T>, channels: seq<seq<T>>, x: T): nat
    requires ConfigOk(c)
  {
    if channels == [] then 0
    else ChannelYield(c, channels[..|channels| - 1], x) + Yield(c, |channels| - 1, channels[|channels| - 1], x)
  }

  ghost function SlotYield<T>(c: Config<T>, slots: seq<Slot<T>>, x: T): nat
    requires ConfigOk(c) && |slots| <= |c.stageOf|
  {
    if slots == [] then 0
    else SlotYield(c, slots[..|slots| - 1], x) + SlotImage(c, |slots| - 1, slots[|slots| - 1])[x]
  }

  /**
   * Conservation: what is delivered, what is lost, and what all queued and in-progress items will yield make up what
   * the accepted items yield, for every output x.
   */
  ghost predicate Conserved<T>(c: Config<T>, s: State<T>, x: T)
    requires ConfigOk(c) && Shape(c, s)
  {
    s.delivered[x] + s.lost[x] + ChannelYield(c, s.channels, x) + SlotYield(c, s.slots, x) == Yield(c, 0, s.accepted, x)
  }

  lemma {:induction false} ChannelUpdate<T>(c: Config<T>, channels: seq<seq<T>>, k: nat, items: seq<T>, x: T)
    requires ConfigOk(c) && k < |channels|
    ensures ChannelYield(c, channels[k := items], x) + Yield(c, k, channels[k], x) ==
            ChannelYield(c, channels, x) + Yield(c, k, items, x)
  {
    var n := |channels| - 1;
    if k < n {
      assert channels[k := items][..n] == channels[..n][k := items];
      ChannelUpdate(c, channels[..n], k, items, x);
    } else {
      assert channels[k := items][..n] == channels[..n];
    }
  }

  lemma {:induction false} SlotUpdate<T>(c: Config<T>, slots: seq<Slot<T>>, w: nat, slot: Slot<T>, x: T)
    requires ConfigOk(c) && |slots| <= |c.stageOf| && w < |slots|
    ensures SlotYield(c, slots[w := slot], x) + SlotImage(c, w, slots[w])[x] ==
            SlotYield(c, slots, x) + SlotImage(c, w, slot)[x]
  {
    var n := |slots| - 1;
    if w < n {
      assert slots[w := slot][..n] == slots[..n][w := slot];
      SlotUpdate(c, slots[..n], w, slot, x);
    } else {
      assert slots[w := slot][..n] == slots[..n];
    }
  }

  lemma YieldSnoc<T>(c: Config<T>, k: nat, items: seq<T>, item: T, x: T)
    requires ConfigOk(c)
    ensures Yield(c, k, items + [item], x) == Yield(c, k, items, x) + Image(c, k, item)[x]
  {
    assert (items + [item])[..|items|] == items;
  }

  lemma {:induction false} YieldHead<T>(c: Config<T>, k: nat, items: seq<T>, x: T)
    requires ConfigOk(c) && items != []
    ensures Yield(c, k, items, x) == Image(c, k, items[0])[x] + Yield(c, k, items[1..], x)
  {
    if |items| > 1 {
      YieldHead(c, k, items[..|items| - 1], x);
      assert items[1..][..|items| - 2] == items[..|items| - 1][1..];
    }
  }

  lemma BufferYield<T>(c: Config<T>, s: State<T>, k: nat, item: T, x: T)
    requires ConfigOk(c) && Shape(c, s) && k <= |c.stages|
    ensures ChannelYield(c, Buffer(s, k, item).channels, x) == ChannelYield(c, s.channels, x) + Image(c, k, item)[x]
  {
    hide Image;
    ChannelUpdate(c, s.channels, k, s.channels[k] + [item], x);
    YieldSnoc(c, k, s.channels[k], item, x);
  }

  lemma TakeYield<T>(c: Config<T>, s: State<T>, k: nat, x: T)
    requires ConfigOk(c) && Shape(c, s) && k <= |c.stages| && s.channels[k] != []
    ensures ChannelYield(c, s.channels[k := s.channels[k][1..]], x) + Image(c, k, s.channels[k][0])[x] ==
            ChannelYield(c, s.channels, x)
  {
    hide Image;
    ChannelUpdate(c, s.channels, k, s.channels[k][1..], x);
    YieldHead(c, k, s.channels[k], x);
  }

  lemma HandYield<T>(c: Config<T>, s: State<T>, k: nat, item: T, r: nat, x: T)
    requires ConfigOk(c) && Shape(c, s) && k <= |c.stages| && CanHand(c, s, k, r)
    ensures var s' := Hand(c, s, k, item, r);
      s'.delivered[x] + SlotYield(c, s'.slots, x) == s.delivered[x] + SlotYield(c, s.slots, x) + Image(c, k, item)[x]
  {
    if k < |c.stages| {
      hide Image, SlotYield;
      SlotUpdate(c, s.slots, r, Processing(item), x);
    } else {
      hide SlotYield;
    }
  }

  lemma SubmitOk<T>(c: Config<T>, s: State<T>, step: Step<T>, x: T)
    requires ConfigOk(c) && Shape(c, s) && Conserved(c, s, x) && Enabled(c, s, step) && (step.Submit? || step.SubmitTo?)
    ensures Conserved(c, Apply(c, s, step), x)
  {
    YieldSnoc(c, 0, s.accepted, step.item, x);
    hide Image, Yield, SlotYield, ChannelYield;
    if step.Submit? { BufferYield(c, s, 0, step.item, x); } else { HandYield(c, s, 0, step.item, step.receiver, x); }
  }

  lemma ReceiveOk<T>(c: Config<T>, s: State<T>, w: nat, x: T)
    requires ConfigOk(c) && Shape(c, s) && Conserved(c, s, x) && Enabled(c, s, Receive(w))
    ensures Conserved(c, Apply(c, s, Receive(w)), x)
  {
    hide Image, Yield, SlotYield, ChannelYield;
    TakeYield(c, s, c.stageOf[w], x);
    SlotUpdate(c, s.slots, w, Processing(s.channels[c.stageOf[w]][0]), x);
  }

  lemma ProcessOk<T>(c: Config<T>, s: State<T>, w: nat, x: T)
    requires ConfigOk(c) && Shape(c, s) && Conserved(c, s, x) && Enabled(c, s, Process(w))
    ensures Conserved(c, Apply(c, s, Process(w)), x)
  {
    hide Yield, SlotYield, ChannelYield;
    SlotUpdate(c, s.slots, w, Apply(c, s, Process(w)).slots[w], x);
  }

  lemma SendOk<T>(c: Config<T>, s: State<T>, step: Step<T>, x: T)
    requires ConfigOk(c) && Shape(c, s) && Conserved(c, s, x) && Enabled(c, s, step) && (step.Send? || step.SendTo?)
    ensures Conserved(c, Apply(c, s, step), x)
  {
    hide Image, Yield, SlotYield, ChannelYield;
    var w := step.processor;
    var k, result := c.stageOf[w] + 1, s.slots[w].result;
    if step.Send? {
      BufferYield(c, s, k, result, x);
      SlotUpdate(c, s.slots, w, Idle, x);
    } else {
      HandYield(c, s, k, result, step.receiver, x);
      SlotUpdate(c, Hand(c, s, k, result, step.receiver).slots, w, Idle, x);
    }
  }

  lemma CollectOk<T>(c: Config<T>, s: State<T>, x: T)
    requires ConfigOk(c) && Shape(c, s) && Conserved(c, s, x) && Enabled(c, s, Collect)
    ensures Conserved(c, Apply(c, s, Collect), x)
  {
    TakeYield(c, s, |c.stages|, x);
    hide Yield, SlotYield, ChannelYield;
  }

  lemma StopOk<T>(c: Config<T>, s: State<T>, w: nat, x: T)
    requires ConfigOk(c) && Shape(c, s) && Conserved(c, s, x) && Enabled(c, s, Stop(w))
    ensures Conserved(c, Apply(c, s, Stop(w)), x)
  {
    hide Yield, SlotYield, ChannelYield, Image;
    SlotUpdate(c, s.slots, w, Stopped, x);
  }

  lemma StepOk<T>(c: Config<T>, s: State<T>, step: Step<T>, x: T)
    requires ConfigOk(c) && Shape(c, s) && Conserved(c, s, x)
    ensures Conserved(c, Apply(c, s, step), x)
  {
    if Enabled(c, s, step) {
      match step {
        case Submit(_) => SubmitOk(c, s, step, x);
        case SubmitTo(_, _) => SubmitOk(c, s, step, x);
        case Receive(w) => ReceiveOk(c, s, w, x);
        case Process(w) => ProcessOk(c, s, w, x);
        case Send(_) => SendOk(c, s, step, x);
        case SendTo(_, _) => SendOk(c, s, step, x);
        case Collect => CollectOk(c, s, x);
        case Cancel =>
        case Stop(w) => StopOk(c, s, w, x);
      }
    }
  }

  lemma {:induction false} EmptyYield<T>(c: Config<T>, channels: seq<seq<T>>, slots: seq<Slot<T>>, x: T)
    requires ConfigOk(c) && |slots| <= |c.stageOf|
    requires forall k :: 0 <= k < |channels| ==> channels[k] == []
    requires forall w :: 0 <= w < |slots| ==> slots[w].Idle?
    ensures ChannelYield(c, channels, x) == 0 && SlotYield(c, slots, x) == 0
    decreases |channels| + |slots|
  {
    if channels != [] { EmptyYield(c, channels[..|channels| - 1], slots, x); }
    if slots != [] { EmptyYield(c, channels, slots[..|slots| - 1], x); }
  }

  /** A run in which nobody has called Shutdown. */
  ghost predicate Running<T>(s: State<T>) {
    !s.cancelled ==> s.lost == multiset{} && forall w :: 0 <= w < |s.slots| ==> !s.slots[w].Stopped?
  }

  lemma RunningOk<T>(c: Config<T>, s: State<T>, step: Step<T>)
    requires ConfigOk(c) && Shape(c, s) && Running(s)
    ensures Running(Apply(c, s, step))
  {
    hide Image;
  }

  /** In every reachable state, cancelled or not, nothing has been duplicated, invented or dropped unrecorded. */
  lemma {:induction false} Reachable<T>(c: Config<T>, steps: seq<Step<T>>, x: T)
    requires ConfigOk(c)
    ensures Conserved(c, Exec(c, steps), x) && Running(Exec(c, steps))
  {
    if steps == [] {
      EmptyYield(c, Start(c).channels, Start(c).slots, x);
    } else {
      Reachable(c, steps[..|steps| - 1], x);
      hide Conserved;
      StepOk(c, Exec(c, steps[..|steps| - 1]), steps[|steps| - 1], x);
      RunningOk(c, Exec(c, steps[..|steps| - 1]), steps[|steps| - 1]);
    }
  }

  // ---------- Sequential composition ----------

  ghost function StageMap<T>(process: T -> Outcome<T>, items: seq<T>): seq<T> {
    if items == [] then []
    else StageMap(process, items[..|items| - 1]) + Result(process(items[|items| - 1]))
  }

  /** A nil result and an error send nothing to the next stage. */
  function Result<T>(outcome: Outcome<T>): seq<T> {
    if outcome.Value? then [outcome.value] else []
  }

  /** The stages applied one after the other to the whole list. */
  ghost function Sequential<T>(c: Config<T>, k: nat, items: seq<T>): seq<T>
    decreases |c.stages| - k
  {
    if k >= |c.stages| then items else Sequential(c, k + 1, StageMap(c.stages[k], items))
  }

  lemma {:induction false} YieldStage<T>(c: Config<T>, k: nat, items: seq<T>, x: T)
    requires ConfigOk(c) && k < |c.stages|
    ensures Yield(c, k, items, x) == Yield(c, k + 1, StageMap(c.stages[k], items), x)
  {
    if items != [] {
      var init := items[..|items| - 1];
      YieldStage(c, k, init, x);
      match c.stages[k](items[|items| - 1]) {
        case Value(v) => YieldSnoc(c, k + 1, StageMap(c.stages[k], init), v, x);
        case _ => assert StageMap(c.stages[k], items) == StageMap(c.stages[k], init);
      }
    }
  }

  lemma {:induction false} YieldLast<T>(c: Config<T>, k: nat, items: seq<T>, x: T)
    requires ConfigOk(c) && k >= |c.stages|
    ensures Yield(c, k, items, x) == multiset(items)[x]
  {
    if items != [] {
      YieldLast(c, k, items[..|items| - 1], x);
      assert items == items[..|items| - 1] + [items[|items| - 1]];
    }
  }

  lemma {:induction false} YieldIsSequential<T>(c: Config<T>, k: nat, items: seq<T>, x: T)
    requires ConfigOk(c)
    ensures Yield(c, k, items, x) == multiset(Sequential(c, k, items))[x]
    decreases |c.stages| - k
  {
    if k >= |c.stages| {
      YieldLast(c, k, items, x);
    } else {
      YieldStage(c, k, items, x);
      YieldIsSequential(c, k + 1, StageMap(c.stages[k], items), x);
    }
  }

  lemma SameCounts<T>(a: multiset<T>, b: multiset<T>)
    ensures (forall x :: a[x] <= b[x]) ==> a <= b
    ensures (forall x :: a[x] == b[x]) ==> a == b
  {
  }

  /** Even in a run that is cancelled, the outputs are among those of the sequential composition. */
  lemma OutputsAreSequential<T>(c: Config<T>, steps: seq<Step<T>>)
    requires ConfigOk(c)
    ensures var s := Exec(c, steps); s.delivered <= multiset(Sequential(c, 0, s.accepted))
  {
    var s := Exec(c, steps);
    forall x ensures s.delivered[x] <= multiset(Sequential(c, 0, s.accepted))[x] {
      Reachable(c, steps, x);
      YieldIsSequential(c, 0, s.accepted, x);
    }
    SameCounts(s.delivered, multiset(Sequential(c, 0, s.accepted)));
  }

  // ---------- Quiescence ----------

  /** Nothing is queued and nothing is in progress. */
  ghost predicate Quiescent<T>(s: State<T>) {
    && (forall k :: 0 <= k < |s.channels| ==> s.channels[k] == [])
    && (forall w :: 0 <= w < |s.slots| ==> s.slots[w].Idle?)
  }

  /** Whatever the numbers of processors and the buffer sizes, a run at rest has delivered the sequential result. */
  lemma QuiescentOutputs<T>(c: Config<T>, steps: seq<Step<T>>)
    requires ConfigOk(c) && Quiescent(Exec(c, steps)) && !Exec(c, steps).cancelled
    ensures var s := Exec(c, steps); s.delivered == multiset(Sequential(c, 0, s.accepted))
  {
    var s := Exec(c, steps);
    forall x ensures s.delivered[x] == multiset(Sequential(c, 0, s.accepted))[x] {
      Reachable(c, steps, x);
      EmptyYield(c, s.channels, s.slots, x);
      YieldIsSequential(c, 0, s.accepted, x);
    }
    SameCounts(s.delivered, multiset(Sequential(c, 0, s.accepted)));
  }

  /** The steps of the pipeline itself, as opposed to those of its callers. */
  predicate IsInternal<T>(step: Step<T>) {
    step.Receive? || step.Process? || step.Send? || step.SendTo? || step.Collect?
  }

  ghost predicate Staffed<T>(c: Config<T>) {
    forall k :: 0 <= k < |c.stages| ==> HasProcessor(c, k)
  }

  ghost predicate HasProcessor<T>(c: Config<T>, k: nat) {
    exists w :: 0 <= w < |c.stageOf| && c.stageOf[w] == k
  }

  /** Stage k and everything after it is at rest. */
  ghost predicate RestFrom<T>(c: Config<T>, s: State<T>, k: nat)
    requires ConfigOk(c) && Shape(c, s)
  {
    && (forall j :: k <= j < |s.channels| ==> s.channels[j] == [])
    && (forall w :: 0 <= w < |s.slots| && c.stageOf[w] >= k ==> s.slots[w].Idle?)
  }

  lemma RestBefore<T>(c: Config<T>, s: State<T>, k: nat)
    requires ConfigOk(c) && Staffed(c) && Shape(c, s) && Running(s) && !s.cancelled
    requires forall step :: IsInternal(step) ==> !Enabled(c, s, step)
    requires k < |c.stages| && RestFrom(c, s, k + 1)
    ensures RestFrom(c, s, k)
  {
    forall w | 0 <= w < |s.slots| && c.stageOf[w] == k ensures s.slots[w].Idle? {
      assert IsInternal<T>(Process(w)) && !Enabled(c, s, Process(w));
      if k + 1 < |c.stages| {
        assert HasProcessor(c, k + 1);
        var r :| 0 <= r < |c.stageOf| && c.stageOf[r] == k + 1;
        assert IsInternal<T>(SendTo(w, r)) && !Enabled(c, s, SendTo(w, r));
      } else {
        assert IsInternal<T>(SendTo(w, 0)) && !Enabled(c, s, SendTo(w, 0));
      }
    }
    assert HasProcessor(c, k);
    var w :| 0 <= w < |c.stageOf| && c.stageOf[w] == k;
    assert IsInternal<T>(Receive(w)) && !Enabled(c, s, Receive(w));
  }

  lemma {:induction false} AllRest<T>(c: Config<T>, s: State<T>, k: nat)
    requires ConfigOk(c) && Staffed(c) && Shape(c, s) && Running(s) && !s.cancelled
    requires forall step :: IsInternal(step) ==> !Enabled(c, s, step)
    requires k <= |c.stages|
    ensures RestFrom(c, s, k)
    decreases |c.stages| - k
  {
    if k == |c.stages| {
      assert IsInternal<T>(Collect) && !Enabled(c, s, Collect);
    } else {
      AllRest(c, s, k + 1);
      RestBefore(c, s, k);
    }
  }

  /** No deadlock, with buffers of any size, even zero: while anything is under way, the pipeline can take a step. */
  lemma NoDeadlock<T>(c: Config<T>, steps: seq<Step<T>>) returns (next: Step<T>)
    requires ConfigOk(c) && Staffed(c) && !Exec(c, steps).cancelled && !Quiescent(Exec(c, steps))
    ensures IsInternal(next) && Enabled(c, Exec(c, steps), next)
  {
    var s := Exec(c, steps);
    AlwaysRunning(c, steps);
    if step :| IsInternal(step) && Enabled(c, s, step) {
      next := step;
    } else {
      AllRest(c, s, 0);
      assert false;
    }
  }

  lemma {:induction false} AlwaysRunning<T>(c: Config<T>, steps: seq<Step<T>>)
    requires ConfigOk(c)
    ensures Running(Exec(c, steps))
  {
    if steps != [] {
      AlwaysRunning(c, steps[..|steps| - 1]);
      RunningOk(c, Exec(c, steps[..|steps| - 1]), steps[|steps| - 1]);
    }
  }

  // ---------- The pipeline comes to rest ----------

  /** How many steps an item in channel k can still take, at most. */
  function Distance(stages: nat, k: nat): nat {
    if k >= stages then 1 else 3 * (stages - k) + 1
  }

  ghost function SlotDistance<T>(c: Config<T>, w: nat, slot: Slot<T>): nat
    requires w < |c.stageOf|
  {
    match slot
    case Processing(_) => Distance(|c.stages|, c.stageOf[w]) - 1
    case Sending(_) => Distance(|c.stages|, c.stageOf[w] + 1) + 1
    case _ => 0
  }

  ghost function QueueWork<T>(stages: nat, k: nat, items: seq<T>): nat {
    if items == [] then 0 else QueueWork(stages, k, items[1..]) + Distance(stages, k)
  }

  ghost function ChannelWork<T>(stages: nat, channels: seq<seq<T>>): nat {
    if channels == [] then 0
    else ChannelWork(stages, channels[..|channels| - 1]) + QueueWork(stages, |channels| - 1, channels[|channels| - 1])
  }

  ghost function SlotWork<T>(c: Config<T>, slots: seq<Slot<T>>): nat
    requires |slots| <= |c.stageOf|
  {
    if slots == [] then 0
    else SlotWork(c, slots[..|slots| - 1]) + SlotDistance(c, |slots| - 1, slots[|slots| - 1])
  }

  ghost function Work<T>(c: Config<T>, s: State<T>): nat
    requires Shape(c, s)
  {
    ChannelWork(|c.stages|, s.channels) + SlotWork(c, s.slots)
  }

  lemma {:induction false} QueueWorkSnoc<T>(stages: nat, k: nat, items: seq<T>, item: T)
    ensures QueueWork(stages, k, items + [item]) == QueueWork(stages, k, items) + Distance(stages, k)
  {
    if items != [] {
      QueueWorkSnoc(stages, k, items[1..], item);
      assert (items + [item])[1..] == items[1..] + [item];
    }
  }

  lemma {:induction false} ChannelWorkUpdate<T>(stages: nat, channels: seq<seq<T>>, k: nat, items: seq<T>)
    requires k < |channels|
    ensures ChannelWork(stages, channels[k := items]) + QueueWork(stages, k, channels[k]) ==
            ChannelWork(stages, channels) + QueueWork(stages, k, items)
  {
    var n := |channels| - 1;
    if k < n {
      assert channels[k := items][..n] == channels[..n][k := items];
      ChannelWorkUpdate(stages, channels[..n], k, items);
    } else {
      assert channels[k := items][..n] == channels[..n];
    }
  }

  lemma {:induction false} SlotWorkUpdate<T>(c: Config<T>, slots: seq<Slot<T>>, w: nat, slot: Slot<T>)
    requires |slots| <= |c.stageOf| && w < |slots|
    ensures SlotWork(c, slots[w := slot]) + SlotDistance(c, w, slots[w]) == SlotWork(c, slots) + SlotDistance(c, w, slot)
  {
    var n := |slots| - 1;
    if w < n {
      assert slots[w := slot][..n] == slots[..n][w := slot];
      SlotWorkUpdate(c, slots[..n], w, slot);
    } else {
      assert slots[w := slot][..n] == slots[..n];
    }
  }

  /** Every internal step brings the pipeline nearer to rest. */
  lemma WorkDecreases<T>(c: Config<T>, s: State<T>, step: Step<T>)
    requires ConfigOk(c) && Shape(c, s) && IsInternal(step) && Enabled(c, s, step)
    ensures Work(c, Apply(c, s, step)) < Work(c, s)
  {
    hide SlotWork, ChannelWork, Image;
    var n := |c.stages|;
    match step {
      case Receive(w) =>
        var k := c.stageOf[w];
        ChannelWorkUpdate(n, s.channels, k, s.channels[k][1..]);
        SlotWorkUpdate(c, s.slots, w, Processing(s.channels[k][0]));
      case Process(w) =>
        SlotWorkUpdate(c, s.slots, w, Apply(c, s, step).slots[w]);
      case Send(w) =>
        var k := c.stageOf[w] + 1;
        QueueWorkSnoc(n, k, s.channels[k], s.slots[w].result);
        ChannelWorkUpdate(n, s.channels, k, s.channels[k] + [s.slots[w].result]);
        SlotWorkUpdate(c, s.slots, w, Idle);
      case SendTo(w, r) =>
        var k := c.stageOf[w] + 1;
        var handed := Hand(c, s, k, s.slots[w].result, r);
        if k < n { SlotWorkUpdate(c, s.slots, r, Processing(s.slots[w].result)); }
        SlotWorkUpdate(c, handed.slots, w, Idle);
      case Collect =>
        ChannelWorkUpdate(n, s.channels, n, s.channels[n][1..]);
    }
  }

  ghost predicate AllInternal<T>(steps: seq<Step<T>>) {
    forall i :: 0 <= i < |steps| ==> IsInternal(steps[i])
  }

  lemma TakeStep<T>(c: Config<T>, steps: seq<Step<T>>) returns (next: Step<T>)
    requires ConfigOk(c) && Staffed(c) && !Exec(c, steps).cancelled && !Quiescent(Exec(c, steps))
    ensures IsInternal(next)
    ensures var s, s' := Exec(c, steps), Exec(c, steps + [next]);
      Work(c, s') < Work(c, s) && s'.accepted == s.accepted && !s'.cancelled
  {
    next := NoDeadlock(c, steps);
    assert (steps + [next])[..|steps|] == steps;
    hide Apply, Enabled, Quiescent, Work;
    WorkDecreases(c, Exec(c, steps), next);
  }

  /** Once nothing more is submitted, taking any possible steps leads to rest, with the sequential result delivered. */
  lemma {:induction false} ComesToRest<T>(c: Config<T>, steps: seq<Step<T>>) returns (more: seq<Step<T>>)
    requires ConfigOk(c) && Staffed(c) && !Exec(c, steps).cancelled
    ensures |more| <= Work(c, Exec(c, steps)) && AllInternal(more)
    ensures var s := Exec(c, steps + more);
      && Quiescent(s) && s.accepted == Exec(c, steps).accepted
      && s.delivered == multiset(Sequential(c, 0, s.accepted))
    decreases Work(c, Exec(c, steps))
  {
    hide Exec, Work, Sequential, Quiescent, ConfigOk, Staffed, Shape;
    if Quiescent(Exec(c, steps)) {
      more := [];
      assert steps + more == steps;
      QuiescentOutputs(c, steps);
    } else {
      var next := TakeStep(c, steps);
      var rest := ComesToRest(c, steps + [next]);
      more := [next] + rest;
      assert steps + more == (steps + [next]) + rest;
    }
  }

  /** `more` are internal steps that can all happen, one after the other. */
  ghost predicate InternalRun<T>(c: Config<T>, steps: seq<Step<T>>, more: seq<Step<T>>)
    requires ConfigOk(c)
  {
    more != [] ==>
      var n := |more| - 1;
      InternalRun(c, steps, more[..n]) && IsInternal(more[n]) && Enabled(c, Exec(c, steps + more[..n]), more[n])
  }

  /** However the pipeline is scheduled, between two calls from outside it takes no more steps than there is work. */
  lemma {:induction false} WorkBoundsSteps<T>(c: Config<T>, steps: seq<Step<T>>, more: seq<Step<T>>)
    requires ConfigOk(c) && InternalRun(c, steps, more)
    ensures |more| + Work(c, Exec(c, steps + more)) <= Work(c, Exec(c, steps))
  {
    hide Work, Apply, Enabled, ConfigOk;
    if more == [] {
      assert steps + more == steps;
    } else {
      var init := more[..|more| - 1];
      WorkBoundsSteps(c, steps, init);
      assert (steps + more)[..|steps + more| - 1] == steps + init;
      WorkDecreases(c, Exec(c, steps + init), more[|more| - 1]);
    }
  }

  // ---------- What each channel operation does ----------

  lemma ExecSnoc<T>(c: Config<T>, steps: seq<Step<T>>, step: Step<T>)
    requires ConfigOk(c)
    ensures Exec(c, steps + [step]) == Apply(c, Exec(c, steps), step)
  {
    assert (steps + [step])[..|steps|] == steps;
  }

  ghost predicate ChannelsFit<T>(c: Config<T>, s: State<T>)
    requires ConfigOk(c) && Shape(c, s)
  {
    forall k :: 0 <= k < |s.channels| ==> |s.channels[k]| <= c.capacity[k]
  }

  lemma ChannelsFitStep<T>(c: Config<T>, s: State<T>, step: Step<T>)
    requires ConfigOk(c) && Shape(c, s) && ChannelsFit(c, s)
    ensures ChannelsFit(c, Apply(c, s, step))
  {
    hide Image, SlotImage;
  }

  /** In every run no channel holds more than its capacity. */
  lemma {:induction false} ChannelsAlwaysFit<T>(c: Config<T>, steps: seq<Step<T>>)
    requires ConfigOk(c)
    ensures ChannelsFit(c, Exec(c, steps))
  {
    hide Apply;
    if steps != [] {
      ChannelsAlwaysFit(c, steps[..|steps| - 1]);
      ChannelsFitStep(c, Exec(c, steps[..|steps| - 1]), steps[|steps| - 1]);
    }
  }

  /** A processor of stage k that waits at its channel. */
  predicate WaitsAt<T>(c: Config<T>, s: State<T>, k: nat, r: nat)
    requires ConfigOk(c) && Shape(c, s)
  {
    r < |s.slots| && s.slots[r] == Idle && c.stageOf[r] == k
  }

  /**
   * In every run, the result of a processor goes to the end of the next channel if and only if that is not full, or past
   * it to someone who waits there if and only if nothing else is in it: no result overtakes another in a channel.
   */
  lemma SendLeadsTo<T>(c: Config<T>, steps: seq<Step<T>>, w: nat, r: nat)
    requires ConfigOk(c) && w < |Exec(c, steps).slots| && Exec(c, steps).slots[w].Sending?
    ensures var s, sent, handed := Exec(c, steps), Exec(c, steps + [Send(w)]), Exec(c, steps + [SendTo(w, r)]);
      var k, x := c.stageOf[w] + 1, s.slots[w].result;
      && |s.channels[k]| <= c.capacity[k]
      && (|s.channels[k]| == c.capacity[k] ==> sent == s)
      && (|s.channels[k]| < c.capacity[k] ==>
            sent == s.(channels := s.channels[k := s.channels[k] + [x]], slots := s.slots[w := Idle]))
      && (s.channels[k] != [] || (k < |c.stages| && !WaitsAt(c, s, k, r)) ==> handed == s)
      && (s.channels[k] == [] && k < |c.stages| && WaitsAt(c, s, k, r) ==>
            handed == s.(slots := s.slots[r := Processing(x)][w := Idle]))
      && (s.channels[k] == [] && k == |c.stages| ==>
            handed == s.(slots := s.slots[w := Idle], delivered := s.delivered + multiset{x}))
  {
    hide Exec, Image, SlotImage;
    ExecSnoc(c, steps, Send(w));
    ExecSnoc(c, steps, SendTo(w, r));
    ChannelsAlwaysFit(c, steps);
  }

  /** A processor takes the oldest item of its channel; collectResults takes the oldest of the last one. */
  lemma ReceiveLeadsTo<T>(c: Config<T>, steps: seq<Step<T>>, w: nat)
    requires ConfigOk(c) && w < |Exec(c, steps).slots|
    ensures var s, received, collected := Exec(c, steps), Exec(c, steps + [Receive(w)]), Exec(c, steps + [Collect]);
      var k, n := c.stageOf[w], |c.stages|;
      && (if s.slots[w].Idle? && s.channels[k] != [] then
            received == s.(channels := s.channels[k := s.channels[k][1..]], slots := s.slots[w := Processing(s.channels[k][0])])
          else received == s)
      && (if s.channels[n] != [] then
            collected == s.(channels := s.channels[n := s.channels[n][1..]],
                            delivered := s.delivered + multiset{s.channels[n][0]})
          else collected == s)
  {
    hide Exec, Image, SlotImage;
    ExecSnoc(c, steps, Receive(w));
    ExecSnoc(c, steps, Collect);
  }

  // ---------- Cancellation ----------

  /** The context is cancelled if and only if someone has cancelled it. */
  lemma {:induction false} CancelledIff<T>(c: Config<T>, steps: seq<Step<T>>)
    requires ConfigOk(c)
    ensures Exec(c, steps).cancelled <==> exists i :: 0 <= i < |steps| && steps[i].Cancel?
  {
    if steps != [] {
      var init, last := steps[..|steps| - 1], steps[|steps| - 1];
      CancelledIff(c, init);
      OnlyCancelCancels(c, Exec(c, init), last);
      hide Exec, Apply;
      if i :| 0 <= i < |init| && init[i].Cancel? { assert steps[i].Cancel?; }
      if i :| 0 <= i < |steps| && steps[i].Cancel? { assert i < |init| ==> init[i].Cancel?; }
    }
  }

  lemma OnlyCancelCancels<T>(c: Config<T>, s: State<T>, step: Step<T>)
    requires ConfigOk(c) && Shape(c, s)
    ensures Apply(c, s, step).cancelled <==> s.cancelled || step.Cancel?
  {
    hide Image, SlotImage;
  }

  /**
   * A processor ends if and only if the context is cancelled and it waits for an item or for room; a result that it holds
   * is then given up.
   */
  lemma StopLeadsTo<T>(c: Config<T>, s: State<T>, w: nat)
    requires ConfigOk(c) && Shape(c, s) && w < |s.slots|
    ensures var s' := Apply(c, s, Stop(w));
      if s.cancelled && (s.slots[w].Idle? || s.slots[w].Sending?) then
        s' == s.(slots := s.slots[w := Stopped],
                 lost := s.lost + if s.slots[w].Sending? then Image(c, c.stageOf[w] + 1, s.slots[w].result) else multiset{})
      else s' == s
  {
    hide Image;
  }

  function NotStopped<T>(slots: seq<Slot<T>>): nat {
    if slots == [] then 0
    else NotStopped(slots[..|slots| - 1]) + if slots[|slots| - 1].Stopped? then 0 else 1
  }

  lemma {:induction false} StopsOneMore<T>(slots: seq<Slot<T>>, w: nat)
    requires w < |slots| && !slots[w].Stopped?
    ensures NotStopped(slots[w := Stopped]) + 1 == NotStopped(slots)
  {
    var n := |slots| - 1;
    if w < n {
      assert slots[w := Stopped][..n] == slots[..n][w := Stopped];
      StopsOneMore(slots[..n], w);
    } else {
      assert slots[w := Stopped][..n] == slots[..n];
    }
  }

  /** One more processor ends, after the call of its stage that it may be in. */
  lemma StopOne<T>(c: Config<T>, steps: seq<Step<T>>, w: nat) returns (more: seq<Step<T>>)
    requires ConfigOk(c) && Exec(c, steps).cancelled && w < |Exec(c, steps).slots| && !Exec(c, steps).slots[w].Stopped?
    ensures var s, s' := Exec(c, steps), Exec(c, steps + more); s'.cancelled && s'.slots == s.slots[w := Stopped]
  {
    hide Exec, Image, SlotImage;
    var s := Exec(c, steps);
    more := [];
    assert steps + more == steps;
    if s.slots[w].Processing? {
      more := [Process(w)];
      ExecSnoc(c, steps, Process(w));
    }
    ExecSnoc(c, steps + more, Stop(w));
    assert steps + (more + [Stop(w)]) == steps + more + [Stop(w)];
    more := more + [Stop(w)];
  }

  /** After the cancellation every processor can end: Shutdown need not wait for ever. */
  lemma {:induction false} AllCanStop<T>(c: Config<T>, steps: seq<Step<T>>) returns (more: seq<Step<T>>)
    requires ConfigOk(c) && Exec(c, steps).cancelled
    ensures forall w :: 0 <= w < |Exec(c, steps + more).slots| ==> Exec(c, steps + more).slots[w].Stopped?
    decreases NotStopped(Exec(c, steps).slots)
  {
    hide Exec;
    if w :| 0 <= w < |Exec(c, steps).slots| && !Exec(c, steps).slots[w].Stopped? {
      var first := StopOne(c, steps, w);
      StopsOneMore(Exec(c, steps).slots, w);
      var rest := AllCanStop(c, steps + first);
      more := first + rest;
      assert steps + more == steps + first + rest;
    } else {
      more := [];
      assert steps + more == steps;
    }
  }

  // ---------- The pipeline itself ----------

  /** The counters of one stage. */
  datatype StageStats = StageStats(processed: nat, success: nat, errors: nat)

  /**
   * The channels and the processors between two channel operations. Each method is a step of the state machine or
   * none; what it adds are the counters and the flag of Start and Shutdown. The input, the output and the losses are
   * recorded in ghost fields.
   */
  class MultiStagePipeline<T(!new)> {
    const config: Config<T>
    var channels: seq<seq<T>>
    var slots: seq<Slot<T>>
    var stats: seq<StageStats>
    var totalInput: nat
    var totalOutput: nat
    var isRunning: bool
    var cancelled: bool
    ghost var accepted: seq<T>
    ghost var delivered: multiset<T>
    ghost var lost: multiset<T>

    ghost function Value(): State<T>
      reads this
    {
      State(channels, slots, cancelled, accepted, delivered, lost)
    }

    /** Every item that a stage has processed was counted as a success or as an error. */
    ghost predicate Valid()
      reads this
    {
      && ConfigOk(config) && Shape(config, Value())
      && |stats| == |config.stages|
      && (forall k :: 0 <= k < |stats| ==> stats[k].processed == stats[k].success + stats[k].errors)
      && totalInput == |accepted| && totalOutput == |delivered|
    }

    constructor (config: Config<T>)
      requires ConfigOk(config)
      ensures Valid() && this.config == config && Value() == Start(config) && !isRunning
    {
      this.config := config;
      channels, slots := seq(|config.stages| + 1, _ => []), seq(|config.stageOf|, _ => Idle);
      stats := seq(|config.stages|, _ => StageStats(0, 0, 0));
      totalInput, totalOutput, isRunning, cancelled := 0, 0, false, false;
      accepted, delivered, lost := [], multiset{}, multiset{};
    }

    method StartPipeline() returns (ok: bool)
      requires Valid()
      modifies this`isRunning
      ensures Valid() && ok == !old(isRunning) && isRunning
    {
      ok := !isRunning;
      isRunning := true;
    }

    /** Shutdown cancels the context; what it waits for is that every processor stops. */
    method Shutdown() returns (ok: bool)
      requires Valid()
      modifies this`isRunning, this`cancelled
      ensures Valid() && ok == old(isRunning) && !isRunning
      ensures Value() == if ok then Apply(config, old(Value()), Cancel) else old(Value())
    {
      ok := isRunning;
      isRunning, cancelled := false, cancelled || ok;
    }

    /**
     * SubmitData does not wait. A pipeline that does not run or is cancelled refuses the item; otherwise it is handed to
     * the processor that waits for it, if the runtime finds one, or takes room in the first channel, or is refused.
     */
    method SubmitData(item: T, waiting: Option<nat>) returns (ok: bool)
      requires Valid() && (waiting.Some? ==> CanHand(config, Value(), 0, waiting.value))
      modifies this
      ensures Valid() && ok == (isRunning && !cancelled && (waiting.Some? || |old(channels)[0]| < config.capacity[0]))
      ensures Value() == if !ok then old(Value())
        else Apply(config, old(Value()), if waiting.Some? then SubmitTo(item, waiting.value) else Submit(item))
      ensures stats == old(stats) && isRunning == old(isRunning) && totalInput == old(totalInput) + if ok then 1 else 0
    {
      if !isRunning || cancelled { return false; }
      ok := waiting.Some? || |channels[0]| < config.capacity[0];
      if !ok { return; }
      if waiting.None? {
        channels := channels[0 := channels[0] + [item]];
      } else if |config.stages| > 0 {
        slots := slots[waiting.value := Processing(item)];
      } else {
        totalOutput, delivered := totalOutput + 1, delivered + multiset{item};
      }
      totalInput := totalInput + 1;
      accepted := accepted + [item];
    }

    method ReceiveItem(w: nat)
      requires Valid() && Enabled(config, Value(), Receive(w))
      modifies this
      ensures Valid() && Value() == Apply(config, old(Value()), Receive(w)) && stats == old(stats)
    {
      var k := config.stageOf[w];
      slots := slots[w := Processing(channels[k][0])];
      channels := channels[k := channels[k][1..]];
    }

    /**
     * processData: a nil result counts as a success and is sent no further. The source counts the item and its result in
     * two lock regions; the statistics agree between calls, and in the middle of one an item is processed and has no
     * result yet.
     */
    method ProcessData(w: nat)
      requires Valid() && Enabled(config, Value(), Process(w))
      modifies this
      ensures Valid() && Value() == Apply(config, old(Value()), Process(w))
      ensures var k, o := config.stageOf[w], config.stages[config.stageOf[w]](old(slots)[w].item);
        stats == old(stats)[k := StageStats(old(stats)[k].processed + 1,
                                            old(stats)[k].success + (if o.Error? then 0 else 1),
                                            old(stats)[k].errors + (if o.Error? then 1 else 0))]
    {
      var k := config.stageOf[w];
      var o := config.stages[k](slots[w].item);
      var t := stats[k].(processed := stats[k].processed + 1);
      match o {
        case Error =>
          t := t.(errors := t.errors + 1);
          slots := slots[w := Idle];
        case Nothing =>
          t := t.(success := t.success + 1);
          slots := slots[w := Idle];
        case Value(v) =>
          t := t.(success := t.success + 1);
          slots := slots[w := Sending(v)];
      }
      stats := stats[k := t];
    }

    method SendResult(w: nat)
      requires Valid() && Enabled(config, Value(), Send(w))
      modifies this
      ensures Valid() && Value() == Apply(config, old(Value()), Send(w)) && stats == old(stats)
    {
      var k := config.stageOf[w] + 1;
      channels := channels[k := channels[k] + [slots[w].result]];
      slots := slots[w := Idle];
    }

    method CollectResult() returns (result: T)
      requires Valid() && Enabled(config, Value(), Collect)
      modifies this
      ensures Valid() && Value() == Apply(config, old(Value()), Collect) && stats == old(stats)
      ensures result == old(channels)[|config.stages|][0] && totalOutput == old(totalOutput) + 1
    {
      var last := |config.stages|;
      result := channels[last][0];
      channels := channels[last := channels[last][1..]];
      totalOutput := totalOutput + 1;
      delivered := delivered + multiset{result};
    }
  }
}
