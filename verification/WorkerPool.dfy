/**
 * The worker pools, whose `submit` sends to a bounded channel while it holds the read lock that keeps `Stop` from
 * closing the channel. One step is one lock, channel or task operation. The pool of the performance optimizer has one
 * channel for all workers and starts when `Start` is called; that of the advanced optimizer has one channel for each
 * worker and is running from the beginning.
 */
module WorkerPool {

  datatype Option<T> = None | Some(value: T)

  /** The channel of each worker, the capacity of the channels, and what is special about one of the two pools. */
  datatype Config = Config(channels: nat, capacity: nat, channelOf: seq<nat>, autostart: bool, hasContext: bool)

  datatype Worker = NotStarted | Waiting | Working(task: nat) | Exited

  /** A call of submit. `Sending` and `Releasing` hold the read lock. */
  datatype Phase = Calling | Sending | Releasing(accepted: bool) | Returned(accepted: bool)
  datatype Submit = Submit(channel: nat, phase: Phase)

  /**
   * A call of Start or Stop. `Announced` waits for the readers, `Closing` holds the write lock and has closed the first
   * channels, `Draining` waits for the workers; `closed` tells the call of Stop that closed the channels.
   */
  datatype WriterPhase = Arriving | Announced | Closing(next: nat) | Draining | Done(closed: bool)
  datatype Writer = Writer(isStop: bool, phase: WriterPhase)

  /** A task is known by the number of the submit call; `executed` records the tasks that were run to their end. */
  datatype State = State(
    running: bool,
    stopped: bool,
    closed: seq<bool>,
    queues: seq<seq<nat>>,
    workers: seq<Worker>,
    submits: seq<Submit>,
    writers: seq<Writer>,
    writer: Option<nat>,
    cancelled: bool,
    panicked: bool,
    executed: seq<nat>)

  datatype Step =
    | CallSubmit(channel: nat)
    | CallStart
    | CallStop
    | Cancel
    | RLock(call: nat)
    | Send(call: nat)
    | GiveUp(call: nat)
    | RUnlock(call: nat)
    | Announce(call: nat)
    | Lock(call: nat)
    | CloseNext(call: nat)
    | Unlock(call: nat)
    | Wait(call: nat)
    | Take(worker: nat)
    | Finish(worker: nat)
    | Exit(worker: nat)

  ghost predicate ConfigOk(c: Config) {
    && c.capacity > 0
    && (forall w :: 0 <= w < |c.channelOf| ==> c.channelOf[w] < c.channels)
    && forall k :: 0 <= k < c.channels ==> HasWorker(c, k)
  }

  ghost predicate HasWorker(c: Config, k: nat) {
    exists w :: 0 <= w < |c.channelOf| && c.channelOf[w] == k
  }

  ghost predicate Shape(c: Config, s: State) {
    && |s.closed| == |s.queues| == c.channels && |s.workers| == |c.channelOf|
    && ChannelsExist(c.channels, s.submits)
  }

  ghost predicate ChannelsExist(channels: nat, submits: seq<Submit>) {
    forall i :: 0 <= i < |submits| ==> submits[i].channel < channels
  }

  predicate IsReader(u: Submit) {
    u.phase.Sending? || u.phase.Releasing?
  }

  ghost predicate NoReaders(s: State) {
    forall i :: 0 <= i < |s.submits| ==> !IsReader(s.submits[i])
  }

  ghost predicate AllExited(s: State) {
    forall w :: 0 <= w < |s.workers| ==> s.workers[w].Exited?
  }

  predicate SubmitAt(s: State, i: nat, phase: Phase) {
    i < |s.submits| && s.submits[i].phase == phase
  }

  predicate WriterAt(s: State, i: nat, phase: WriterPhase) {
    i < |s.writers| && s.writers[i].phase == phase
  }

  ghost predicate Enabled(c: Config, s: State, step: Step)
    requires ConfigOk(c) && Shape(c, s)
  {
    !s.panicked &&
    match step
    case CallSubmit(k) => k < c.channels
    case CallStart => !c.autostart
    case CallStop => true
    case Cancel => c.hasContext
    case RLock(i) => SubmitAt(s, i, Calling) && s.writer.None?
    case Send(i) => SubmitAt(s, i, Sending) && (s.closed[s.submits[i].channel] || |s.queues[s.submits[i].channel]| < c.capacity)
    case GiveUp(i) => SubmitAt(s, i, Sending) && s.cancelled
    case RUnlock(i) => i < |s.submits| && s.submits[i].phase.Releasing?
    case Announce(i) => WriterAt(s, i, Arriving) && s.writer.None?
    case Lock(i) => WriterAt(s, i, Announced) && NoReaders(s)
    case CloseNext(i) => i < |s.writers| && s.writers[i].phase.Closing? && s.writers[i].phase.next < c.channels
    case Unlock(i) => WriterAt(s, i, Closing(c.channels))
    case Wait(i) => WriterAt(s, i, Draining) && AllExited(s)
    case Take(w) => w < |s.workers| && s.workers[w].Waiting? && s.queues[c.channelOf[w]] != []
    case Finish(w) => w < |s.workers| && s.workers[w].Working?
    case Exit(w) => w < |s.workers| && s.workers[w].Waiting? && s.queues[c.channelOf[w]] == [] && s.closed[c.channelOf[w]]
  }

  function SetSubmit(s: State, i: nat, phase: Phase): State
    requires i < |s.submits|
  {
    s.(submits := s.submits[i := s.submits[i].(phase := phase)])
  }

  function SetWriter(s: State, i: nat, phase: WriterPhase): State
    requires i < |s.writers|
  {
    s.(writers := s.writers[i := s.writers[i].(phase := phase)])
  }

  function SetWorker(s: State, w: nat, worker: Worker): State
    requires w < |s.workers|
  {
    s.(workers := s.workers[w := worker])
  }

  /** Under the write lock, Start and Stop decide by the flags; a call that has nothing to do releases the lock. */
  function LockStep(c: Config, s: State, i: nat): State
    requires i < |s.writers|
  {
    if s.writers[i].isStop then
      if s.running then SetWriter(s, i, Closing(0)).(running := false, stopped := true)
      else SetWriter(s, i, Done(false)).(writer := None)
    else if s.running || s.stopped then SetWriter(s, i, Done(false)).(writer := None)
    else SetWriter(s, i, Done(false)).(writer := None, running := true, workers := seq(|s.workers|, _ => Waiting))
  }

  /** The effect of an enabled step; a step that cannot happen changes nothing. */
  ghost function Apply(c: Config, s: State, step: Step): State
    requires ConfigOk(c) && Shape(c, s)
    ensures Shape(c, Apply(c, s, step))
  {
    if !Enabled(c, s, step) then s else
    match step
    case CallSubmit(k) => s.(submits := s.submits + [Submit(k, Calling)])
    case CallStart => s.(writers := s.writers + [Writer(false, Arriving)])
    case CallStop => s.(writers := s.writers + [Writer(true, Arriving)])
    case Cancel => s.(cancelled := true)
    case RLock(i) => SetSubmit(s, i, if s.running then Sending else Releasing(false))
    case Send(i) =>
      var k := s.submits[i].channel;
      if s.closed[k] then s.(panicked := true)
      else SetSubmit(s, i, Releasing(true)).(queues := s.queues[k := s.queues[k] + [i]])
    case GiveUp(i) => SetSubmit(s, i, Releasing(false))
    case RUnlock(i) => SetSubmit(s, i, Returned(s.submits[i].phase.accepted))
    case Announce(i) => SetWriter(s, i, Announced).(writer := Some(i))
    case Lock(i) => LockStep(c, s, i)
    case CloseNext(i) =>
      var k := s.writers[i].phase.next;
      if s.closed[k] then s.(panicked := true)
      else SetWriter(s, i, Closing(k + 1)).(closed := s.closed[k := true])
    case Unlock(i) => SetWriter(s, i, Draining).(writer := None)
    case Wait(i) => SetWriter(s, i, Done(true))
    case Take(w) =>
      var k := c.channelOf[w];
      SetWorker(s, w, Working(s.queues[k][0])).(queues := s.queues[k := s.queues[k][1..]])
    case Finish(w) => SetWorker(s, w, Waiting).(executed := s.executed + [s.workers[w].task])
    case Exit(w) => SetWorker(s, w, Exited)
  }

  ghost function Start(c: Config): State
    requires ConfigOk(c)
    ensures Shape(c, Start(c))
  {
    State(c.autostart, false, seq(c.channels, _ => false), seq(c.channels, _ => []),
          seq(|c.channelOf|, _ => if c.autostart then Waiting else NotStarted), [], [], None, false, false, [])
  }

  ghost function Exec(c: Config, steps: seq<Step>): State
    requires ConfigOk(c)
    ensures Shape(c, Exec(c, steps))
  {
    if steps == [] then Start(c) else Apply(c, Exec(c, steps[..|steps| - 1]), steps[|steps| - 1])
  }

  // ---------- The lock and the channels ----------

  ghost predicate AllClosed(s: State) {
    forall k :: 0 <= k < |s.closed| ==> s.closed[k]
  }

  ghost predicate NoneClosed(s: State) {
    forall k :: 0 <= k < |s.closed| ==> !s.closed[k]
  }

  /** A submit call that may send finds the pool running, and no writer inside. */
  ghost predicate SubmitsOk(s: State) {
    && (forall i :: 0 <= i < |s.submits| && s.submits[i].phase.Sending? ==> s.running)
    && (IsClosing(s) ==> NoReaders(s))
  }

  ghost predicate IsInside(w: Writer) {
    w.phase.Announced? || w.phase.Closing?
  }

  ghost predicate WriterOk(s: State, i: nat)
    requires i < |s.writers|
  {
    var phase := s.writers[i].phase;
    && (IsInside(s.writers[i]) <==> s.writer == Some(i))
    && (phase.Closing? ==> s.stopped && forall k :: 0 <= k < |s.closed| ==> (s.closed[k] <==> k < phase.next))
    && (phase.Closing? ==> phase.next <= |s.closed|)
    && (phase.Draining? ==> s.stopped && AllClosed(s))
    && (phase == Done(true) ==> s.stopped && AllClosed(s) && AllExited(s))
  }

  ghost predicate WritersOk(s: State) {
    && (s.writer.Some? ==> s.writer.value < |s.writers|)
    && forall i :: 0 <= i < |s.writers| ==> WriterOk(s, i)
  }

  ghost predicate FlagsOk(s: State) {
    && !s.panicked
    && (s.running ==> !s.stopped)
    && (!s.stopped ==> NoneClosed(s))
    && (s.stopped ==> AllClosed(s) || IsClosing(s))
  }

  /** A call of Stop is closing the channels. */
  ghost predicate IsClosing(s: State) {
    s.writer.Some? && s.writer.value < |s.writers| && s.writers[s.writer.value].phase.Closing?
  }

  ghost predicate WorkersOk(c: Config, s: State)
    requires Shape(c, s)
  {
    forall w :: 0 <= w < |s.workers| ==>
      && (s.workers[w].NotStarted? <==> !s.running && !s.stopped)
      && (s.workers[w].Exited? ==> c.channelOf[w] < c.channels && s.closed[c.channelOf[w]] && s.queues[c.channelOf[w]] == [])
  }

  ghost predicate QueuesOk(s: State) {
    !s.running && !s.stopped ==> forall k :: 0 <= k < |s.queues| ==> s.queues[k] == []
  }

  ghost predicate Inv(c: Config, s: State)
    requires ConfigOk(c)
  {
    Shape(c, s) && SubmitsOk(s) && WritersOk(s) && FlagsOk(s) && WorkersOk(c, s) && QueuesOk(s)
  }

  lemma SubmitStepInv(c: Config, s: State, step: Step)
    requires ConfigOk(c) && Inv(c, s) && Enabled(c, s, step)
    requires step.CallSubmit? || step.Cancel? || step.RLock? || step.GiveUp? || step.RUnlock?
    ensures Inv(c, Apply(c, s, step))
  {
    hide HasWorker;
    var s' := Apply(c, s, step);
    assert s'.(submits := s.submits, cancelled := s.cancelled) == s;
    assert WritersOk(s') by { assert forall i :: 0 <= i < |s.writers| ==> (WriterOk(s, i) ==> WriterOk(s', i)); }
  }

  lemma SendInv(c: Config, s: State, i: nat)
    requires ConfigOk(c) && Inv(c, s) && Enabled(c, s, Send(i))
    ensures Inv(c, Apply(c, s, Send(i)))
  {
    hide HasWorker;
    var s' := Apply(c, s, Send(i));
    assert !s.closed[s.submits[i].channel];
    assert WritersOk(s') by { assert forall j :: 0 <= j < |s.writers| ==> (WriterOk(s, j) ==> WriterOk(s', j)); }
  }

  lemma WriterStepInv(c: Config, s: State, step: Step)
    requires ConfigOk(c) && Inv(c, s) && Enabled(c, s, step)
    requires step.CallStart? || step.CallStop? || step.Announce? || step.Unlock? || step.Wait?
    ensures Inv(c, Apply(c, s, step))
  {
    hide HasWorker;
    var s' := Apply(c, s, step);
    forall j | 0 <= j < |s'.writers| ensures WriterOk(s', j) {
      if j < |s.writers| { assert WriterOk(s, j); }
      if step.Announce? || step.Unlock? || step.Wait? { assert WriterOk(s, step.call); }
    }
    assert IsClosing(s') ==> IsClosing(s);
    if step.Unlock? { assert WriterOk(s, step.call); }
  }

  lemma LockInv(c: Config, s: State, i: nat)
    requires ConfigOk(c) && Inv(c, s) && Enabled(c, s, Lock(i))
    ensures Inv(c, Apply(c, s, Lock(i)))
  {
    hide HasWorker;
    var s' := Apply(c, s, Lock(i));
    assert WriterOk(s, i);
    forall j | 0 <= j < |s'.writers| ensures WriterOk(s', j) {
      assert WriterOk(s, j);
    }
  }

  lemma CloseInv(c: Config, s: State, i: nat)
    requires ConfigOk(c) && Inv(c, s) && Enabled(c, s, CloseNext(i))
    ensures Inv(c, Apply(c, s, CloseNext(i)))
  {
    hide HasWorker;
    var s' := Apply(c, s, CloseNext(i));
    assert WriterOk(s, i);
    forall j | 0 <= j < |s'.writers| ensures WriterOk(s', j) {
      assert WriterOk(s, j);
    }
  }

  lemma WorkerStepInv(c: Config, s: State, step: Step)
    requires ConfigOk(c) && Inv(c, s) && Enabled(c, s, step) && (step.Take? || step.Finish? || step.Exit?)
    ensures Inv(c, Apply(c, s, step))
  {
    hide HasWorker;
    var s' := Apply(c, s, step);
    forall j | 0 <= j < |s'.writers| ensures WriterOk(s', j) {
      assert WriterOk(s, j);
    }
  }

  lemma StepInv(c: Config, s: State, step: Step)
    requires ConfigOk(c) && Inv(c, s)
    ensures Inv(c, Apply(c, s, step))
  {
    if Enabled(c, s, step) {
      match step {
        case Send(i) => SendInv(c, s, i);
        case Lock(i) => LockInv(c, s, i);
        case CloseNext(i) => CloseInv(c, s, i);
        case Take(_) => WorkerStepInv(c, s, step);
        case Finish(_) => WorkerStepInv(c, s, step);
        case Exit(_) => WorkerStepInv(c, s, step);
        case CallStart => WriterStepInv(c, s, step);
        case CallStop => WriterStepInv(c, s, step);
        case Announce(_) => WriterStepInv(c, s, step);
        case Unlock(_) => WriterStepInv(c, s, step);
        case Wait(_) => WriterStepInv(c, s, step);
        case _ => SubmitStepInv(c, s, step);
      }
    }
  }

  lemma {:induction false} Reachable(c: Config, steps: seq<Step>)
    requires ConfigOk(c)
    ensures Inv(c, Exec(c, steps))
  {
    if steps != [] {
      Reachable(c, steps[..|steps| - 1]);
      StepInv(c, Exec(c, steps[..|steps| - 1]), steps[|steps| - 1]);
    }
  }

  /** Whatever the schedule, nothing is sent on a closed channel and no channel is closed twice. */
  lemma NeverPanics(c: Config, steps: seq<Step>)
    requires ConfigOk(c)
    ensures !Exec(c, steps).panicked
  {
    hide Exec;
    Reachable(c, steps);
  }

  // ---------- Every accepted task is executed exactly once ----------

  ghost function Sum<T>(s: seq<T>, f: T -> nat): nat {
    if s == [] then 0 else Sum(s[..|s| - 1], f) + f(s[|s| - 1])
  }

  lemma {:induction false} SumUpdate<T>(s: seq<T>, f: T -> nat, i: nat, x: T)
    requires i < |s|
    ensures Sum(s[i := x], f) + f(s[i]) == Sum(s, f) + f(x)
  {
    var n := |s| - 1;
    if i < n {
      assert s[i := x][..n] == s[..n][i := x];
      SumUpdate(s[..n], f, i, x);
    } else {
      assert s[i := x][..n] == s[..n];
    }
  }

  lemma {:induction false} SumZero<T>(s: seq<T>, f: T -> nat)
    requires forall i :: 0 <= i < |s| ==> f(s[i]) == 0
    ensures Sum(s, f) == 0
  {
    if s != [] { SumZero(s[..|s| - 1], f); }
  }

  lemma {:induction false} SumEqual<T>(s: seq<T>, r: seq<T>, f: T -> nat)
    requires |s| == |r| && forall i :: 0 <= i < |s| ==> f(s[i]) == f(r[i])
    ensures Sum(s, f) == Sum(r, f)
  {
    if s != [] { SumEqual(s[..|s| - 1], r[..|r| - 1], f); }
  }

  ghost function InQueue(task: nat): seq<nat> -> nat {
    queue => multiset(queue)[task]
  }

  ghost function InHand(task: nat): Worker -> nat {
    worker => if worker == Working(task) then 1 else 0
  }

  predicate Accepted(s: State, task: nat) {
    task < |s.submits| && s.submits[task].phase in {Releasing(true), Returned(true)}
  }

  /** How often the task was executed, together with how often it is waiting and being executed. */
  ghost function Copies(s: State, task: nat): nat {
    Sum(s.queues, InQueue(task)) + Sum(s.workers, InHand(task)) + multiset(s.executed)[task]
  }

  ghost predicate Once(s: State, task: nat) {
    Copies(s, task) == if Accepted(s, task) then 1 else 0
  }

  lemma SendOnce(c: Config, s: State, i: nat, task: nat)
    requires ConfigOk(c) && Inv(c, s) && Enabled(c, s, Send(i)) && Once(s, task)
    ensures Once(Apply(c, s, Send(i)), task)
  {
    var k := s.submits[i].channel;
    SumUpdate(s.queues, InQueue(task), k, s.queues[k] + [i]);
    SendInv(c, s, i);
    assert !s.closed[k];
    assert multiset(s.queues[k] + [i])[task] == multiset(s.queues[k])[task] + if task == i then 1 else 0;
    hide Sum, Inv, Enabled;
  }

  lemma HeadCount(queue: seq<nat>, task: nat)
    requires queue != []
    ensures multiset(queue)[task] == multiset(queue[1..])[task] + if queue[0] == task then 1 else 0
  {
    assert queue == [queue[0]] + queue[1..];
  }

  lemma TakeOnce(c: Config, s: State, w: nat, task: nat)
    requires ConfigOk(c) && Shape(c, s) && Enabled(c, s, Take(w)) && Once(s, task)
    ensures Once(Apply(c, s, Take(w)), task)
  {
    var k := c.channelOf[w];
    SumUpdate(s.queues, InQueue(task), k, s.queues[k][1..]);
    SumUpdate(s.workers, InHand(task), w, Working(s.queues[k][0]));
    HeadCount(s.queues[k], task);
    hide Sum;
  }

  lemma WorkerOnce(c: Config, s: State, step: Step, task: nat)
    requires ConfigOk(c) && Shape(c, s) && Enabled(c, s, step) && Once(s, task) && (step.Finish? || step.Exit?)
    ensures Once(Apply(c, s, step), task)
  {
    SumUpdate(s.workers, InHand(task), step.worker, if step.Finish? then Waiting else Exited);
    hide Sum;
  }

  lemma LockWorkers(c: Config, s: State, i: nat)
    requires ConfigOk(c) && Inv(c, s) && Enabled(c, s, Lock(i))
    ensures var s' := Apply(c, s, Lock(i));
      && s'.queues == s.queues && s'.submits == s.submits && s'.executed == s.executed && |s'.workers| == |s.workers|
      && forall w :: 0 <= w < |s.workers| ==>
           s'.workers[w] == s.workers[w] || (s.workers[w].NotStarted? && s'.workers[w].Waiting?)
  {
    hide HasWorker;
  }

  lemma LockOnce(c: Config, s: State, i: nat, task: nat)
    requires ConfigOk(c) && Inv(c, s) && Enabled(c, s, Lock(i)) && Once(s, task)
    ensures Once(Apply(c, s, Lock(i)), task)
  {
    LockWorkers(c, s, i);
    SumEqual(s.workers, Apply(c, s, Lock(i)).workers, InHand(task));
    hide Sum, Apply, Enabled, WritersOk, SubmitsOk, WorkersOk, FlagsOk, QueuesOk;
  }

  lemma StepOnce(c: Config, s: State, step: Step, task: nat)
    requires ConfigOk(c) && Inv(c, s) && Once(s, task)
    ensures Once(Apply(c, s, step), task)
  {
    hide Sum, HasWorker, WritersOk, SubmitsOk, WorkersOk, FlagsOk, QueuesOk;
    if Enabled(c, s, step) {
      match step {
        case Send(i) => SendOnce(c, s, i, task);
        case Take(w) => TakeOnce(c, s, w, task);
        case Finish(_) => WorkerOnce(c, s, step, task);
        case Exit(_) => WorkerOnce(c, s, step, task);
        case Lock(i) => LockOnce(c, s, i, task);
        case _ =>
      }
    }
  }

  lemma {:induction false} AlwaysOnce(c: Config, steps: seq<Step>, task: nat)
    requires ConfigOk(c)
    ensures Once(Exec(c, steps), task)
  {
    if steps == [] {
      SumZero(Start(c).queues, InQueue(task));
      SumZero(Start(c).workers, InHand(task));
    } else {
      Reachable(c, steps[..|steps| - 1]);
      AlwaysOnce(c, steps[..|steps| - 1], task);
      StepOnce(c, Exec(c, steps[..|steps| - 1]), steps[|steps| - 1], task);
    }
  }

  /** In every run a task is executed at most once, and only if submit accepts it. */
  lemma AtMostOnce(c: Config, steps: seq<Step>, task: nat)
    requires ConfigOk(c)
    ensures var s := Exec(c, steps); multiset(s.executed)[task] <= if Accepted(s, task) then 1 else 0
  {
    AlwaysOnce(c, steps, task);
  }

  /** When the call of Stop that closed the channels has returned, every accepted task has been executed exactly once. */
  lemma StopHasDrained(c: Config, steps: seq<Step>, stop: nat, task: nat)
    requires ConfigOk(c) && WriterAt(Exec(c, steps), stop, Done(true))
    ensures var s := Exec(c, steps); multiset(s.executed)[task] == if Accepted(s, task) then 1 else 0
  {
    hide Exec;
    var s := Exec(c, steps);
    Reachable(c, steps);
    AlwaysOnce(c, steps, task);
    assert WriterOk(s, stop);
    forall k | 0 <= k < |s.queues| ensures s.queues[k] == [] {
      assert HasWorker(c, k);
      var w :| 0 <= w < |c.channelOf| && c.channelOf[w] == k;
      assert s.workers[w].Exited?;
    }
    SumZero(s.queues, InQueue(task));
    SumZero(s.workers, InHand(task));
  }

  // ---------- No deadlock ----------

  /** The steps of the pool and of the calls inside it, as opposed to new calls and the end of the context. */
  predicate IsInternal(step: Step) {
    !step.CallSubmit? && !step.CallStart? && !step.CallStop? && !step.Cancel?
  }

  ghost predicate Stuck(c: Config, s: State)
    requires ConfigOk(c) && Shape(c, s)
  {
    forall step :: IsInternal(step) ==> !Enabled(c, s, step)
  }

  /** Every call has returned and every accepted task has been executed. */
  ghost predicate AtRest(s: State) {
    && (forall k :: 0 <= k < |s.queues| ==> s.queues[k] == [])
    && (forall w :: 0 <= w < |s.workers| ==> !s.workers[w].Working?)
    && (forall i :: 0 <= i < |s.submits| ==> s.submits[i].phase.Returned?)
    && (forall i :: 0 <= i < |s.writers| ==> s.writers[i].phase.Done?)
  }

  lemma StuckQueues(c: Config, s: State)
    requires ConfigOk(c) && Inv(c, s) && Stuck(c, s)
    ensures forall k :: 0 <= k < |s.queues| ==> s.queues[k] == []
    ensures forall w :: 0 <= w < |s.workers| ==> !s.workers[w].Working?
  {
    forall w | 0 <= w < |s.workers| ensures !s.workers[w].Working? {
      assert IsInternal(Finish(w));
    }
    forall k | 0 <= k < |s.queues| ensures s.queues[k] == [] {
      assert HasWorker(c, k);
      var w :| 0 <= w < |c.channelOf| && c.channelOf[w] == k;
      assert IsInternal(Take(w));
    }
  }

  lemma StuckReaders(c: Config, s: State)
    requires ConfigOk(c) && Inv(c, s) && Stuck(c, s)
    ensures NoReaders(s)
  {
    StuckQueues(c, s);
    forall i | 0 <= i < |s.submits| ensures !IsReader(s.submits[i]) {
      assert IsInternal(RUnlock(i)) && IsInternal(Send(i));
    }
  }

  lemma StuckWriters(c: Config, s: State)
    requires ConfigOk(c) && Inv(c, s) && Stuck(c, s)
    ensures s.writer.None? && forall i :: 0 <= i < |s.writers| ==> s.writers[i].phase.Done?
  {
    StuckReaders(c, s);
    if s.writer.Some? {
      var i := s.writer.value;
      assert WriterOk(s, i);
      assert IsInternal(Lock(i)) && IsInternal(CloseNext(i)) && IsInternal(Unlock(i));
    }
    forall i | 0 <= i < |s.writers| ensures s.writers[i].phase.Done? {
      assert WriterOk(s, i) && IsInternal(Announce(i)) && IsInternal(Wait(i));
      if s.writers[i].phase.Draining? { StuckWorkers(c, s); }
    }
  }

  lemma StuckWorkers(c: Config, s: State)
    requires ConfigOk(c) && Inv(c, s) && Stuck(c, s) && s.stopped && AllClosed(s)
    ensures AllExited(s)
  {
    StuckQueues(c, s);
    forall w | 0 <= w < |s.workers| ensures s.workers[w].Exited? {
      assert IsInternal(Exit(w));
    }
  }

  /** No reachable state is deadlocked although submit blocks while it holds the read lock. */
  lemma NoDeadlock(c: Config, steps: seq<Step>) returns (next: Step)
    requires ConfigOk(c) && !AtRest(Exec(c, steps))
    ensures IsInternal(next) && Enabled(c, Exec(c, steps), next)
  {
    hide Exec;
    var s := Exec(c, steps);
    Reachable(c, steps);
    if step :| IsInternal(step) && Enabled(c, s, step) {
      next := step;
    } else {
      StuckQueues(c, s);
      StuckReaders(c, s);
      StuckWriters(c, s);
      forall i | 0 <= i < |s.submits| ensures s.submits[i].phase.Returned? {
        assert IsInternal(RLock(i)) && !IsReader(s.submits[i]);
      }
      assert false;
    }
  }

  // ---------- Every call returns ----------

  ghost function SubmitWork(): Submit -> nat {
    (u: Submit) => match u.phase case Calling => 5 case Sending => 4 case Releasing(_) => 1 case Returned(_) => 0
  }

  ghost function WriterWork(channels: nat): Writer -> nat {
    (w: Writer) => match w.phase
      case Arriving => channels + 5
      case Announced => channels + 4
      case Closing(k) => if k <= channels then channels - k + 3 else 0
      case Draining => 1
      case Done(_) => 0
  }

  ghost function QueueWork(): seq<nat> -> nat {
    queue => 2 * |queue|
  }

  ghost function WorkerWork(): Worker -> nat {
    (w: Worker) => match w case Working(_) => 2 case Exited => 0 case _ => 1
  }

  ghost function Work(c: Config, s: State): nat {
    Sum(s.submits, SubmitWork()) + Sum(s.writers, WriterWork(c.channels)) + Sum(s.queues, QueueWork()) +
    Sum(s.workers, WorkerWork())
  }

  lemma SubmitWorkDecreases(c: Config, s: State, step: Step)
    requires ConfigOk(c) && Inv(c, s) && Enabled(c, s, step)
    requires step.RLock? || step.Send? || step.GiveUp? || step.RUnlock?
    ensures Work(c, Apply(c, s, step)) < Work(c, s)
  {
    var i := step.call;
    if step.Send? { SendInv(c, s, i); }
    var s' := Apply(c, s, step);
    SumUpdate(s.submits, SubmitWork(), i, s'.submits[i]);
    if step.Send? {
      var k := s.submits[i].channel;
      SumUpdate(s.queues, QueueWork(), k, s.queues[k] + [i]);
    }
    hide Sum, Inv;
  }

  lemma WriterWorkDecreases(c: Config, s: State, step: Step)
    requires ConfigOk(c) && Inv(c, s) && Enabled(c, s, step)
    requires step.Announce? || step.CloseNext? || step.Unlock? || step.Wait?
    ensures Work(c, Apply(c, s, step)) < Work(c, s)
  {
    var i := step.call;
    if step.CloseNext? { CloseInv(c, s, i); }
    var s' := Apply(c, s, step);
    SumUpdate(s.writers, WriterWork(c.channels), i, s'.writers[i]);
    hide Sum, Inv;
  }

  lemma LockWorkDecreases(c: Config, s: State, i: nat)
    requires ConfigOk(c) && Inv(c, s) && Enabled(c, s, Lock(i))
    ensures Work(c, Apply(c, s, Lock(i))) < Work(c, s)
  {
    LockWorkers(c, s, i);
    var s' := Apply(c, s, Lock(i));
    SumUpdate(s.writers, WriterWork(c.channels), i, s'.writers[i]);
    SumEqual(s.workers, s'.workers, WorkerWork());
    hide Sum, Inv;
  }

  lemma WorkerWorkDecreases(c: Config, s: State, step: Step)
    requires ConfigOk(c) && Inv(c, s) && Enabled(c, s, step) && (step.Take? || step.Finish? || step.Exit?)
    ensures Work(c, Apply(c, s, step)) < Work(c, s)
  {
    var w, s' := step.worker, Apply(c, s, step);
    SumUpdate(s.workers, WorkerWork(), w, s'.workers[w]);
    if step.Take? { SumUpdate(s.queues, QueueWork(), c.channelOf[w], s.queues[c.channelOf[w]][1..]); }
    hide Sum, Inv;
  }

  lemma WorkDecreases(c: Config, s: State, step: Step)
    requires ConfigOk(c) && Inv(c, s) && IsInternal(step) && Enabled(c, s, step)
    ensures Work(c, Apply(c, s, step)) < Work(c, s)
  {
    hide Work, Apply, Inv, Enabled;
    if step.Take? || step.Finish? || step.Exit? { WorkerWorkDecreases(c, s, step); }
    else if step.RLock? || step.Send? || step.GiveUp? || step.RUnlock? { SubmitWorkDecreases(c, s, step); }
    else if step.Lock? { LockWorkDecreases(c, s, step.call); }
    else { WriterWorkDecreases(c, s, step); }
  }

  /** `more` are internal steps that can all happen, one after the other. */
  ghost predicate InternalRun(c: Config, steps: seq<Step>, more: seq<Step>)
    requires ConfigOk(c)
  {
    more != [] ==>
      var n := |more| - 1;
      InternalRun(c, steps, more[..n]) && IsInternal(more[n]) && Enabled(c, Exec(c, steps + more[..n]), more[n])
  }

  /** However the goroutines are scheduled, without new calls they take no more steps than there is work. */
  lemma {:induction false} WorkBoundsSteps(c: Config, steps: seq<Step>, more: seq<Step>)
    requires ConfigOk(c) && InternalRun(c, steps, more)
    ensures |more| + Work(c, Exec(c, steps + more)) <= Work(c, Exec(c, steps))
  {
    hide Work, Apply, Enabled, ConfigOk, Inv;
    if more == [] {
      assert steps + more == steps;
    } else {
      var init := more[..|more| - 1];
      WorkBoundsSteps(c, steps, init);
      assert (steps + more)[..|steps + more| - 1] == steps + init;
      Reachable(c, steps + init);
      WorkDecreases(c, Exec(c, steps + init), more[|more| - 1]);
    }
  }

  ghost predicate AllInternal(steps: seq<Step>) {
    forall i :: 0 <= i < |steps| ==> IsInternal(steps[i])
  }

  lemma TakeStep(c: Config, steps: seq<Step>) returns (next: Step)
    requires ConfigOk(c) && !AtRest(Exec(c, steps))
    ensures IsInternal(next) && Work(c, Exec(c, steps + [next])) < Work(c, Exec(c, steps))
  {
    next := NoDeadlock(c, steps);
    assert (steps + [next])[..|steps|] == steps;
    Reachable(c, steps);
    hide Apply, Enabled, AtRest, Work;
    WorkDecreases(c, Exec(c, steps), next);
  }

  /** Every run can be continued until every call, that of Stop too, has returned. */
  lemma {:induction false} EveryCallReturns(c: Config, steps: seq<Step>) returns (more: seq<Step>)
    requires ConfigOk(c)
    ensures |more| <= Work(c, Exec(c, steps)) && AllInternal(more)
    ensures AtRest(Exec(c, steps + more))
    decreases Work(c, Exec(c, steps))
  {
    hide Exec, Work, AtRest, ConfigOk;
    if AtRest(Exec(c, steps)) {
      more := [];
      assert steps + more == steps;
    } else {
      var next := TakeStep(c, steps);
      var rest := EveryCallReturns(c, steps + [next]);
      more := [next] + rest;
      assert steps + more == (steps + [next]) + rest;
    }
  }

  // ---------- Which calls are accepted, and which start or stop the pool ----------

  lemma ExecSnoc(c: Config, steps: seq<Step>, step: Step)
    requires ConfigOk(c)
    ensures Exec(c, steps + [step]) == Apply(c, Exec(c, steps), step)
  {
    assert (steps + [step])[..|steps|] == steps;
  }

  ghost predicate QueuesFit(c: Config, s: State) {
    forall k :: 0 <= k < |s.queues| ==> |s.queues[k]| <= c.capacity
  }

  lemma QueuesFitStep(c: Config, s: State, step: Step)
    requires ConfigOk(c) && Shape(c, s) && QueuesFit(c, s)
    ensures QueuesFit(c, Apply(c, s, step))
  {
    hide HasWorker;
  }

  lemma {:induction false} QueuesFitHolds(c: Config, steps: seq<Step>)
    requires ConfigOk(c)
    ensures QueuesFit(c, Exec(c, steps))
  {
    hide Apply, ConfigOk;
    if steps == [] {
      assert QueuesFit(c, Start(c));
    } else {
      QueuesFitHolds(c, steps[..|steps| - 1]);
      QueuesFitStep(c, Exec(c, steps[..|steps| - 1]), steps[|steps| - 1]);
    }
  }

  /** A send on a closed channel and a second close of one are what would make the pool panic. */
  lemma PanicsIff(c: Config, s: State, step: Step)
    requires ConfigOk(c) && Shape(c, s) && Enabled(c, s, step)
    ensures Apply(c, s, step).panicked <==>
      || (step.Send? && s.closed[s.submits[step.call].channel])
      || (step.CloseNext? && s.closed[s.writers[step.call].phase.next])
  {
    hide HasWorker;
  }

  /** The decision of submit: it sends its task if and only if it finds the pool running when it gets the read lock. */
  lemma SendsIff(c: Config, steps: seq<Step>, i: nat)
    requires ConfigOk(c) && SubmitAt(Exec(c, steps), i, Calling)
    ensures var s, s' := Exec(c, steps), Exec(c, steps + [RLock(i)]);
      && (s.writer.Some? ==> s' == s)
      && (s.writer.None? ==> SubmitAt(s', i, if s.running then Sending else Releasing(false)) && s'.queues == s.queues)
  {
    hide Exec, HasWorker;
    ExecSnoc(c, steps, RLock(i));
    NeverPanics(c, steps);
  }

  /**
   * In every run the task is accepted as soon as its channel has room, at the end of the queue, and no queue is longer than
   * its channel; only a cancelled context lets a call give up.
   */
  lemma AcceptedIff(c: Config, steps: seq<Step>, i: nat)
    requires ConfigOk(c) && SubmitAt(Exec(c, steps), i, Sending)
    ensures var s, sent, gone := Exec(c, steps), Exec(c, steps + [Send(i)]), Exec(c, steps + [GiveUp(i)]);
      var k := s.submits[i].channel;
      && k < |s.queues| == |sent.queues| && |s.queues[k]| <= c.capacity
      && (|s.queues[k]| < c.capacity ==> SubmitAt(sent, i, Releasing(true)) && sent.queues == s.queues[k := s.queues[k] + [i]])
      && (|s.queues[k]| == c.capacity ==> sent == s)
      && (if s.cancelled then SubmitAt(gone, i, Releasing(false)) && gone.queues == s.queues else gone == s)
  {
    hide Exec, HasWorker;
    ExecSnoc(c, steps, Send(i));
    ExecSnoc(c, steps, GiveUp(i));
    QueuesFitHolds(c, steps);
    Reachable(c, steps);
    OpenWhileSending(c, Exec(c, steps), i);
  }

  lemma OpenWhileSending(c: Config, s: State, i: nat)
    requires ConfigOk(c) && Inv(c, s) && SubmitAt(s, i, Sending)
    ensures s.submits[i].channel < |s.closed| && !s.closed[s.submits[i].channel] && !s.panicked
  {
    hide HasWorker, WritersOk, WorkersOk;
  }

  /**
   * What Start and Stop do once they have the write lock: Stop closes the channels if and only if the pool is running, and
   * then it runs no more; Start starts the workers if and only if the pool has never been started.
   */
  lemma LockLeadsTo(c: Config, steps: seq<Step>, i: nat)
    requires ConfigOk(c) && WriterAt(Exec(c, steps), i, Announced) && NoReaders(Exec(c, steps))
    ensures var s, s' := Exec(c, steps), Exec(c, steps + [Lock(i)]);
      var closes, starts := s.writers[i].isStop && s.running, !s.writers[i].isStop && !s.running && !s.stopped;
      && WriterAt(s', i, if closes then Closing(0) else Done(false))
      && s'.running == ((s.running && !closes) || starts) && s'.stopped == (s.stopped || closes)
      && s'.writer == (if closes then s.writer else None) && s'.queues == s.queues && s'.closed == s.closed
      && |s'.workers| == |s.workers|
      && forall w :: 0 <= w < |s.workers| ==> s'.workers[w] == if starts then Waiting else s.workers[w]
  {
    hide Exec, HasWorker;
    ExecSnoc(c, steps, Lock(i));
    NeverPanics(c, steps);
  }

  /** The context is cancelled if and only if there is one and someone has cancelled it. */
  lemma {:induction false} CancelledIff(c: Config, steps: seq<Step>)
    requires ConfigOk(c)
    ensures Exec(c, steps).cancelled <==> c.hasContext && exists i :: 0 <= i < |steps| && steps[i].Cancel?
  {
    if steps != [] {
      var init, last := steps[..|steps| - 1], steps[|steps| - 1];
      CancelledIff(c, init);
      NeverPanics(c, init);
      OnlyCancelCancels(c, Exec(c, init), last);
      hide Exec, Apply, ConfigOk;
      if i :| 0 <= i < |init| && init[i].Cancel? { assert steps[i].Cancel?; }
      if i :| 0 <= i < |steps| && steps[i].Cancel? { assert i < |init| ==> init[i].Cancel?; }
    }
  }

  lemma OnlyCancelCancels(c: Config, s: State, step: Step)
    requires ConfigOk(c) && Shape(c, s) && !s.panicked
    ensures Apply(c, s, step).cancelled <==> s.cancelled || (step.Cancel? && c.hasContext)
  {
    hide HasWorker;
  }

  /** The call of Stop that closed the channels returns when every worker has ended, and the others at once. */
  lemma WaitLeadsTo(c: Config, steps: seq<Step>, i: nat)
    requires ConfigOk(c) && WriterAt(Exec(c, steps), i, Draining)
    ensures var s, s' := Exec(c, steps), Exec(c, steps + [Wait(i)]);
      if AllExited(s) then WriterAt(s', i, Done(true)) else s' == s
  {
    hide Exec, HasWorker, AllExited;
    ExecSnoc(c, steps, Wait(i));
    NeverPanics(c, steps);
  }

  /** A worker takes the oldest task of its channel, runs it to its end, and ends when its channel is closed and empty. */
  lemma WorkerLeadsTo(c: Config, steps: seq<Step>, w: nat)
    requires ConfigOk(c) && w < |Exec(c, steps).workers|
    ensures |Exec(c, steps).workers| == |c.channelOf| && c.channelOf[w] < |Exec(c, steps).queues|
    ensures |Exec(c, steps + [Take(w)]).workers| == |Exec(c, steps + [Finish(w)]).workers| == |c.channelOf|
    ensures |Exec(c, steps + [Exit(w)]).workers| == |c.channelOf|
    ensures var s, taken := Exec(c, steps), Exec(c, steps + [Take(w)]);
      var queue := s.queues[c.channelOf[w]];
      if s.workers[w].Waiting? && queue != [] then
        taken.workers[w] == Working(queue[0]) && taken.queues == s.queues[c.channelOf[w] := queue[1..]]
      else taken == s
    ensures var s, finished := Exec(c, steps), Exec(c, steps + [Finish(w)]);
      if s.workers[w].Working? then finished.workers[w].Waiting? && finished.executed == s.executed + [s.workers[w].task]
      else finished == s
    ensures var s, exited := Exec(c, steps), Exec(c, steps + [Exit(w)]);
      exited.workers[w].Exited? <==>
        s.workers[w].Exited? || (s.workers[w].Waiting? && s.queues[c.channelOf[w]] == [] && s.closed[c.channelOf[w]])
  {
    hide Exec, HasWorker;
    ExecSnoc(c, steps, Take(w));
    ExecSnoc(c, steps, Finish(w));
    ExecSnoc(c, steps, Exit(w));
    NeverPanics(c, steps);
  }

  // ---------- A second Stop ----------

  lemma Do(c: Config, steps: seq<Step>, step: Step) returns (steps': seq<Step>)
    requires ConfigOk(c)
    ensures steps' == steps + [step] && Exec(c, steps') == Apply(c, Exec(c, steps), step)
  {
    steps' := steps + [step];
    assert steps'[..|steps'| - 1] == steps;
  }

  /** The call of Start that a pool needs which is not running from the beginning. */
  ghost function Starter(c: Config): seq<Writer> {
    if c.autostart then [] else [Writer(false, Done(false))]
  }

  /** One task has been accepted and none was executed; the calls of Start and Stop have come so far. */
  ghost predicate OneTask(s: State, writers: seq<Writer>) {
    s.submits == [Submit(0, Returned(true))] && s.executed == [] && !s.panicked && s.writers == writers
  }

  /** Two calls of Stop have arrived, of which the first has come so far. */
  ghost function Stops(c: Config, first: WriterPhase): seq<Writer> {
    Starter(c) + [Writer(true, first), Writer(true, Arriving)]
  }

  lemma Begin(c: Config) returns (steps: seq<Step>)
    requires ConfigOk(c)
    ensures var s := Exec(c, steps);
      && s.running && !s.panicked && s.writer.None? && s.writers == Starter(c) && s.submits == [] && s.executed == []
      && NoneClosed(s) && forall k :: 0 <= k < |s.queues| ==> s.queues[k] == []
  {
    steps := [];
    assert Exec(c, steps) == Start(c);
    hide Exec, HasWorker;
    if !c.autostart {
      steps := Do(c, steps, CallStart);
      steps := Do(c, steps, Announce(0));
      steps := Do(c, steps, Lock(0));
    }
  }

  lemma AcceptOne(c: Config) returns (steps: seq<Step>)
    requires ConfigOk(c) && c.channels > 0
    ensures var s := Exec(c, steps);
      OneTask(s, Starter(c)) && s.running && s.writer.None? && NoneClosed(s)
  {
    hide Exec, HasWorker, Starter;
    steps := Begin(c);
    steps := Do(c, steps, CallSubmit(0));
    steps := Do(c, steps, RLock(0));
    assert Exec(c, steps).submits == [Submit(0, Sending)];
    steps := Do(c, steps, Send(0));
    steps := Do(c, steps, RUnlock(0));
  }

  ghost predicate ClosedBefore(s: State, next: nat) {
    forall k :: 0 <= k < |s.closed| ==> (s.closed[k] <==> k < next)
  }

  /** The first Stop has the write lock. */
  lemma StopLocks(c: Config) returns (steps: seq<Step>)
    requires ConfigOk(c) && c.channels > 0
    ensures var s := Exec(c, steps);
      OneTask(s, Stops(c, Closing(0))) && !s.running && s.writer == Some(|Starter(c)|) && ClosedBefore(s, 0)
  {
    hide Exec, HasWorker, Starter;
    var first := |Starter(c)|;
    steps := AcceptOne(c);
    steps := Do(c, steps, CallStop);
    steps := Do(c, steps, CallStop);
    assert Exec(c, steps).writers == Stops(c, Arriving);
    steps := Do(c, steps, Announce(first));
    assert Exec(c, steps).writers == Stops(c, Announced);
    steps := Do(c, steps, Lock(first));
  }

  lemma {:induction false} StopCloses(c: Config, n: nat) returns (steps: seq<Step>)
    requires ConfigOk(c) && 0 < c.channels && n <= c.channels
    ensures var s := Exec(c, steps);
      OneTask(s, Stops(c, Closing(n))) && !s.running && s.writer == Some(|Starter(c)|) && ClosedBefore(s, n)
  {
    hide Exec, HasWorker, Starter;
    if n == 0 {
      steps := StopLocks(c);
    } else {
      steps := StopCloses(c, n - 1);
      steps := Do(c, steps, CloseNext(|Starter(c)|));
    }
  }

  /**
   * Only the call of Stop that closes the channels waits. Whatever the pool, another call can return while an accepted
   * task has still to be executed.
   */
  lemma SecondStopDoesNotWait(c: Config) returns (steps: seq<Step>, call: nat)
    requires ConfigOk(c) && c.channels > 0
    ensures var s := Exec(c, steps);
      WriterAt(s, call, Done(false)) && s.writers[call].isStop && Accepted(s, 0) && s.executed == []
  {
    hide Exec, HasWorker, Starter;
    call := |Starter(c)| + 1;
    steps := StopCloses(c, c.channels);
    steps := Do(c, steps, Unlock(call - 1));
    assert Exec(c, steps).writers == Stops(c, Draining);
    steps := Do(c, steps, Announce(call));
    steps := Do(c, steps, Lock(call));
  }

  // ---------- The lock regions and the worker loop ----------

  /**
   * The pool as its methods see it inside the lock. `Submit` is the send that does not wait, `Stop` the part under the
   * write lock, and `DrainChannel` the loop of the only worker of a closed channel.
   */
  class Pool {
    const config: Config
    var running: bool
    var stopped: bool
    var closed: seq<bool>
    var queues: seq<seq<nat>>
    var executed: seq<nat>

    ghost predicate Valid()
      reads this
    {
      && |closed| == |queues| == config.channels
      && (running ==> !stopped)
      && forall k :: 0 <= k < |closed| ==> (closed[k] <==> stopped)
    }

    constructor (config: Config)
      ensures Valid() && this.config == config && running == config.autostart && !stopped && executed == []
      ensures forall k :: 0 <= k < config.channels ==> queues[k] == []
    {
      this.config := config;
      running, stopped, executed := config.autostart, false, [];
      closed, queues := seq(config.channels, _ => false), seq(config.channels, _ => []);
    }

    /** A pool starts once; a stopped one is not started again. */
    method StartPool() returns (ok: bool)
      requires Valid()
      modifies this`running
      ensures Valid() && ok == !(old(running) || stopped) && running == (old(running) || ok)
    {
      ok := !(running || stopped);
      if ok { running := true; }
    }

    /** The task is accepted if and only if the pool is running, and then the channel is open. */
    method SubmitTask(channel: nat, task: nat) returns (accepted: bool)
      requires Valid() && channel < config.channels && (running ==> |queues[channel]| < config.capacity)
      modifies this`queues
      ensures Valid() && accepted == running && (accepted ==> !closed[channel])
      ensures queues == if accepted then old(queues)[channel := old(queues)[channel] + [task]] else old(queues)
    {
      if !running { return false; }
      queues := queues[channel := queues[channel] + [task]];
      return true;
    }

    /** Only the first Stop of a running pool closes the channels, each of them once. */
    method StopPool() returns (closing: bool)
      requires Valid()
      modifies this`running, this`stopped, this`closed
      ensures Valid() && !running && closing == old(running)
      ensures stopped == (old(stopped) || old(running))
    {
      if !running { return false; }
      running, stopped := false, true;
      for k := 0 to |closed|
        invariant |closed| == config.channels && !running && stopped
        invariant forall j :: 0 <= j < |closed| ==> (closed[j] <==> j < k)
      {
        assert !closed[k];
        closed := closed[k := true];
      }
      return true;
    }

    /** The worker of a closed channel executes every task left in it, in order, before it ends. */
    method DrainChannel(channel: nat)
      requires Valid() && channel < config.channels && closed[channel]
      modifies this`queues, this`executed
      ensures Valid() && queues == old(queues)[channel := []] && executed == old(executed) + old(queues)[channel]
    {
      ghost var tasks := queues[channel];
      while queues[channel] != []
        invariant Valid() && |queues| == |old(queues)| && |queues[channel]| <= |tasks|
        invariant queues == old(queues)[channel := tasks[|tasks| - |queues[channel]|..]]
        invariant executed == old(executed) + tasks[..|tasks| - |queues[channel]|]
        decreases |queues[channel]|
      {
        var task := queues[channel][0];
        queues := queues[channel := queues[channel][1..]];
        executed := executed + [task];
      }
    }
  }
}
