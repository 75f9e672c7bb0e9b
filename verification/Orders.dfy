/**
 * The order system: ProcessOrder reads the item with a row lock, checks the version again when it writes the new stock,
 * and records the order in the same transaction. Any number of calls run at a time, and a database operation or a
 * commit may fail at any point.
 */
module Orders {
  import opened GoInt
  import opened Products

  datatype Option<T> = None | Some(value: T)

  /** Both numbers are 32 bits wide, in Go and in the database. */
  datatype Item = Item(quantity: int, version: int)

  predicate IsItem(item: Item) {
    IsInt32(item.quantity) && IsInt32(item.version)
  }

  /** A row of order_history; `call` is the call that made it. */
  datatype Record = Record(call: nat, quantity: int, beforeStock: int, afterStock: int)

  datatype Error = Deadlock | LockFailed | InsufficientStock | MaxRetries | Cancelled | Other

  datatype Result = Success | Failure(error: Error)

  datatype Phase =
    | Attempting
    | Locked(read: Item)
    | HasWritten(read: Item)
    | HasRecorded(read: Item)
    | Returned(result: Result)

  /** A call of ProcessOrder, with the number of attempts before the current one. */
  datatype Call = Call(quantity: int, attempt: nat, phase: Phase)

  /** The committed item and history, and the transaction that holds the row lock. */
  datatype State = State(item: Item, history: seq<Record>, holder: Option<nat>, calls: seq<Call>)

  /** `CommitApplies` is a commit that the database carries out although the caller gets an error for it. */
  datatype Step =
    | Order(quantity: int)
    | Lock(call: nat)
    | Write(call: nat)
    | AddHistory(call: nat)
    | Commit(call: nat)
    | CommitApplies(call: nat)
    | Fail(call: nat, error: Error)

  function SetPhase(s: State, i: nat, phase: Phase): State
    requires i < |s.calls|
  {
    s.(calls := s.calls[i := s.calls[i].(phase := phase)])
  }

  /** The errors after which ProcessOrder tries again. */
  predicate IsRetried(error: Error) {
    error.Deadlock? || error.LockFailed?
  }

  /** The transaction rolls back; ProcessOrder waits and tries again, or returns. */
  function RollBack(maxRetries: nat, s: State, i: nat, error: Error): State
    requires i < |s.calls|
  {
    var call := s.calls[i];
    var t := if s.holder == Some(i) then s.(holder := None) else s;
    t.(calls := s.calls[i :=
      if !IsRetried(error) then call.(phase := Returned(Failure(error)))
      else if call.attempt + 1 < maxRetries then call.(attempt := call.attempt + 1, phase := Attempting)
      else call.(phase := Returned(Failure(MaxRetries)))])
  }

  /** The subtraction of the code, which wraps. */
  function NewStock(stock: int, quantity: int): int {
    Wrap32(stock - quantity)
  }

  /** The transaction is committed. */
  function CarryOut(s: State, i: nat, result: Result): State
    requires i < |s.calls| && s.calls[i].phase.HasRecorded?
  {
    var read, stock := s.calls[i].phase.read, NewStock(s.calls[i].phase.read.quantity, s.calls[i].quantity);
    SetPhase(s, i, Returned(result)).(
      item := Item(stock, s.item.version + 1),
      history := s.history + [Record(i, s.calls[i].quantity, read.quantity, stock)],
      holder := None)
  }

  /** One step; a step that cannot happen changes nothing. PostgreSQL refuses to count the version beyond its column. */
  function Apply(maxRetries: nat, s: State, step: Step): State {
    match step
    case Order(q) =>
      if IsInt32(q) then
        s.(calls := s.calls + [Call(q, 0, if maxRetries == 0 then Returned(Failure(MaxRetries)) else Attempting)])
      else s
    case Lock(i) =>
      if i < |s.calls| && s.calls[i].phase.Attempting? && s.holder.None? then
        SetPhase(s, i, Locked(s.item)).(holder := Some(i))
      else s
    case Write(i) =>
      if i < |s.calls| && s.calls[i].phase.Locked? then
        var read := s.calls[i].phase.read;
        if read.quantity < s.calls[i].quantity then RollBack(maxRetries, s, i, InsufficientStock)
        else if s.item.version != read.version then RollBack(maxRetries, s, i, LockFailed)
        else if s.item.version == INT32_MAX then RollBack(maxRetries, s, i, Other)
        else SetPhase(s, i, HasWritten(read))
      else s
    case AddHistory(i) =>
      if i < |s.calls| && s.calls[i].phase.HasWritten? then SetPhase(s, i, HasRecorded(s.calls[i].phase.read)) else s
    case Commit(i) =>
      if i < |s.calls| && s.calls[i].phase.HasRecorded? then CarryOut(s, i, Success) else s
    case CommitApplies(i) =>
      if i < |s.calls| && s.calls[i].phase.HasRecorded? then CarryOut(s, i, Failure(Other)) else s
    case Fail(i, error) =>
      if i < |s.calls| && !s.calls[i].phase.Returned? && !error.MaxRetries? then RollBack(maxRetries, s, i, error) else s
  }

  function Exec(maxRetries: nat, item: Item, steps: seq<Step>): State {
    if steps == [] then State(item, [], None, [])
    else Apply(maxRetries, Exec(maxRetries, item, steps[..|steps| - 1]), steps[|steps| - 1])
  }

  // ---------- The history accounts for the stock ----------

  function Consumed(history: seq<Record>): int {
    if history == [] then 0 else Consumed(history[..|history| - 1]) + history[|history| - 1].quantity
  }

  /** Each record starts from the stock that the one before it left, and the last one left the current stock. */
  ghost predicate Chains(start: int, history: seq<Record>, stock: int) {
    (forall k :: 0 <= k < |history| ==> Link(start, history, k)) && stock == StockAfter(start, history, |history|)
  }

  /** The stock that the first k records left. */
  function StockAfter(start: int, history: seq<Record>, k: nat): int
    requires k <= |history|
  {
    if k == 0 then start else history[k - 1].afterStock
  }

  predicate Link(start: int, history: seq<Record>, k: nat)
    requires k < |history|
  {
    && history[k].beforeStock == StockAfter(start, history, k)
    && history[k].afterStock == NewStock(history[k].beforeStock, history[k].quantity)
  }

  function Rows(history: seq<Record>, call: nat): nat {
    if history == [] then 0 else Rows(history[..|history| - 1], call) + if history[|history| - 1].call == call then 1 else 0
  }

  predicate InTransaction(phase: Phase) {
    phase.Locked? || phase.HasWritten? || phase.HasRecorded?
  }

  ghost predicate CallOk(maxRetries: nat, s: State, i: nat)
    requires i < |s.calls|
  {
    var call := s.calls[i];
    && (InTransaction(call.phase) <==> s.holder == Some(i))
    && (InTransaction(call.phase) ==> call.phase.read == s.item)
    && (call.phase.HasWritten? || call.phase.HasRecorded? ==>
          call.quantity <= s.item.quantity && s.item.version < INT32_MAX)
    && IsInt32(call.quantity)
    && (!call.phase.Returned? ==> call.attempt < maxRetries)
  }

  ghost predicate Inv(maxRetries: nat, start: Item, s: State) {
    && (forall i :: 0 <= i < |s.calls| ==> CallOk(maxRetries, s, i))
    && (s.holder.Some? ==> s.holder.value < |s.calls|)
    && Chains(start.quantity, s.history, s.item.quantity)
    && s.item.quantity == Wrap32(start.quantity - Consumed(s.history))
    && s.item.version == start.version + |s.history|
    && IsItem(s.item)
  }

  lemma ChainsSnoc(start: int, history: seq<Record>, stock: int, record: Record)
    requires Chains(start, history, stock)
    requires record.beforeStock == stock && record.afterStock == NewStock(stock, record.quantity)
    ensures Chains(start, history + [record], record.afterStock)
    ensures Consumed(history + [record]) == Consumed(history) + record.quantity
  {
    assert (history + [record])[..|history|] == history;
    forall k | 0 <= k < |history + [record]| ensures Link(start, history + [record], k) {
      if k < |history| { assert Link(start, history, k); }
    }
  }

  lemma CommitOk(maxRetries: nat, start: Item, s: State, i: nat, result: Result)
    requires Inv(maxRetries, start, s) && i < |s.calls| && s.calls[i].phase.HasRecorded?
    ensures Inv(maxRetries, start, CarryOut(s, i, result))
  {
    var s' := CarryOut(s, i, result);
    assert CallOk(maxRetries, s, i);
    var record := s'.history[|s.history|];
    assert s'.history == s.history + [record];
    ChainsSnoc(start.quantity, s.history, s.item.quantity, record);
    Wrap32Again(start.quantity - Consumed(s.history), record.quantity);
    Wrap32Is(s.item.quantity - record.quantity);
    hide Chains, Consumed, Wrap32;
    forall j | 0 <= j < |s'.calls| ensures CallOk(maxRetries, s', j) {
      assert CallOk(maxRetries, s, j);
    }
  }

  lemma StepOk(maxRetries: nat, start: Item, s: State, step: Step)
    requires Inv(maxRetries, start, s)
    ensures Inv(maxRetries, start, Apply(maxRetries, s, step))
  {
    if step.Commit? || step.CommitApplies? {
      if step.call < |s.calls| && s.calls[step.call].phase.HasRecorded? {
        CommitOk(maxRetries, start, s, step.call, if step.Commit? then Success else Failure(Other));
      }
    } else {
      var s' := Apply(maxRetries, s, step);
      hide Chains, Consumed, Wrap32;
      forall j | 0 <= j < |s'.calls| ensures CallOk(maxRetries, s', j) {
        if j < |s.calls| { assert CallOk(maxRetries, s, j); }
      }
    }
  }

  lemma {:induction false} Reachable(maxRetries: nat, start: Item, steps: seq<Step>)
    requires IsItem(start)
    ensures Inv(maxRetries, start, Exec(maxRetries, start, steps))
  {
    if steps == [] {
      Wrap32Is(start.quantity);
    } else {
      Reachable(maxRetries, start, steps[..|steps| - 1]);
      StepOk(maxRetries, start, Exec(maxRetries, start, steps[..|steps| - 1]), steps[|steps| - 1]);
    }
  }

  /**
   * The records' stocks chain, each advanced the version once, and modulo 2^32 the stock that is gone is the sum of the
   * recorded orders.
   */
  lemma HistoryAccountsForStock(maxRetries: nat, start: Item, steps: seq<Step>)
    requires IsItem(start)
    ensures var s := Exec(maxRetries, start, steps);
      && s.item.quantity == Wrap32(start.quantity - Consumed(s.history))
      && Chains(start.quantity, s.history, s.item.quantity)
      && s.item.version == start.version + |s.history|
  {
    hide Exec;
    Reachable(maxRetries, start, steps);
  }

  // ---------- Orders that wrap ----------

  /** The orders of a run are for permitted quantities. */
  ghost predicate AsksFor(steps: seq<Step>, permitted: int -> bool) {
    forall i :: 0 <= i < |steps| && steps[i].Order? ==> permitted(steps[i].quantity)
  }

  /** How many more orders the version can count. */
  function Room(item: Item): int {
    INT32_MAX - item.version
  }

  /** The quantity is not so negative that as many orders as the version can count could take the stock beyond an int32. */
  ghost predicate Harmless(start: Item, quantity: int) {
    IsInt32(quantity) ==> start.quantity - Times(Room(start), quantity) <= INT32_MAX
  }

  ghost predicate AllHarmless(start: Item, permitted: int -> bool) {
    forall quantity :: permitted(quantity) ==> Harmless(start, quantity)
  }

  /** What one would expect of every state: the stock is not negative, and the stock that is gone is the sum. */
  ghost predicate Accounts(start: Item, s: State) {
    s.item.quantity >= 0 && s.item.quantity == start.quantity - Consumed(s.history)
  }

  ghost predicate HistoryHarmless(start: Item, history: seq<Record>) {
    forall k :: 0 <= k < |history| ==> IsInt32(history[k].quantity) && Harmless(start, history[k].quantity)
  }

  ghost predicate CallsPermitted(s: State, permitted: int -> bool) {
    && (forall i :: 0 <= i < |s.calls| ==> permitted(s.calls[i].quantity) && IsInt32(s.calls[i].quantity))
    && forall k :: 0 <= k < |s.history| ==> permitted(s.history[k].quantity) && IsInt32(s.history[k].quantity)
  }

  lemma PermittedStep(maxRetries: nat, s: State, step: Step, permitted: int -> bool)
    requires CallsPermitted(s, permitted) && (step.Order? ==> permitted(step.quantity))
    ensures CallsPermitted(Apply(maxRetries, s, step), permitted)
  {
    hide Wrap32;
  }

  lemma {:induction false} QuantitiesPermitted(maxRetries: nat, start: Item, steps: seq<Step>, permitted: int -> bool)
    requires AsksFor(steps, permitted)
    ensures CallsPermitted(Exec(maxRetries, start, steps), permitted)
  {
    hide CallsPermitted, Apply;
    if steps == [] {
      NonePermitted(start, permitted);
    } else {
      QuantitiesPermitted(maxRetries, start, steps[..|steps| - 1], permitted);
      PermittedStep(maxRetries, Exec(maxRetries, start, steps[..|steps| - 1]), steps[|steps| - 1], permitted);
    }
  }

  lemma NonePermitted(start: Item, permitted: int -> bool)
    ensures CallsPermitted(State(start, [], None, []), permitted)
  {
  }

  /** Room times the sum of the quantities is at most the sum of Room times each of them. */
  lemma {:induction false} SumOfHarmless(start: Item, history: seq<Record>)
    requires HistoryHarmless(start, history)
    ensures -Times(Room(start), Consumed(history)) <= Times(|history|, INT32_MAX - start.quantity)
    ensures history == [] ==> Consumed(history) == 0
  {
    hide Times, Room;
    TimesNext(Room(start), 0, 0);
    TimesNext(0, INT32_MAX - start.quantity, 0);
    if history != [] {
      var init, last := history[..|history| - 1], history[|history| - 1];
      SumOfHarmless(start, init);
      assert Harmless(start, last.quantity);
      TimesNext(Room(start), Consumed(init), last.quantity);
      TimesNext(|init|, INT32_MAX - start.quantity, 0);
    }
  }

  /** While every order is harmless, no subtraction has wrapped. */
  lemma {:induction false} HarmlessAccounts(maxRetries: nat, start: Item, steps: seq<Step>, permitted: int -> bool)
    requires IsItem(start) && start.quantity >= 0 && AllHarmless(start, permitted) && AsksFor(steps, permitted)
    ensures Accounts(start, Exec(maxRetries, start, steps))
  {
    if steps != [] {
      var init := steps[..|steps| - 1];
      HarmlessAccounts(maxRetries, start, init, permitted);
      HarmlessNext(maxRetries, start, init, steps[|steps| - 1], permitted);
    }
  }

  lemma ConsumedLittle(maxRetries: nat, start: Item, steps: seq<Step>, permitted: int -> bool)
    requires IsItem(start) && AllHarmless(start, permitted) && AsksFor(steps, permitted)
    ensures -Consumed(Exec(maxRetries, start, steps).history) <= INT32_MAX - start.quantity
  {
    hide Exec, Times, Wrap32, Consumed;
    Reachable(maxRetries, start, steps);
    QuantitiesPermitted(maxRetries, start, steps, permitted);
    var s := Exec(maxRetries, start, steps);
    forall k | 0 <= k < |s.history| ensures IsInt32(s.history[k].quantity) && Harmless(start, s.history[k].quantity) {
    }
    SumOfHarmless(start, s.history);
    KeepsWithin(Room(start), Consumed(s.history), |s.history|, INT32_MAX - start.quantity);
  }

  lemma CarryOutAccounts(maxRetries: nat, start: Item, s: State, i: nat, result: Result)
    requires i < |s.calls| && CallOk(maxRetries, s, i) && s.calls[i].phase.HasRecorded?
    requires Accounts(start, s) && -Consumed(CarryOut(s, i, result).history) <= INT32_MAX - start.quantity
    ensures Accounts(start, CarryOut(s, i, result))
  {
    hide Wrap32;
    var s' := CarryOut(s, i, result);
    assert s'.history[..|s.history|] == s.history;
    Wrap32Is(s.item.quantity - s.calls[i].quantity);
  }

  lemma OthersChangeNothing(maxRetries: nat, s: State, step: Step)
    requires !((step.Commit? || step.CommitApplies?) && step.call < |s.calls| && s.calls[step.call].phase.HasRecorded?)
    ensures Apply(maxRetries, s, step).history == s.history && Apply(maxRetries, s, step).item == s.item
  {
    hide NewStock;
  }

  lemma HarmlessNext(maxRetries: nat, start: Item, steps: seq<Step>, step: Step, permitted: int -> bool)
    requires IsItem(start) && AllHarmless(start, permitted) && AsksFor(steps + [step], permitted)
    requires Accounts(start, Exec(maxRetries, start, steps))
    ensures Accounts(start, Exec(maxRetries, start, steps + [step]))
  {
    hide Exec, Wrap32, AllHarmless, AsksFor, Chains, Consumed, RollBack, CarryOut, CallOk;
    var s := Exec(maxRetries, start, steps);
    Next(maxRetries, start, steps, step);
    Reachable(maxRetries, start, steps);
    ConsumedLittle(maxRetries, start, steps + [step], permitted);
    if (step.Commit? || step.CommitApplies?) && step.call < |s.calls| && s.calls[step.call].phase.HasRecorded? {
      assert CallOk(maxRetries, s, step.call);
      CarryOutAccounts(maxRetries, start, s, step.call, if step.Commit? then Success else Failure(Other));
    } else {
      OthersChangeNothing(maxRetries, s, step);
    }
  }

  lemma Next(maxRetries: nat, start: Item, steps: seq<Step>, step: Step)
    ensures Exec(maxRetries, start, steps + [step]) == Apply(maxRetries, Exec(maxRetries, start, steps), step)
  {
    assert (steps + [step])[..|steps|] == steps;
  }

  lemma Do(maxRetries: nat, start: Item, steps: seq<Step>, step: Step) returns (steps': seq<Step>)
    ensures steps' == steps + [step]
    ensures Exec(maxRetries, start, steps') == Apply(maxRetries, Exec(maxRetries, start, steps), step)
  {
    steps' := steps + [step];
    Next(maxRetries, start, steps, step);
  }

  /** One call with nobody else at work, and enough stock. */
  lemma OrderOnce(maxRetries: nat, start: Item, steps: seq<Step>, quantity: int) returns (steps': seq<Step>)
    requires var s := Exec(maxRetries, start, steps);
      maxRetries > 0 && s.holder.None? && IsInt32(quantity) && quantity <= s.item.quantity && s.item.version < INT32_MAX
    ensures var s, s' := Exec(maxRetries, start, steps), Exec(maxRetries, start, steps');
      && s'.holder.None? && s'.item == Item(NewStock(s.item.quantity, quantity), s.item.version + 1)
      && Consumed(s'.history) == Consumed(s.history) + quantity
    ensures steps < steps' && forall i :: |steps| <= i < |steps'| && steps'[i].Order? ==> steps'[i].quantity == quantity
  {
    hide Exec, Wrap32;
    var s := Exec(maxRetries, start, steps);
    var n := |s.calls|;
    steps' := Do(maxRetries, start, steps, Order(quantity));
    steps' := Do(maxRetries, start, steps', Lock(n));
    assert Exec(maxRetries, start, steps').calls[n] == Call(quantity, 0, Locked(s.item));
    steps' := Do(maxRetries, start, steps', Write(n));
    steps' := Do(maxRetries, start, steps', AddHistory(n));
    assert Exec(maxRetries, start, steps').calls[n] == Call(quantity, 0, HasRecorded(s.item));
    steps' := Do(maxRetries, start, steps', Commit(n));
    var history := Exec(maxRetries, start, steps').history;
    assert history[..|s.history|] == s.history;
  }

  /** The stock after k orders of a negative quantity, unless it has wrapped by then. */
  ghost predicate HasGrown(start: Item, s: State, quantity: int, k: nat) {
    && Consumed(s.history) <= 0
    && (s.item.quantity >= 0 ==>
          s.holder.None? && s.item == Item(start.quantity - Times(k, quantity), start.version + k))
  }

  lemma OrderAgain(maxRetries: nat, start: Item, before: seq<Step>, quantity: int, k: nat) returns (steps: seq<Step>)
    requires maxRetries > 0 && IsItem(start) && IsInt32(quantity) && quantity < 0 && k < Room(start)
    requires HasGrown(start, Exec(maxRetries, start, before), quantity, k)
    ensures HasGrown(start, Exec(maxRetries, start, steps), quantity, k + 1)
    ensures before <= steps && forall i :: |before| <= i < |steps| && steps[i].Order? ==> steps[i].quantity == quantity
  {
    hide Exec, Times, Wrap32, Consumed, Chains, CallOk;
    Reachable(maxRetries, start, before);
    steps := before;
    var stock := Exec(maxRetries, start, before).item.quantity;
    if stock >= 0 {
      steps := OrderOnce(maxRetries, start, before, quantity);
      TimesNext(k, quantity, 0);
      Wrap32Is(stock - quantity);
    }
  }

  /** k calls with the same negative quantity, one after the other, unless the stock wraps before. */
  lemma {:induction false} OrderOften(maxRetries: nat, start: Item, quantity: int, k: nat) returns (steps: seq<Step>)
    requires maxRetries > 0 && IsItem(start) && IsInt32(quantity) && quantity < 0 && k <= Room(start)
    ensures HasGrown(start, Exec(maxRetries, start, steps), quantity, k)
    ensures forall i :: 0 <= i < |steps| && steps[i].Order? ==> steps[i].quantity == quantity
  {
    if k == 0 {
      steps := [];
      TimesNext(0, quantity, 0);
      assert Exec(maxRetries, start, steps) == State(start, [], None, []);
    } else {
      hide Exec, HasGrown;
      var before := OrderOften(maxRetries, start, quantity, k - 1);
      steps := OrderAgain(maxRetries, start, before, quantity, k - 1);
      assert steps[..|before|] == before;
    }
  }

  /**
   * For orders of permitted quantities the stock stays non-negative in every run, and for these orders the stock that is
   * gone is the sum of the history in every run, if and only if no permitted quantity is negative enough, with all the
   * orders that the version can count, to take the stock beyond an int32.
   */
  lemma StockNeverNegativeIff(maxRetries: nat, start: Item, permitted: int -> bool)
    requires maxRetries > 0 && IsItem(start) && start.quantity >= 0
    ensures (forall steps :: AsksFor(steps, permitted) ==> Exec(maxRetries, start, steps).item.quantity >= 0) <==>
            AllHarmless(start, permitted)
  {
    hide Exec, Times;
    if AllHarmless(start, permitted) {
      forall steps | AsksFor(steps, permitted) ensures Exec(maxRetries, start, steps).item.quantity >= 0 {
        HarmlessAccounts(maxRetries, start, steps, permitted);
      }
    } else {
      var steps := HarmfulRun(maxRetries, start, permitted);
      assert AsksFor(steps, permitted);
    }
  }

  lemma HistoryIsTheSumIff(maxRetries: nat, start: Item, permitted: int -> bool)
    requires maxRetries > 0 && IsItem(start) && start.quantity >= 0
    ensures (forall steps :: AsksFor(steps, permitted) ==>
              var s := Exec(maxRetries, start, steps); s.item.quantity == start.quantity - Consumed(s.history)) <==>
            AllHarmless(start, permitted)
  {
    hide Exec, Times, Consumed;
    if AllHarmless(start, permitted) {
      forall steps | AsksFor(steps, permitted)
        ensures var s := Exec(maxRetries, start, steps); s.item.quantity == start.quantity - Consumed(s.history)
      {
        HarmlessAccounts(maxRetries, start, steps, permitted);
      }
    } else {
      var steps := HarmfulRun(maxRetries, start, permitted);
      assert AsksFor(steps, permitted);
    }
  }

  lemma HarmfulRun(maxRetries: nat, start: Item, permitted: int -> bool) returns (steps: seq<Step>)
    requires maxRetries > 0 && IsItem(start) && start.quantity >= 0 && !AllHarmless(start, permitted)
    ensures AsksFor(steps, permitted)
    ensures var s := Exec(maxRetries, start, steps);
      s.item.quantity < 0 && s.item.quantity != start.quantity - Consumed(s.history)
  {
    var quantity :| permitted(quantity) && !Harmless(start, quantity);
    NonNegativeIsHarmless(start, quantity);
    hide Exec, Times, Consumed;
    steps := OrderOften(maxRetries, start, quantity, Room(start));
    Reachable(maxRetries, start, steps);
  }

  /** A quantity that is not negative is harmless. */
  lemma NonNegativeIsHarmless(start: Item, quantity: int)
    requires IsItem(start)
    ensures quantity >= 0 ==> Harmless(start, quantity)
  {
    if quantity >= 0 { assert Room(start) * quantity >= 0; }
  }

  /** With 5 in stock, an order of the smallest int32 leaves -2147483643. */
  lemma SmallestQuantityWraps() returns (steps: seq<Step>)
    ensures var s := Exec(5, Item(5, 0), steps);
      s.item.quantity == -2147483643 && Consumed(s.history) == INT32_MIN
  {
    assert Exec(5, Item(5, 0), []) == State(Item(5, 0), [], None, []);
    steps := OrderOnce(5, Item(5, 0), [], INT32_MIN);
    Wrap32Is(5 - INT32_MIN);
  }

  // ---------- One row for each success ----------

  /** In the run a commit of call i was carried out although it reported an error. */
  predicate ReplyLost(maxRetries: nat, start: Item, steps: seq<Step>, i: nat) {
    steps != [] &&
    var init, last := steps[..|steps| - 1], steps[|steps| - 1];
    || ReplyLost(maxRetries, start, init, i)
    || (last == CommitApplies(i) && Apply(maxRetries, Exec(maxRetries, start, init), last) != Exec(maxRetries, start, init))
  }

  ghost predicate RowsOk(s: State, i: nat, lost: bool) {
    && Rows(s.history, i) == (if lost || (i < |s.calls| && s.calls[i].phase == Returned(Success)) then 1 else 0)
    && (lost ==> i < |s.calls| && s.calls[i].phase == Returned(Failure(Other)))
  }

  lemma RowsStep(maxRetries: nat, s: State, step: Step, i: nat, lost: bool)
    requires RowsOk(s, i, lost)
    ensures RowsOk(Apply(maxRetries, s, step), i, lost || (step == CommitApplies(i) && Apply(maxRetries, s, step) != s))
  {
    hide NewStock, Rows, Apply;
    if (step.Commit? || step.CommitApplies?) && step.call < |s.calls| && s.calls[step.call].phase.HasRecorded? {
      CarryOutIs(maxRetries, s, step, i);
    } else {
      OthersChangeNothing(maxRetries, s, step);
      ResultsStay(maxRetries, s, step, i);
    }
  }

  /** The commit adds the row and returns; of the other calls nothing changes. */
  lemma CarryOutIs(maxRetries: nat, s: State, step: Step, i: nat)
    requires (step.Commit? || step.CommitApplies?) && step.call < |s.calls| && s.calls[step.call].phase.HasRecorded?
    ensures var s' := Apply(maxRetries, s, step);
      && |s'.calls| == |s.calls| && s' != s
      && Rows(s'.history, i) == Rows(s.history, i) + (if step.call == i then 1 else 0)
      && (i < |s.calls| && i != step.call ==> s'.calls[i] == s.calls[i])
      && s'.calls[step.call].phase == Returned(if step.Commit? then Success else Failure(Other))
  {
    hide NewStock;
    var s' := Apply(maxRetries, s, step);
    assert s'.history[..|s'.history| - 1] == s.history;
    assert s'.calls[step.call].phase != s.calls[step.call].phase;
  }

  lemma ResultsStay(maxRetries: nat, s: State, step: Step, i: nat)
    requires !((step.Commit? || step.CommitApplies?) && step.call < |s.calls| && s.calls[step.call].phase.HasRecorded?)
    ensures var s' := Apply(maxRetries, s, step);
      && (step.CommitApplies? ==> s' == s) && |s.calls| <= |s'.calls|
      && (i < |s'.calls| ==>
            (s'.calls[i].phase == Returned(Success) <==> i < |s.calls| && s.calls[i].phase == Returned(Success)))
      && (i < |s.calls| && s.calls[i].phase.Returned? ==> s'.calls[i].phase == s.calls[i].phase)
  {
    hide NewStock;
  }

  lemma {:induction false} RowsHold(maxRetries: nat, start: Item, steps: seq<Step>, i: nat)
    ensures RowsOk(Exec(maxRetries, start, steps), i, ReplyLost(maxRetries, start, steps, i))
  {
    hide Apply, RowsOk;
    if steps == [] {
      NoRows(start, i);
    } else {
      var init := steps[..|steps| - 1];
      RowsHold(maxRetries, start, init, i);
      RowsStep(maxRetries, Exec(maxRetries, start, init), steps[|steps| - 1], i, ReplyLost(maxRetries, start, init, i));
    }
  }

  lemma NoRows(start: Item, i: nat)
    ensures RowsOk(State(start, [], None, []), i, false)
  {
  }

  /**
   * However often a call tries, it adds one row of history if it returns nil, and otherwise none; only a call for which
   * the reply to a carried out commit was lost returns an error and has its row.
   */
  lemma OneRowForEachSuccess(maxRetries: nat, start: Item, steps: seq<Step>, i: nat)
    ensures var s := Exec(maxRetries, start, steps);
      && Rows(s.history, i) <= 1
      && (i < |s.calls| && s.calls[i].phase == Returned(Success) ==> Rows(s.history, i) == 1)
      && (Rows(s.history, i) == 1 ==>
            i < |s.calls| && (s.calls[i].phase == Returned(Success) || ReplyLost(maxRetries, start, steps, i)))
      && (ReplyLost(maxRetries, start, steps, i) ==>
            Rows(s.history, i) == 1 && i < |s.calls| && s.calls[i].phase == Returned(Failure(Other)))
  {
    hide Exec, ReplyLost;
    RowsHold(maxRetries, start, steps, i);
  }

  // ---------- The second lock ----------

  /** Under the row lock the version check always passes: it never makes ProcessOrder try again. */
  lemma VersionCheckAlwaysPasses(maxRetries: nat, start: Item, steps: seq<Step>, i: nat)
    requires IsItem(start)
    requires var s := Exec(maxRetries, start, steps); i < |s.calls| && s.calls[i].phase.Locked?
    ensures var s := Exec(maxRetries, start, steps);
      && s.item.version == s.calls[i].phase.read.version
      && (Apply(maxRetries, s, Write(i)).calls[i].phase.HasWritten? <==>
            s.calls[i].quantity <= s.item.quantity && s.item.version < INT32_MAX)
  {
    hide Exec;
    Reachable(maxRetries, start, steps);
    assert CallOk(maxRetries, Exec(maxRetries, start, steps), i);
  }

  // ---------- One attempt, and how many there are ----------

  /** An attempt with which nothing interferes and in which the database does not fail. */
  function AttemptSteps(i: nat): seq<Step> {
    [Lock(i), Write(i), AddHistory(i), Commit(i)]
  }

  /**
   * It takes the order if and only if there is at least so much in stock and the version can be counted, and then the
   * stock, the version and the history are those of the order.
   */
  lemma AttemptIs(maxRetries: nat, start: Item, steps: seq<Step>, i: nat)
    requires IsItem(start)
    requires var s := Exec(maxRetries, start, steps); s.holder.None? && i < |s.calls| && s.calls[i].phase.Attempting?
    ensures var s, s' := Exec(maxRetries, start, steps), Exec(maxRetries, start, steps + AttemptSteps(i));
      var stock, quantity := s.item.quantity, s.calls[i].quantity;
      && |s'.calls| == |s.calls| && s'.holder.None?
      && (s'.calls[i].phase == Returned(Success) <==> stock >= quantity && s.item.version < INT32_MAX)
      && (s'.calls[i].phase == Returned(Failure(InsufficientStock)) <==> stock < quantity)
      && (s'.calls[i].phase == Returned(Failure(Other)) <==> stock >= quantity && s.item.version == INT32_MAX)
      && (s'.calls[i].phase == Returned(Success) ==>
            && s'.item == Item(Wrap32(stock - quantity), s.item.version + 1)
            && s'.history == s.history + [Record(i, quantity, stock, Wrap32(stock - quantity))])
      && (s'.calls[i].phase != Returned(Success) ==> s'.item == s.item && s'.history == s.history)
  {
    Reachable(maxRetries, start, steps);
    var s := Exec(maxRetries, start, steps);
    var s1 := Apply(maxRetries, s, Lock(i));
    var s2 := Apply(maxRetries, s1, Write(i));
    var s3 := Apply(maxRetries, s2, AddHistory(i));
    Next(maxRetries, start, steps, Lock(i));
    Next(maxRetries, start, steps + [Lock(i)], Write(i));
    Next(maxRetries, start, steps + [Lock(i)] + [Write(i)], AddHistory(i));
    Next(maxRetries, start, steps + [Lock(i)] + [Write(i)] + [AddHistory(i)], Commit(i));
    assert steps + AttemptSteps(i) == steps + [Lock(i)] + [Write(i)] + [AddHistory(i)] + [Commit(i)];
    hide Exec, Wrap32, Chains, Consumed;
    assert s1.calls[i].phase == Locked(s.item) && s1.item == s.item && s1.holder == Some(i);
    if s2.calls[i].phase.HasWritten? { assert s3.calls[i].phase == HasRecorded(s.item); }
  }

  /** How often call i has failed with an error after which it has to try again. */
  function Retried(maxRetries: nat, start: Item, steps: seq<Step>, i: nat): nat {
    if steps == [] then 0
    else
      var init, last := steps[..|steps| - 1], steps[|steps| - 1];
      var s := Exec(maxRetries, start, init);
      Retried(maxRetries, start, init, i) +
      if (last == Fail(i, Deadlock) || last == Fail(i, LockFailed)) && i < |s.calls| && !s.calls[i].phase.Returned? then 1 else 0
  }

  ghost predicate AttemptsOk(maxRetries: nat, s: State, i: nat, retried: nat) {
    if i >= |s.calls| then retried == 0
    else match s.calls[i].phase
      case Returned(result) =>
        && (result == Failure(MaxRetries) <==> retried == maxRetries) && retried <= maxRetries
        && result != Failure(Deadlock) && result != Failure(LockFailed)
      case _ => s.calls[i].attempt == retried < maxRetries
  }

  lemma AttemptsStep(maxRetries: nat, start: Item, s: State, step: Step, i: nat, retried: nat)
    requires Inv(maxRetries, start, s) && AttemptsOk(maxRetries, s, i, retried)
    ensures AttemptsOk(maxRetries, Apply(maxRetries, s, step), i, retried +
      if (step == Fail(i, Deadlock) || step == Fail(i, LockFailed)) && i < |s.calls| && !s.calls[i].phase.Returned? then 1 else 0)
  {
    hide NewStock, Chains, Consumed;
    if i < |s.calls| { assert CallOk(maxRetries, s, i); }
  }

  /**
   * A call tries again after every deadlock and failed lock, up to `maxRetries` attempts in all: it has made one attempt
   * more than it had such errors while it runs, and gives up for their number exactly at the last one.
   */
  lemma {:induction false} AttemptsAreCounted(maxRetries: nat, start: Item, steps: seq<Step>, i: nat)
    requires IsItem(start)
    ensures AttemptsOk(maxRetries, Exec(maxRetries, start, steps), i, Retried(maxRetries, start, steps, i))
  {
    hide AttemptsOk, Apply;
    if steps == [] {
      NoAttempts(maxRetries, start, i);
    } else {
      var init := steps[..|steps| - 1];
      AttemptsAreCounted(maxRetries, start, init, i);
      Reachable(maxRetries, start, init);
      AttemptsStep(maxRetries, start, Exec(maxRetries, start, init), steps[|steps| - 1], i, Retried(maxRetries, start, init, i));
    }
  }

  lemma NoAttempts(maxRetries: nat, start: Item, i: nat)
    ensures AttemptsOk(maxRetries, State(start, [], None, []), i, 0)
  {
  }

  // ---------- The body of ProcessOrder ----------

  /** The attempt ends with an error of the database after which another one follows. */
  predicate IsRetriedFault(fault: Option<Error>) {
    fault == Some(Deadlock) || fault == Some(LockFailed)
  }

  /** The state machine of one caller: the row lock makes each transaction one step of the others. */
  class OrderSystem {
    const maxRetries: nat
    var item: Item
    var history: seq<Record>
    ghost var start: Item

    ghost predicate Valid()
      reads this
    {
      && Chains(start.quantity, history, item.quantity)
      && item.quantity == Wrap32(start.quantity - Consumed(history)) && item.version == start.version + |history|
      && IsItem(item)
    }

    constructor (maxRetries: nat, item: Item)
      requires IsItem(item)
      ensures Valid() && this.maxRetries == maxRetries && this.item == item && history == [] && start == item
    {
      Wrap32Is(item.quantity);
      this.maxRetries, this.item, history, start := maxRetries, item, [], item;
    }

    /** One transaction, in which the database fails with `fault` or not; what is written before is rolled back. */
    method ProcessOrderAttempt(call: nat, quantity: int, fault: Option<Error>) returns (r: Result)
      requires Valid()
      modifies this`item, this`history
      ensures Valid()
      ensures fault.Some? ==> r == Failure(fault.value)
      ensures fault.None? ==>
        && (r == Success <==> quantity <= old(item.quantity) && old(item.version) < INT32_MAX)
        && (r == Failure(InsufficientStock) <==> quantity > old(item.quantity))
        && (r == Failure(Other) <==> quantity <= old(item.quantity) && old(item.version) == INT32_MAX)
      ensures r.Success? ==>
        && item == Item(Wrap32(old(item.quantity) - quantity), old(item.version) + 1)
        && history == old(history) + [Record(call, quantity, old(item.quantity), item.quantity)]
      ensures !r.Success? ==> item == old(item) && history == old(history)
    {
      var read := item;
      if fault.Some? { return Failure(fault.value); }
      if read.quantity < quantity { return Failure(InsufficientStock); }
      var newQuantity := Wrap32(read.quantity - quantity);
      if item.version != read.version { return Failure(LockFailed); }
      if item.version == INT32_MAX { return Failure(Other); }
      var record := Record(call, quantity, read.quantity, newQuantity);
      ChainsSnoc(start.quantity, history, item.quantity, record);
      Wrap32Again(start.quantity - Consumed(history), quantity);
      Wrap32Is(read.quantity - quantity);
      hide Chains, Consumed, Wrap32;
      item := Item(newQuantity, item.version + 1);
      history := history + [record];
      return Success;
    }

    /**
     * ProcessOrder tries again after a deadlock or a failed lock, at most `maxRetries` times in all, unless the context
     * ends while it waits after one of the attempts in `cancelled`. The first attempt without such a fault decides: it
     * takes the order if and only if the stock suffices. Exactly one row is added to the history if nil is returned, and
     * nothing is changed otherwise.
     */
    method ProcessOrder(call: nat, quantity: int, faults: seq<Option<Error>>, cancelled: set<nat>)
      returns (r: Result, attempts: nat)
      requires Valid() && |faults| >= maxRetries
      modifies this`item, this`history
      ensures Valid() && attempts <= maxRetries
      ensures r.Success? ==>
        && item == Item(Wrap32(old(item.quantity) - quantity), old(item.version) + 1)
        && history == old(history) + [Record(call, quantity, old(item.quantity), item.quantity)]
      ensures !r.Success? ==> item == old(item) && history == old(history)
      ensures forall k :: 0 <= k < attempts - 1 ==> IsRetriedFault(faults[k])
      ensures forall k :: 0 < k < attempts ==> k !in cancelled
      ensures attempts > 0 && faults[attempts - 1].None? ==>
        && (r == Success <==> quantity <= old(item.quantity) && old(item.version) < INT32_MAX)
        && (r == Failure(InsufficientStock) <==> quantity > old(item.quantity))
        && (r == Failure(Other) <==> quantity <= old(item.quantity) && old(item.version) == INT32_MAX)
      ensures attempts > 0 && faults[attempts - 1].Some? && !IsRetriedFault(faults[attempts - 1]) ==>
        r == Failure(faults[attempts - 1].value)
      ensures attempts == 0 || IsRetriedFault(faults[attempts - 1]) ==>
        if attempts > 0 && attempts in cancelled then r == Failure(Cancelled)
        else r == Failure(MaxRetries) && attempts == maxRetries
    {
      attempts := 0;
      while attempts < maxRetries
        invariant Valid() && item == old(item) && history == old(history) && attempts <= maxRetries
        invariant forall k :: 0 <= k < attempts ==> IsRetriedFault(faults[k])
        invariant forall k :: 0 < k <= attempts ==> k !in cancelled
      {
        r := ProcessOrderAttempt(call, quantity, faults[attempts]);
        attempts := attempts + 1;
        if r.Success? { return; }
        if !IsRetried(r.error) { return; }
        if attempts in cancelled { return Failure(Cancelled), attempts; }
      }
      r := Failure(MaxRetries);
    }
  }
}
