/**
 * Reserving inventory under an optimistic lock: any number of calls of ReserveInventory on one row, each making a few
 * attempts. An attempt reads the last committed row without a lock; its UPDATE waits for the row lock, which it then
 * keeps to the end of the transaction, and finds the row only under the version that was read.
 */
module Reservations {
  import opened GoInt
  import opened Products

  datatype Option<T> = None | Some(value: T)

  datatype Row = Row(quantity: int, reserved: int, version: int)

  /**
   * The retries and the schema: whether the table has the trigger that keeps the reserved quantity in its range, and the
   * largest number its version column can hold. The other columns are 32 bits wide.
   */
  datatype Config = Config(maxRetries: nat, checked: bool, maxVersion: int)

  /** A call that has returned may have been durable although it returned an error. */
  datatype Phase =
    | Begun
    | HasRead(row: Row)
    | HasUpdated
    | Returned(ok: bool, durable: bool)

  /** A call, with the number of attempts that came before the current one. */
  datatype Call = Call(amount: int, attempt: nat, phase: Phase)

  /** The committed row, the uncommitted row of the transaction that holds the lock, and the calls. */
  datatype State = State(row: Row, holder: Option<nat>, pending: Row, calls: seq<Call>)

  /** `CommitApplies` is a commit that the database carries out although the caller gets an error for it. */
  datatype Step =
    | Reserve(amount: int)
    | Select(call: nat)
    | Update(call: nat)
    | Commit(call: nat)
    | CommitApplies(call: nat)
    | Fail(call: nat, retryable: bool)

  function SetPhase(s: State, i: nat, phase: Phase): State
    requires i < |s.calls|
  {
    s.(calls := s.calls[i := s.calls[i].(phase := phase)])
  }

  function Unlock(s: State, i: nat): State {
    if s.holder == Some(i) then s.(holder := None) else s
  }

  /** The transaction rolls back, and executeWithRetry begins another one or gives up. */
  function RollBack(c: Config, s: State, i: nat, retryable: bool): State
    requires i < |s.calls|
  {
    var call := s.calls[i];
    Unlock(s, i).(calls := s.calls[i :=
      if retryable && call.attempt < c.maxRetries then call.(attempt := call.attempt + 1, phase := Begun)
      else call.(phase := Returned(false, false))])
  }

  function Reserved(row: Row, amount: int): Row {
    row.(reserved := row.reserved + amount, version := row.version + 1)
  }

  ghost predicate InRange(row: Row) {
    0 <= row.reserved <= row.quantity
  }

  /** PostgreSQL carries the UPDATE out: every value fits its column, and the trigger, if there is one, lets it pass. */
  predicate Accepts(c: Config, row: Row, amount: int) {
    && IsInt32(amount) && IsInt32(row.reserved + amount) && row.version < c.maxVersion
    && (c.checked ==> 0 <= row.reserved + amount <= row.quantity)
  }

  /** The check of the stock that was read, and then the UPDATE under the lock. */
  function UpdateStep(c: Config, s: State, i: nat): State
    requires i < |s.calls| && s.calls[i].phase.HasRead?
  {
    var read, amount := s.calls[i].phase.row, s.calls[i].amount;
    if read.quantity - read.reserved < amount then RollBack(c, s, i, false)
    else if s.holder.Some? then s
    else if s.row.version == read.version && Accepts(c, s.row, amount) then
      SetPhase(s, i, HasUpdated).(holder := Some(i), pending := Reserved(s.row, amount))
    else RollBack(c, s, i, false)
  }

  /** The transaction is committed. */
  function CarryOut(s: State, i: nat, ok: bool): State
    requires i < |s.calls|
  {
    SetPhase(s, i, Returned(ok, true)).(row := s.pending, holder := None)
  }

  predicate IsDurable(call: Call) {
    call.phase.Returned? && call.phase.durable
  }

  /** One step; a step that cannot happen changes nothing. */
  function Apply(c: Config, s: State, step: Step): State {
    match step
    case Reserve(amount) => s.(calls := s.calls + [Call(amount, 0, Begun)])
    case Select(i) => if i < |s.calls| && s.calls[i].phase.Begun? then SetPhase(s, i, HasRead(s.row)) else s
    case Update(i) => if i < |s.calls| && s.calls[i].phase.HasRead? then UpdateStep(c, s, i) else s
    case Commit(i) =>
      if i < |s.calls| && s.calls[i].phase.HasUpdated? then CarryOut(s, i, true) else s
    case CommitApplies(i) =>
      if i < |s.calls| && s.calls[i].phase.HasUpdated? then CarryOut(s, i, false) else s
    case Fail(i, retryable) =>
      if i < |s.calls| && !s.calls[i].phase.Returned? then RollBack(c, s, i, retryable) else s
  }

  function Exec(c: Config, row: Row, steps: seq<Step>): State {
    if steps == [] then State(row, None, row, [])
    else Apply(c, Exec(c, row, steps[..|steps| - 1]), steps[|steps| - 1])
  }

  // ---------- Sums over the durable calls ----------

  function Amount(call: Call): int {
    if IsDurable(call) then call.amount else 0
  }

  function One(call: Call): nat {
    if IsDurable(call) then 1 else 0
  }

  function AmountOfDurable(calls: seq<Call>): int {
    if calls == [] then 0 else AmountOfDurable(calls[..|calls| - 1]) + Amount(calls[|calls| - 1])
  }

  function NumberOfDurable(calls: seq<Call>): nat {
    if calls == [] then 0 else NumberOfDurable(calls[..|calls| - 1]) + One(calls[|calls| - 1])
  }

  lemma {:induction false} SumsUpdate(calls: seq<Call>, i: nat, call: Call)
    requires i < |calls|
    ensures AmountOfDurable(calls[i := call]) == AmountOfDurable(calls) - Amount(calls[i]) + Amount(call)
    ensures NumberOfDurable(calls[i := call]) + One(calls[i]) == NumberOfDurable(calls) + One(call)
  {
    var n := |calls| - 1;
    if i < n {
      assert calls[i := call][..n] == calls[..n][i := call];
      SumsUpdate(calls[..n], i, call);
    } else {
      assert calls[i := call][..n] == calls[..n];
    }
  }

  /** A version is never used for two different rows, so a row that was read under the current version is current. */
  ghost predicate CallOk(c: Config, s: State, i: nat)
    requires i < |s.calls|
  {
    var call := s.calls[i];
    && (call.phase.HasRead? ==>
          call.phase.row.version <= s.row.version && (call.phase.row.version == s.row.version ==> call.phase.row == s.row))
    && (call.phase.HasUpdated? <==> s.holder == Some(i))
    && (call.phase.HasUpdated? ==>
          && s.pending == Reserved(s.row, call.amount) && s.row.reserved + call.amount <= s.row.quantity
          && Accepts(c, s.row, call.amount))
    && (IsDurable(call) ==> IsInt32(call.amount))
    && (call.phase.Returned? && call.phase.ok ==> call.phase.durable)
  }

  ghost predicate Inv(c: Config, row: Row, s: State) {
    && (forall i :: 0 <= i < |s.calls| ==> CallOk(c, s, i))
    && (s.holder.Some? ==> s.holder.value < |s.calls|)
    && s.row.quantity == row.quantity
    && s.row.reserved == row.reserved + AmountOfDurable(s.calls)
    && s.row.version == row.version + NumberOfDurable(s.calls)
    && (row.version <= c.maxVersion ==> s.row.version <= c.maxVersion)
  }

  lemma CallsStep(c: Config, row: Row, s: State, step: Step)
    requires Inv(c, row, s)
    ensures var s' := Apply(c, s, step);
      (forall i :: 0 <= i < |s'.calls| ==> CallOk(c, s', i)) && (s'.holder.Some? ==> s'.holder.value < |s'.calls|)
  {
    hide AmountOfDurable, NumberOfDurable;
    var s' := Apply(c, s, step);
    forall i | 0 <= i < |s'.calls| ensures CallOk(c, s', i) {
      if i < |s.calls| { assert CallOk(c, s, i); }
      if !step.Reserve? && step.call < |s.calls| { assert CallOk(c, s, step.call); }
    }
  }

  lemma SumsStep(c: Config, row: Row, s: State, step: Step)
    requires Inv(c, row, s)
    ensures var s' := Apply(c, s, step);
      && s'.row.quantity == row.quantity
      && s'.row.reserved == row.reserved + AmountOfDurable(s'.calls)
      && s'.row.version == row.version + NumberOfDurable(s'.calls)
  {
    hide Accepts;
    var s' := Apply(c, s, step);
    if step.Reserve? {
      assert s'.calls[..|s.calls|] == s.calls;
    } else if step.call < |s.calls| {
      assert CallOk(c, s, step.call);
      SumsUpdate(s.calls, step.call, s'.calls[step.call]);
      hide AmountOfDurable, NumberOfDurable;
      assert s'.calls == s.calls[step.call := s'.calls[step.call]];
    }
  }

  lemma VersionStep(c: Config, row: Row, s: State, step: Step)
    requires Inv(c, row, s) && s.row.version <= c.maxVersion
    ensures Apply(c, s, step).row.version <= c.maxVersion
  {
    hide AmountOfDurable, NumberOfDurable;
    if !step.Reserve? && step.call < |s.calls| { assert CallOk(c, s, step.call); }
  }

  lemma StepOk(c: Config, row: Row, s: State, step: Step)
    requires Inv(c, row, s)
    ensures Inv(c, row, Apply(c, s, step))
  {
    hide Apply, CallOk, AmountOfDurable, NumberOfDurable;
    CallsStep(c, row, s, step);
    SumsStep(c, row, s, step);
    if row.version <= c.maxVersion { VersionStep(c, row, s, step); }
  }

  lemma {:induction false} Reachable(c: Config, row: Row, steps: seq<Step>)
    ensures Inv(c, row, Exec(c, row, steps))
  {
    if steps != [] {
      Reachable(c, row, steps[..|steps| - 1]);
      StepOk(c, row, Exec(c, row, steps[..|steps| - 1]), steps[|steps| - 1]);
    }
  }

  /** In the run a commit of call i was carried out although it reported an error. */
  predicate ReplyLost(c: Config, row: Row, steps: seq<Step>, i: nat) {
    steps != [] &&
    var init, last := steps[..|steps| - 1], steps[|steps| - 1];
    ReplyLost(c, row, init, i) || (last == CommitApplies(i) && Apply(c, Exec(c, row, init), last) != Exec(c, row, init))
  }

  ghost predicate DurableOk(s: State, i: nat, lost: bool) {
    if lost then i < |s.calls| && s.calls[i].phase == Returned(false, true)
    else i < |s.calls| && s.calls[i].phase.Returned? ==> s.calls[i].phase.ok == s.calls[i].phase.durable
  }

  lemma DurableStep(c: Config, s: State, step: Step, i: nat, lost: bool)
    requires DurableOk(s, i, lost)
    ensures DurableOk(Apply(c, s, step), i, lost || (step == CommitApplies(i) && Apply(c, s, step) != s))
  {
    hide Accepts;
  }

  lemma {:induction false} DurableHolds(c: Config, row: Row, steps: seq<Step>, i: nat)
    ensures DurableOk(Exec(c, row, steps), i, ReplyLost(c, row, steps, i))
  {
    hide Apply;
    if steps != [] {
      var init := steps[..|steps| - 1];
      DurableHolds(c, row, init, i);
      DurableStep(c, Exec(c, row, init), steps[|steps| - 1], i, ReplyLost(c, row, init, i));
    }
  }

  /** A call that has returned is durable if and only if it returned nil or the reply to its commit was lost. */
  lemma DurableIff(c: Config, row: Row, steps: seq<Step>, i: nat)
    requires i < |Exec(c, row, steps).calls| && Exec(c, row, steps).calls[i].phase.Returned?
    ensures var call := Exec(c, row, steps).calls[i];
      IsDurable(call) <==> call.phase.ok || ReplyLost(c, row, steps, i)
  {
    hide Exec, ReplyLost;
    DurableHolds(c, row, steps, i);
  }

  /**
   * No update is lost: in every interleaving what is reserved is what was reserved before and the amounts of the durable
   * calls, among them all that returned nil, and the version has advanced once for each of them.
   */
  lemma NoUpdateIsLost(c: Config, row: Row, steps: seq<Step>)
    ensures var s := Exec(c, row, steps);
      && s.row.quantity == row.quantity
      && s.row.reserved == row.reserved + AmountOfDurable(s.calls)
      && s.row.version == row.version + NumberOfDurable(s.calls)
      && (row.version <= c.maxVersion ==> s.row.version <= c.maxVersion)
      && forall i :: 0 <= i < |s.calls| && s.calls[i].phase.Returned? && s.calls[i].phase.ok ==> IsDurable(s.calls[i])
  {
    hide Exec, AmountOfDurable, NumberOfDurable;
    Reachable(c, row, steps);
    var s := Exec(c, row, steps);
    forall i | 0 <= i < |s.calls| && s.calls[i].phase.Returned? && s.calls[i].phase.ok ensures IsDurable(s.calls[i]) {
      assert CallOk(c, s, i);
    }
  }

  // ---------- When an UPDATE goes through, and how often a call tries ----------

  lemma ExecSnoc(c: Config, row: Row, steps: seq<Step>, step: Step)
    ensures Exec(c, row, steps + [step]) == Apply(c, Exec(c, row, steps), step)
  {
    assert (steps + [step])[..|steps|] == steps;
  }

  /** Every value fits its column, and the trigger, if there is one, lets the row pass. */
  ghost predicate FitsTable(c: Config, row: Row, amount: int) {
    IsInt32(amount) && IsInt32(row.reserved) && row.version <= c.maxVersion && (c.checked ==> InRange(row))
  }

  lemma UpdateFrom(c: Config, s: State, i: nat)
    requires i < |s.calls| && s.calls[i].phase.HasRead? && CallOk(c, s, i)
    ensures var s' := Apply(c, s, Update(i));
      var read, amount := s.calls[i].phase.row, s.calls[i].amount;
      var next := Row(read.quantity, read.reserved + amount, read.version + 1);
      && |s'.calls| == |s.calls| && s'.row == s.row
      && (next.reserved > read.quantity ==> s'.calls[i].phase == Returned(false, false))
      && (next.reserved <= read.quantity && s.holder.Some? ==> s' == s)
      && (next.reserved <= read.quantity && s.holder.None? ==>
            if s.row == read && FitsTable(c, next, amount) then
              s'.calls[i].phase == HasUpdated && s'.holder == Some(i) && s'.pending == next
            else s'.calls[i].phase == Returned(false, false) && s'.holder.None?)
  {
  }

  /**
   * In every run, once the row lock is free, the UPDATE of a call that has read enough stock goes through if and only if
   * the row is still what it read, and the new one fits its columns and the trigger. A call that is refused returns its
   * error and does not try again.
   */
  lemma UpdateIff(c: Config, row: Row, steps: seq<Step>, i: nat)
    requires i < |Exec(c, row, steps).calls| && Exec(c, row, steps).calls[i].phase.HasRead?
    ensures var s, s' := Exec(c, row, steps), Exec(c, row, steps + [Update(i)]);
      var read, amount := s.calls[i].phase.row, s.calls[i].amount;
      var next := Row(read.quantity, read.reserved + amount, read.version + 1);
      && |s'.calls| == |s.calls| && s'.row == s.row
      && (next.reserved > read.quantity ==> s'.calls[i].phase == Returned(false, false))
      && (next.reserved <= read.quantity && s.holder.Some? ==> s' == s)
      && (next.reserved <= read.quantity && s.holder.None? ==>
            if s.row == read && FitsTable(c, next, amount) then
              s'.calls[i].phase == HasUpdated && s'.holder == Some(i) && s'.pending == next
            else s'.calls[i].phase == Returned(false, false) && s'.holder.None?)
  {
    hide Exec, Apply, AmountOfDurable, NumberOfDurable, FitsTable, CallOk;
    ExecSnoc(c, row, steps, Update(i));
    Reachable(c, row, steps);
    UpdateFrom(c, Exec(c, row, steps), i);
  }

  /** How often call i has failed with an error after which it may try again. */
  function Retried(c: Config, row: Row, steps: seq<Step>, i: nat): nat {
    if steps == [] then 0
    else
      var init, last := steps[..|steps| - 1], steps[|steps| - 1];
      var s := Exec(c, row, init);
      Retried(c, row, init, i) + if last == Fail(i, true) && i < |s.calls| && !s.calls[i].phase.Returned? then 1 else 0
  }

  ghost predicate AttemptsOk(c: Config, s: State, i: nat, retried: nat) {
    if i >= |s.calls| then retried == 0
    else retried <= c.maxRetries + 1 && (!s.calls[i].phase.Returned? ==> s.calls[i].attempt == retried <= c.maxRetries)
  }

  lemma AttemptsStep(c: Config, s: State, step: Step, i: nat, retried: nat)
    requires AttemptsOk(c, s, i, retried)
    ensures AttemptsOk(c, Apply(c, s, step), i,
      retried + if step == Fail(i, true) && i < |s.calls| && !s.calls[i].phase.Returned? then 1 else 0)
  {
    hide Accepts;
  }

  lemma {:induction false} AttemptsAreCounted(c: Config, row: Row, steps: seq<Step>, i: nat)
    ensures AttemptsOk(c, Exec(c, row, steps), i, Retried(c, row, steps, i))
  {
    hide Apply;
    if steps != [] {
      var init := steps[..|steps| - 1];
      AttemptsAreCounted(c, row, init, i);
      AttemptsStep(c, Exec(c, row, init), steps[|steps| - 1], i, Retried(c, row, init, i));
    }
  }

  /**
   * In every run, a call that fails begins again if and only if the error allows it and it has not had more than
   * `maxRetries` such errors with this one; otherwise it returns the error. Either way its lock and its change are gone.
   */
  lemma TriesAgainIff(c: Config, row: Row, steps: seq<Step>, i: nat, retryable: bool)
    requires i < |Exec(c, row, steps).calls| && !Exec(c, row, steps).calls[i].phase.Returned?
    ensures var s, s' := Exec(c, row, steps), Exec(c, row, steps + [Fail(i, retryable)]);
      && |s'.calls| == |s.calls| && s'.row == s.row && s'.holder != Some(i)
      && s'.calls[i].phase ==
           if retryable && Retried(c, row, steps, i) < c.maxRetries then Begun else Returned(false, false)
  {
    ExecSnoc(c, row, steps, Fail(i, retryable));
    AttemptsAreCounted(c, row, steps, i);
    hide Exec, Retried;
  }

  // ---------- Bounds ----------

  lemma BoundStep(c: Config, row: Row, s: State, step: Step)
    requires Inv(c, row, s)
    ensures var r, r' := s.row, Apply(c, s, step).row;
      (r.reserved <= r.quantity ==> r'.reserved <= r'.quantity) && (c.checked && InRange(r) ==> InRange(r'))
  {
    if !step.Reserve? && step.call < |s.calls| { assert CallOk(c, s, step.call); }
  }

  /** Never more than the stock is reserved, whatever the amounts and the schema. */
  lemma {:induction false} NeverOverReserved(c: Config, row: Row, steps: seq<Step>)
    requires row.reserved <= row.quantity
    ensures var s := Exec(c, row, steps); s.row.reserved <= s.row.quantity
  {
    if steps != [] {
      NeverOverReserved(c, row, steps[..|steps| - 1]);
      Reachable(c, row, steps[..|steps| - 1]);
      BoundStep(c, row, Exec(c, row, steps[..|steps| - 1]), steps[|steps| - 1]);
    }
  }

  /** With the trigger, what is reserved stays between zero and the stock in every run, whatever the amounts. */
  lemma {:induction false} ReservedStaysInRange(c: Config, row: Row, steps: seq<Step>)
    requires c.checked && InRange(row)
    ensures InRange(Exec(c, row, steps).row)
  {
    if steps != [] {
      ReservedStaysInRange(c, row, steps[..|steps| - 1]);
      Reachable(c, row, steps[..|steps| - 1]);
      BoundStep(c, row, Exec(c, row, steps[..|steps| - 1]), steps[|steps| - 1]);
    }
  }

  // ---------- Without the trigger ----------

  lemma Do(c: Config, row: Row, steps: seq<Step>, step: Step) returns (steps': seq<Step>)
    ensures steps' == steps + [step]
    ensures Exec(c, row, steps') == Apply(c, Exec(c, row, steps), step)
  {
    steps' := steps + [step];
    assert steps'[..|steps'| - 1] == steps;
  }

  /** The source does not refuse a negative amount; one beyond what is reserved takes the row out of its range. */
  lemma NegativeAmountEscapes(c: Config, row: Row, amount: int) returns (steps: seq<Step>)
    requires !c.checked && InRange(row) && IsInt32(row.quantity) && row.version < c.maxVersion
    requires IsInt32(amount) && amount <= row.quantity - row.reserved
    ensures var s := Exec(c, row, steps);
      s.row.reserved == row.reserved + amount && (s.row.reserved < 0 <==> amount < -row.reserved)
  {
    assert Exec(c, row, []) == State(row, None, row, []);
    steps := ReserveOnce(c, row, [], amount);
  }

  /** The requests of a run ask only for permitted amounts. */
  ghost predicate AsksFor(steps: seq<Step>, permitted: int -> bool) {
    forall i :: 0 <= i < |steps| && steps[i].Reserve? ==> permitted(steps[i].amount)
  }

  lemma AmountsStay(c: Config, s: State, step: Step)
    ensures var s' := Apply(c, s, step);
      && |s'.calls| == |s.calls| + (if step.Reserve? then 1 else 0)
      && (forall i :: 0 <= i < |s.calls| ==> s'.calls[i].amount == s.calls[i].amount)
      && (step.Reserve? ==> s'.calls[|s.calls|].amount == step.amount)
  {
  }

  ghost predicate AllPermitted(calls: seq<Call>, permitted: int -> bool) {
    forall i :: 0 <= i < |calls| ==> permitted(calls[i].amount)
  }

  lemma {:induction false} AmountsPermitted(c: Config, row: Row, steps: seq<Step>, permitted: int -> bool)
    requires AsksFor(steps, permitted)
    ensures AllPermitted(Exec(c, row, steps).calls, permitted)
  {
    if steps != [] {
      AmountsPermitted(c, row, steps[..|steps| - 1], permitted);
      AmountsStay(c, Exec(c, row, steps[..|steps| - 1]), steps[|steps| - 1]);
    }
  }

  /** One call with nobody else at work, and enough of the stock. */
  lemma ReserveOnce(c: Config, row: Row, steps: seq<Step>, amount: int) returns (steps': seq<Step>)
    requires var s := Exec(c, row, steps);
      s.holder.None? && amount <= s.row.quantity - s.row.reserved && Accepts(c, s.row, amount)
    ensures var s, s' := Exec(c, row, steps), Exec(c, row, steps');
      s'.holder.None? && s'.row == Reserved(s.row, amount)
    ensures steps < steps' && forall i :: |steps| <= i < |steps'| && steps'[i].Reserve? ==> steps'[i].amount == amount
  {
    hide Exec, Accepts;
    var n := |Exec(c, row, steps).calls|;
    var current := Exec(c, row, steps).row;
    steps' := Do(c, row, steps, Reserve(amount));
    steps' := Do(c, row, steps', Select(n));
    assert Exec(c, row, steps').calls[n] == Call(amount, 0, HasRead(current));
    steps' := Do(c, row, steps', Update(n));
    steps' := Do(c, row, steps', Commit(n));
  }

  /** How many more updates the version column can count. */
  function Room(c: Config, row: Row): int {
    c.maxVersion - row.version
  }

  /** k calls with the same amount, one after the other, unless the row leaves its range before. */
  lemma {:induction false} ReserveOften(c: Config, row: Row, amount: int, k: nat) returns (steps: seq<Step>)
    requires !c.checked && InRange(row) && IsInt32(row.quantity) && IsInt32(amount) && amount < 0 && k <= Room(c, row)
    ensures var s := Exec(c, row, steps);
      || !InRange(s.row)
      || (s.holder.None? && s.row == Row(row.quantity, row.reserved + Times(k, amount), row.version + k))
    ensures forall i :: 0 <= i < |steps| && steps[i].Reserve? ==> steps[i].amount == amount
  {
    hide Times;
    TimesNext(k - 1, amount, 0);
    if k == 0 {
      steps := [];
      TimesNext(0, amount, 0);
      assert Exec(c, row, steps) == State(row, None, row, []);
    } else {
      hide Exec;
      var before := ReserveOften(c, row, amount, k - 1);
      steps := before;
      if InRange(Exec(c, row, before).row) {
        steps := ReserveOnce(c, row, before, amount);
        assert steps[..|before|] == before;
      }
    }
  }

  /** The amount is not so negative that as many updates as the version can count could take the row below zero. */
  ghost predicate Harmless(c: Config, row: Row, amount: int) {
    IsInt32(amount) ==> row.reserved + Times(Room(c, row), amount) >= 0
  }

  ghost predicate AllHarmless(c: Config, row: Row, permitted: int -> bool) {
    forall amount :: permitted(amount) ==> Harmless(c, row, amount)
  }

  /** Room times the sum of the amounts is at least the sum of Room times each of them. */
  lemma {:induction false} SumOfHarmless(c: Config, row: Row, calls: seq<Call>)
    requires row.reserved >= 0
    requires forall i :: 0 <= i < |calls| && IsDurable(calls[i]) ==>
      row.reserved + Times(Room(c, row), calls[i].amount) >= 0
    ensures Times(Room(c, row), AmountOfDurable(calls)) + Times(NumberOfDurable(calls), row.reserved) >= 0
    ensures NumberOfDurable(calls) == 0 ==> AmountOfDurable(calls) == 0
  {
    hide Times, Room;
    if calls == [] {
      TimesNext(Room(c, row), 0, 0);
      TimesNext(0, row.reserved, 0);
    } else {
      var init, last := calls[..|calls| - 1], calls[|calls| - 1];
      SumOfHarmless(c, row, init);
      TimesNext(Room(c, row), AmountOfDurable(init), last.amount);
      TimesNext(NumberOfDurable(init), row.reserved, 0);
    }
  }

  lemma HarmlessStaysInRange(c: Config, row: Row, steps: seq<Step>, permitted: int -> bool)
    requires InRange(row) && row.version <= c.maxVersion && AllHarmless(c, row, permitted) && AsksFor(steps, permitted)
    ensures InRange(Exec(c, row, steps).row)
  {
    hide Exec, Times;
    Reachable(c, row, steps);
    NeverOverReserved(c, row, steps);
    AmountsPermitted(c, row, steps, permitted);
    var s := Exec(c, row, steps);
    forall i | 0 <= i < |s.calls| && IsDurable(s.calls[i])
      ensures row.reserved + Times(Room(c, row), s.calls[i].amount) >= 0
    {
      assert CallOk(c, s, i);
      assert Harmless(c, row, s.calls[i].amount);
    }
    SumOfHarmless(c, row, s.calls);
    KeepsWithin(Room(c, row), AmountOfDurable(s.calls), NumberOfDurable(s.calls), row.reserved);
  }

  /**
   * Every run over a set of permitted amounts keeps the row in its range if and only if the table has the trigger or no
   * permitted amount is negative enough, with all the updates that the version column can count, to undo more than is
   * reserved.
   */
  lemma StaysInRangeIff(c: Config, row: Row, permitted: int -> bool)
    requires InRange(row) && IsInt32(row.quantity) && row.version <= c.maxVersion
    ensures (forall steps :: AsksFor(steps, permitted) ==> InRange(Exec(c, row, steps).row)) <==>
            c.checked || AllHarmless(c, row, permitted)
  {
    hide Exec, Times;
    if c.checked || AllHarmless(c, row, permitted) {
      forall steps | AsksFor(steps, permitted) ensures InRange(Exec(c, row, steps).row) {
        if c.checked { ReservedStaysInRange(c, row, steps); } else { HarmlessStaysInRange(c, row, steps, permitted); }
      }
    } else {
      var amount :| permitted(amount) && !Harmless(c, row, amount);
      assert amount < 0 by { NonNegativeIsHarmless(c, row, amount); }
      var steps := ReserveOften(c, row, amount, Room(c, row));
      assert AsksFor(steps, permitted);
      assert !InRange(Exec(c, row, steps).row);
    }
  }

  /** An amount that is not negative is harmless, and a single update suffices for one beyond what is reserved. */
  lemma NonNegativeIsHarmless(c: Config, row: Row, amount: int)
    requires row.reserved >= 0 && row.version <= c.maxVersion
    ensures amount >= 0 ==> Harmless(c, row, amount)
    ensures IsInt32(amount) && amount < -row.reserved && row.version < c.maxVersion ==> !Harmless(c, row, amount)
  {
    if amount >= 0 { assert Room(c, row) * amount >= 0; }
    if amount < 0 && row.version < c.maxVersion { assert (Room(c, row) - 1) * amount <= 0; }
  }

  // ---------- The loop of executeWithRetry ----------

  datatype Outcome = Committed | Refused(retryable: bool)

  datatype RetryPolicy = RetryPolicy(maxRetries: int, initialDelay: real, maxDelay: real, backoffFactor: real)

  /** What the caller gets: nil, the error of the last attempt, or that its context ended during a wait. */
  datatype Answer = Nil | Error(last: Outcome) | ContextDone

  function Stretched(p: RetryPolicy, delay: real): real {
    delay * p.backoffFactor
  }

  function NextDelay(p: RetryPolicy, delay: real): real {
    if Stretched(p, delay) <= p.maxDelay then Stretched(p, delay) else p.maxDelay
  }

  /** The delay before attempt k + 1. */
  function Delay(p: RetryPolicy, k: nat): real {
    if k == 0 then p.initialDelay else NextDelay(p, Delay(p, k - 1))
  }

  /** The first delay, multiplied k times. */
  function Scaled(p: RetryPolicy, k: nat): real {
    if k == 0 then p.initialDelay else Stretched(p, Scaled(p, k - 1))
  }

  lemma {:induction false} ScaledNonNegative(p: RetryPolicy, k: nat)
    requires p.backoffFactor >= 1.0 && p.initialDelay >= 0.0
    ensures Scaled(p, k) >= 0.0
  {
    if k > 0 { ScaledNonNegative(p, k - 1); }
  }

  function Capped(p: RetryPolicy, delay: real): real {
    if delay <= p.maxDelay then delay else p.maxDelay
  }

  lemma NextOfCapped(p: RetryPolicy, delay: real)
    requires p.backoffFactor >= 1.0 && delay >= 0.0 && p.maxDelay >= 0.0
    ensures NextDelay(p, Capped(p, delay)) == Capped(p, Stretched(p, delay))
  {
    assert delay * (p.backoffFactor - 1.0) >= 0.0;
    assert p.maxDelay * (p.backoffFactor - 1.0) >= 0.0;
  }

  lemma NextIsCapped(p: RetryPolicy, delay: real)
    ensures NextDelay(p, delay) == Capped(p, Stretched(p, delay))
  {
  }

  /** The backoff is exponential up to the longest delay. */
  lemma {:induction false} DelayIs(p: RetryPolicy, k: nat)
    requires k > 0 && p.backoffFactor >= 1.0 && p.initialDelay >= 0.0 && p.maxDelay >= 0.0
    ensures Delay(p, k) == Capped(p, Scaled(p, k))
  {
    hide NextDelay, Capped, Stretched;
    if k == 1 {
      assert Scaled(p, 0) == p.initialDelay == Delay(p, 0);
      NextIsCapped(p, Scaled(p, 0));
    } else {
      DelayIs(p, k - 1);
      ScaledNonNegative(p, k - 1);
      NextOfCapped(p, Scaled(p, k - 1));
    }
  }

  /**
   * `outcomes` is what the attempts would come to, and `cancelled` holds the attempts before which the context ends.
   * Every attempt but the last one asked for another; the last one did not, unless there were no more or the wait after
   * it was cut short; and the delays between the attempts follow the policy. For a negative maxRetries, and for the
   * largest int, nil is returned although no attempt was made.
   */
  method ExecuteWithRetry(p: RetryPolicy, outcomes: seq<Outcome>, cancelled: set<nat>)
    returns (answer: Answer, made: nat, waits: seq<real>)
    requires IsInt64(p.maxRetries) && |outcomes| == Rounds(p.maxRetries)
    ensures made <= |outcomes| && (made == 0 <==> !(0 <= p.maxRetries < INT64_MAX))
    ensures forall k :: 0 <= k < made - 1 ==> outcomes[k] == Refused(true)
    ensures forall k :: 0 < k < made ==> k !in cancelled
    ensures if made == 0 then answer == Nil
      else if answer == ContextDone then made < |outcomes| && outcomes[made - 1] == Refused(true) && made in cancelled
      else
        && (answer == Nil <==> outcomes[made - 1] == Committed) && (answer != Nil ==> answer == Error(outcomes[made - 1]))
        && (made < |outcomes| ==> outcomes[made - 1] != Refused(true))
    ensures |waits| == (if made == 0 then 0 else made - 1) && forall k :: 0 <= k < |waits| ==> waits[k] == Delay(p, k)
  {
    RoundsIs(p.maxRetries);
    hide NextDelay, Rounds;
    var retryDelay := p.initialDelay;
    waits, made := [], 0;
    answer := Nil;
    while made < Rounds(p.maxRetries)
      invariant made <= |outcomes| && answer == if made == 0 then Nil else Error(outcomes[made - 1])
      invariant forall k :: 0 <= k < made ==> outcomes[k] == Refused(true)
      invariant forall k :: 0 < k < made ==> k !in cancelled
      invariant |waits| == (if made == 0 then 0 else made - 1) && retryDelay == Delay(p, |waits|)
      invariant forall k :: 0 <= k < |waits| ==> waits[k] == Delay(p, k)
    {
      if made > 0 {
        if made in cancelled {
          answer := ContextDone;
          return;
        }
        waits := waits + [retryDelay];
        retryDelay := NextDelay(p, retryDelay);
      }
      var last := outcomes[made];
      made := made + 1;
      if last == Committed { return Nil, made, waits; }
      answer := Error(last);
      if last != Refused(true) { return; }
    }
  }
}
