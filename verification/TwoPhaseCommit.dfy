/**
 * Two-phase commit over three database transactions per order, with any number of coordinators at once. One step is one
 * participant call or one transaction end. A transaction whose Prepare has selected a row FOR UPDATE keeps that row
 * locked until it ends. Coordinators are numbered in the order they start; the number stands for the order id.
 */
module TwoPhaseCommit {

  datatype Participant = ORDER | INVENTORY | PAYMENT

  /** The fixed order in which participants are prepared. */
  const NAMES: seq<Participant> := [ORDER, INVENTORY, PAYMENT]

  datatype Order = Order(item: int, customer: int, quantity: int, amount: int)

  /** A `Dead` transaction was ended by the database or the context without its owner asking; its locks are gone. */
  datatype Tx = Open | Dead | Committed | RolledBack

  datatype Outcome =
    | Success
    | PrepareFailure
    | CommitFailure(before: set<Participant>, failed: Participant)

  datatype Phase =
    | Preparing(done: nat)
    | Committing
    | RollingBack(left: set<Participant>, outcome: Outcome)
    | Finished(outcome: Outcome)

  datatype Coordinator = Coordinator(order: Order, phase: Phase, txs: map<Participant, Tx>) {
    /** The participants whose transaction has been committed, that is, whose effect is durable. */
    function Durable(): set<Participant> {
      set p | p in txs && txs[p] == Committed
    }

    predicate Holds(p: Participant) {
      p in txs && txs[p] == Open
    }
  }

  datatype Database = Database(
    stock: map<int, int>,
    balance: map<int, int>,
    customers: set<int>,
    orders: map<nat, Order>,
    payments: map<nat, Order>)

  datatype State = State(db: Database, coords: seq<Coordinator>)

  /** `CommitApplies` is a commit that the database carries out although the coordinator gets an error for it. */
  datatype Step =
    | Start(order: Order)
    | Prepare(c: nat)
    | PrepareFails(c: nat)
    | Kill(c: nat, p: Participant)
    | Commit(c: nat, p: Participant)
    | CommitFails(c: nat, p: Participant)
    | CommitApplies(c: nat, p: Participant)
    | Rollback(c: nat, p: Participant)

  // ---------- Steps ----------

  /** Both orders' Prepare for `p` select the same row FOR UPDATE. */
  predicate SameRow(p: Participant, a: Order, b: Order) {
    match p
    case ORDER => false
    case INVENTORY => a.item == b.item
    case PAYMENT => a.customer == b.customer
  }

  predicate RowIsFree(coords: seq<Coordinator>, c: nat, p: Participant)
    requires c < |coords|
  {
    forall d :: 0 <= d < |coords| && d != c && SameRow(p, coords[c].order, coords[d].order) ==> !coords[d].Holds(p)
  }

  /** What the participant's Prepare finds. */
  predicate CanPrepare(db: Database, p: Participant, o: Order) {
    match p
    case ORDER => o.quantity > 0 && o.amount > 0 && o.customer in db.customers
    case INVENTORY => o.item in db.stock && db.stock[o.item] >= o.quantity
    case PAYMENT => o.customer in db.balance && db.balance[o.customer] >= o.amount
  }

  /** The participant's Commit followed by the commit of its transaction. */
  function Effect(db: Database, p: Participant, c: nat, o: Order): Database {
    match p
    case ORDER => db.(orders := db.orders[c := o])
    case INVENTORY =>
      if o.item in db.stock then db.(stock := db.stock[o.item := db.stock[o.item] - o.quantity]) else db
    case PAYMENT =>
      (if o.customer in db.balance then db.(balance := db.balance[o.customer := db.balance[o.customer] - o.amount]) else db)
      .(payments := db.payments[c := o])
  }

  function Abort(k: Coordinator, outcome: Outcome): Coordinator {
    k.(phase := if k.txs.Keys == {} then Finished(outcome) else RollingBack(k.txs.Keys, outcome))
  }

  function Prepared(k: Coordinator, p: Participant): Coordinator
    requires k.phase.Preparing?
  {
    k.(txs := k.txs[p := Open], phase := if k.phase.done + 1 == |NAMES| then Committing else Preparing(k.phase.done + 1))
  }

  function CommittedOne(k: Coordinator, p: Participant): Coordinator {
    var k' := k.(txs := k.txs[p := Committed]);
    if forall q :: q in k'.txs ==> k'.txs[q] == Committed then k'.(phase := Finished(Success)) else k'
  }

  function AppliedOne(k: Coordinator, p: Participant): Coordinator {
    Abort(k.(txs := k.txs[p := Committed]), CommitFailure(k.Durable(), p))
  }

  /** Rolling back a transaction that is already committed fails with ErrTxDone, which is ignored. */
  function RolledBackOne(k: Coordinator, p: Participant): Coordinator
    requires k.phase.RollingBack?
  {
    var txs' := if p in k.txs && k.txs[p] == Open then k.txs[p := RolledBack] else k.txs;
    var left' := k.phase.left - {p};
    k.(txs := txs', phase := if left' == {} then Finished(k.phase.outcome) else RollingBack(left', k.phase.outcome))
  }

  function Set(s: State, c: nat, k: Coordinator): State
    requires c < |s.coords|
  {
    s.(coords := s.coords[c := k])
  }

  /** The state after `step`; a step that cannot happen in `s`, such as one that waits for a lock, changes nothing. */
  function Apply(s: State, step: Step): State {
    match step
    case Start(o) => s.(coords := s.coords + [Coordinator(o, Preparing(0), map[])])
    case Prepare(c) =>
      if c < |s.coords| && s.coords[c].phase.Preparing? && s.coords[c].phase.done < |NAMES| then
        var k, p := s.coords[c], NAMES[s.coords[c].phase.done];
        if !RowIsFree(s.coords, c, p) then s
        else Set(s, c, if CanPrepare(s.db, p, k.order) then Prepared(k, p) else Abort(k, PrepareFailure))
      else s
    case PrepareFails(c) =>
      if c < |s.coords| && s.coords[c].phase.Preparing? then Set(s, c, Abort(s.coords[c], PrepareFailure)) else s
    case Kill(c, p) =>
      if c < |s.coords| && s.coords[c].Holds(p) then
        Set(s, c, s.coords[c].(txs := s.coords[c].txs[p := Dead]))
      else s
    case Commit(c, p) =>
      if c < |s.coords| && s.coords[c].phase.Committing? && p in s.coords[c].txs && s.coords[c].txs[p] != Committed then
        var k := s.coords[c];
        if k.txs[p] == Open then Set(s, c, CommittedOne(k, p)).(db := Effect(s.db, p, c, k.order))
        else Set(s, c, Abort(k, CommitFailure(k.Durable(), p)))
      else s
    case CommitFails(c, p) =>
      if c < |s.coords| && s.coords[c].phase.Committing? && p in s.coords[c].txs && s.coords[c].txs[p] != Committed then
        Set(s, c, Abort(s.coords[c], CommitFailure(s.coords[c].Durable(), p)))
      else s
    case CommitApplies(c, p) =>
      if c < |s.coords| && s.coords[c].phase.Committing? && s.coords[c].Holds(p) then
        Set(s, c, AppliedOne(s.coords[c], p)).(db := Effect(s.db, p, c, s.coords[c].order))
      else s
    case Rollback(c, p) =>
      if c < |s.coords| && s.coords[c].phase.RollingBack? && p in s.coords[c].phase.left then
        Set(s, c, RolledBackOne(s.coords[c], p))
      else s
  }

  predicate ValidStart(db: Database) {
    && (forall i :: i in db.stock ==> db.stock[i] >= 0)
    && (forall i :: i in db.balance ==> db.balance[i] >= 0)
    && db.orders == map[] && db.payments == map[]
  }

  function Exec(db: Database, steps: seq<Step>): State {
    if steps == [] then State(db, []) else Apply(Exec(db, steps[..|steps| - 1]), steps[|steps| - 1])
  }

  // ---------- What the database holds, computed from the coordinators ----------

  function Taken(p: Participant, o: Order, row: int): int {
    match p
    case ORDER => 0
    case INVENTORY => if o.item == row then o.quantity else 0
    case PAYMENT => if o.customer == row then o.amount else 0
  }

  /** How much the durable parts of all orders have taken from a row. */
  function TotalTaken(coords: seq<Coordinator>, p: Participant, row: int): int {
    if coords == [] then 0
    else
      var k := coords[|coords| - 1];
      TotalTaken(coords[..|coords| - 1], p, row) + (if p in k.Durable() then Taken(p, k.order, row) else 0)
  }

  lemma {:induction false} TotalTakenUpdate(coords: seq<Coordinator>, c: nat, k: Coordinator, p: Participant, row: int)
    requires c < |coords| && k.order == coords[c].order
    ensures TotalTaken(coords[c := k], p, row) == TotalTaken(coords, p, row)
      - (if p in coords[c].Durable() then Taken(p, k.order, row) else 0)
      + (if p in k.Durable() then Taken(p, k.order, row) else 0)
  {
    var n := |coords| - 1;
    if c == n {
      assert coords[c := k][..n] == coords[..n];
    } else {
      assert coords[c := k][..n] == coords[..n][c := k];
      TotalTakenUpdate(coords[..n], c, k, p, row);
    }
  }

  // ---------- The invariant ----------

  ghost predicate CoordinatorOk(k: Coordinator) {
    && (ORDER in k.txs ==> k.order.quantity > 0 && k.order.amount > 0)
    && match k.phase
       case Preparing(n) =>
         && n < |NAMES| && (forall p :: p in k.txs <==> p in NAMES[..n])
         && k.Durable() == {}
       case Committing =>
         && (forall p :: p in k.txs)
         && exists p :: p in k.txs && k.txs[p] != Committed
       case RollingBack(left, outcome) =>
         && left != {} && left <= k.txs.Keys
         && (forall p :: k.Holds(p) ==> p in left)
         && OutcomeOk(k, outcome) && outcome != Success
       case Finished(outcome) =>
         && (forall p :: !k.Holds(p))
         && OutcomeOk(k, outcome)
  }

  /** What an outcome says about the durable effects; the commit that failed may have been carried out. */
  ghost predicate OutcomeOk(k: Coordinator, outcome: Outcome) {
    match outcome
    case Success => k.Durable() == {ORDER, INVENTORY, PAYMENT}
    case PrepareFailure => k.Durable() == {}
    case CommitFailure(before, failed) => failed !in before && (k.Durable() == before || k.Durable() == before + {failed})
  }

  /** A held row still has what its holder's Prepare saw, and has no other holder. */
  ghost predicate LocksOk(s: State, c: nat, p: Participant)
    requires c < |s.coords|
  {
    s.coords[c].Holds(p) ==> RowIsFree(s.coords, c, p) && (p != ORDER ==> CanPrepare(s.db, p, s.coords[c].order))
  }

  ghost predicate RowsOk(db0: Database, s: State) {
    && s.db.stock.Keys == db0.stock.Keys && s.db.balance.Keys == db0.balance.Keys
    && (forall i :: i in s.db.stock ==> s.db.stock[i] >= 0 && s.db.stock[i] == db0.stock[i] - TotalTaken(s.coords, INVENTORY, i))
    && (forall i :: i in s.db.balance ==>
         s.db.balance[i] >= 0 && s.db.balance[i] == db0.balance[i] - TotalTaken(s.coords, PAYMENT, i))
  }

  ghost predicate RecordsOk(s: State) {
    && (forall c :: c in s.db.orders <==> 0 <= c < |s.coords| && ORDER in s.coords[c].Durable())
    && (forall c :: c in s.db.orders ==> s.db.orders[c] == s.coords[c].order)
    && (forall c :: c in s.db.payments <==> 0 <= c < |s.coords| && PAYMENT in s.coords[c].Durable())
    && (forall c :: c in s.db.payments ==> s.db.payments[c] == s.coords[c].order)
  }

  ghost predicate Inv(db0: Database, s: State) {
    && (forall c :: 0 <= c < |s.coords| ==> CoordinatorOk(s.coords[c]))
    && (forall c, p :: 0 <= c < |s.coords| ==> LocksOk(s, c, p))
    && RowsOk(db0, s)
    && RecordsOk(s)
  }

  // ---------- Every step keeps it ----------

  /** Steps that touch one coordinator, take no lock and make nothing durable. */
  lemma QuietStep(db0: Database, s: State, c: nat, k: Coordinator)
    requires Inv(db0, s) && c < |s.coords| && k.order == s.coords[c].order && CoordinatorOk(k)
    requires k.Durable() == s.coords[c].Durable() && forall p :: k.Holds(p) ==> s.coords[c].Holds(p)
    ensures Inv(db0, Set(s, c, k))
  {
    hide CoordinatorOk, RowsOk, CanPrepare, Coordinator.Durable;
    var s' := Set(s, c, k);
    TotalsKept(db0, s, c, k);
    forall d, p | 0 <= d < |s.coords| ensures LocksOk(s', d, p) {
      assert LocksOk(s, d, p);
    }
  }

  lemma TotalsKept(db0: Database, s: State, c: nat, k: Coordinator)
    requires RowsOk(db0, s) && c < |s.coords| && k.order == s.coords[c].order && k.Durable() == s.coords[c].Durable()
    ensures RowsOk(db0, Set(s, c, k))
  {
    forall p, row ensures TotalTaken(s.coords[c := k], p, row) == TotalTaken(s.coords, p, row) {
      TotalTakenUpdate(s.coords, c, k, p, row);
    }
  }

  lemma StartStep(db0: Database, s: State, o: Order)
    requires Inv(db0, s)
    ensures Inv(db0, Apply(s, Start(o)))
  {
    var k := Coordinator(o, Preparing(0), map[]);
    var s' := Apply(s, Start(o));
    assert s'.coords[..|s.coords|] == s.coords;
    assert k.Durable() == {} && CoordinatorOk(k);
    forall p, row ensures TotalTaken(s'.coords, p, row) == TotalTaken(s.coords, p, row) {
    }
    hide CoordinatorOk, CanPrepare;
    forall d, p | 0 <= d < |s'.coords| ensures LocksOk(s', d, p) {
      assert !k.Holds(p);
      if d < |s.coords| { assert LocksOk(s, d, p); }
    }
  }

  lemma AbortStep(db0: Database, s: State, c: nat, outcome: Outcome)
    requires Inv(db0, s) && c < |s.coords| && !s.coords[c].phase.Finished?
    requires OutcomeOk(s.coords[c], outcome) && outcome != Success
    ensures Inv(db0, Set(s, c, Abort(s.coords[c], outcome)))
  {
    QuietStep(db0, s, c, Abort(s.coords[c], outcome));
  }

  lemma PrepareStep(db0: Database, s: State, c: nat)
    requires Inv(db0, s)
    ensures Inv(db0, Apply(s, Prepare(c)))
  {
    if c < |s.coords| && s.coords[c].phase.Preparing? && s.coords[c].phase.done < |NAMES| {
      var k, p := s.coords[c], NAMES[s.coords[c].phase.done];
      assert CoordinatorOk(k);
      if RowIsFree(s.coords, c, p) {
        if CanPrepare(s.db, p, k.order) {
          LockStep(db0, s, c, p);
        } else {
          AbortStep(db0, s, c, PrepareFailure);
        }
      }
    }
  }

  lemma PreparedOk(k: Coordinator, p: Participant)
    requires CoordinatorOk(k) && k.phase.Preparing? && p == NAMES[k.phase.done]
    requires p == ORDER ==> k.order.quantity > 0 && k.order.amount > 0
    ensures CoordinatorOk(Prepared(k, p)) && Prepared(k, p).Durable() == k.Durable()
    ensures forall q :: Prepared(k, p).Holds(q) <==> q == p || k.Holds(q)
  {
    var k' := Prepared(k, p);
    assert k'.txs[p] != Committed;
    forall q ensures q in NAMES[..k.phase.done] || q == p <==> q in NAMES[..k.phase.done + 1] {
      assert NAMES[..k.phase.done + 1] == NAMES[..k.phase.done] + [p];
    }
    if k.phase.done + 1 == |NAMES| {
      forall q ensures q in NAMES[..|NAMES|] {
        assert NAMES[0] == ORDER && NAMES[1] == INVENTORY && NAMES[2] == PAYMENT;
        match q { case ORDER => case INVENTORY => case PAYMENT => }
      }
    }
    assert k'.Durable() == {};
  }

  lemma LockStep(db0: Database, s: State, c: nat, p: Participant)
    requires Inv(db0, s) && c < |s.coords| && s.coords[c].phase.Preparing? && p == NAMES[s.coords[c].phase.done]
    requires RowIsFree(s.coords, c, p) && CanPrepare(s.db, p, s.coords[c].order)
    ensures Inv(db0, Set(s, c, Prepared(s.coords[c], p)))
  {
    var k := s.coords[c];
    var k' := Prepared(k, p);
    var s' := Set(s, c, k');
    PreparedOk(k, p);
    TotalsKept(db0, s, c, k');
    forall d, q | 0 <= d < |s.coords| ensures LocksOk(s', d, q) {
      LockTaken(s, c, p, k', d, q);
    }
  }

  lemma LockTaken(s: State, c: nat, p: Participant, k: Coordinator, d: nat, q: Participant)
    requires c < |s.coords| && k.order == s.coords[c].order
    requires forall q :: k.Holds(q) ==> q == p || s.coords[c].Holds(q)
    requires RowIsFree(s.coords, c, p) && (p != ORDER ==> CanPrepare(s.db, p, k.order))
    requires d < |s.coords| && LocksOk(s, d, q) && LocksOk(s, c, q)
    ensures LocksOk(Set(s, c, k), d, q)
  {
    hide Coordinator.Holds, CanPrepare;
  }

  // ---------- Committing ----------

  lemma CommittedOk(k: Coordinator, p: Participant)
    requires CoordinatorOk(k) && k.phase.Committing? && k.Holds(p)
    ensures CoordinatorOk(CommittedOne(k, p)) && CommittedOne(k, p).Durable() == k.Durable() + {p}
    ensures p !in k.Durable() && forall q :: CommittedOne(k, p).Holds(q) <==> q != p && k.Holds(q)
  {
    var k' := CommittedOne(k, p);
    assert k'.Durable() == k.Durable() + {p};
    if k'.phase == Finished(Success) {
      forall q ensures q in k'.Durable() <==> q in {ORDER, INVENTORY, PAYMENT} {
        match q { case ORDER => case INVENTORY => case PAYMENT => }
      }
    }
  }

  lemma CommitRows(db0: Database, s: State, c: nat, p: Participant, k: Coordinator)
    requires Inv(db0, s) && c < |s.coords| && s.coords[c].Holds(p) && k.order == s.coords[c].order
    requires p !in s.coords[c].Durable() && k.Durable() == s.coords[c].Durable() + {p}
    ensures RowsOk(db0, Set(s, c, k).(db := Effect(s.db, p, c, k.order)))
  {
    assert LocksOk(s, c, p);
    hide CoordinatorOk, RecordsOk, Coordinator.Durable, Coordinator.Holds;
    forall q, row ensures TotalTaken(s.coords[c := k], q, row) ==
      TotalTaken(s.coords, q, row) + (if q == p then Taken(p, k.order, row) else 0)
    {
      TotalTakenUpdate(s.coords, c, k, q, row);
    }
  }

  lemma CommitRecords(s: State, c: nat, p: Participant, k: Coordinator)
    requires RecordsOk(s) && c < |s.coords| && k.order == s.coords[c].order
    requires k.Durable() == s.coords[c].Durable() + {p}
    ensures RecordsOk(Set(s, c, k).(db := Effect(s.db, p, c, k.order)))
  {
    hide Coordinator.Durable;
  }

  lemma CommitLock(s: State, c: nat, p: Participant, k: Coordinator, d: nat, q: Participant)
    requires c < |s.coords| && s.coords[c].Holds(p) && k.order == s.coords[c].order
    requires forall q :: k.Holds(q) <==> q != p && s.coords[c].Holds(q)
    requires d < |s.coords| && LocksOk(s, c, p) && LocksOk(s, d, q)
    ensures LocksOk(Set(s, c, k).(db := Effect(s.db, p, c, k.order)), d, q)
  {
    hide Coordinator.Holds;
  }

  lemma CommitStep(db0: Database, s: State, c: nat, p: Participant)
    requires Inv(db0, s)
    ensures Inv(db0, Apply(s, Commit(c, p)))
  {
    if c < |s.coords| && s.coords[c].phase.Committing? && p in s.coords[c].txs && s.coords[c].txs[p] != Committed {
      var k := s.coords[c];
      assert CoordinatorOk(k);
      if k.txs[p] == Open {
        var k' := CommittedOne(k, p);
        CommittedOk(k, p);
        CommitRows(db0, s, c, p, k');
        CommitRecords(s, c, p, k');
        forall d, q | 0 <= d < |s.coords| ensures LocksOk(Apply(s, Commit(c, p)), d, q) {
          CommitLock(s, c, p, k', d, q);
        }
      } else {
        AbortStep(db0, s, c, CommitFailure(k.Durable(), p));
      }
    }
  }

  lemma AppliedOk(k: Coordinator, p: Participant)
    requires CoordinatorOk(k) && k.phase.Committing? && k.Holds(p)
    ensures CoordinatorOk(AppliedOne(k, p)) && AppliedOne(k, p).Durable() == k.Durable() + {p}
    ensures p !in k.Durable() && forall q :: AppliedOne(k, p).Holds(q) <==> q != p && k.Holds(q)
  {
    var k' := AppliedOne(k, p);
    assert k'.Durable() == k.Durable() + {p};
    assert p in k'.txs.Keys;
  }

  lemma AppliedStep(db0: Database, s: State, c: nat, p: Participant)
    requires Inv(db0, s)
    ensures Inv(db0, Apply(s, CommitApplies(c, p)))
  {
    if c < |s.coords| && s.coords[c].phase.Committing? && s.coords[c].Holds(p) {
      assert CoordinatorOk(s.coords[c]);
      var k' := AppliedOne(s.coords[c], p);
      AppliedOk(s.coords[c], p);
      CommitRows(db0, s, c, p, k');
      CommitRecords(s, c, p, k');
      forall d, q | 0 <= d < |s.coords| ensures LocksOk(Apply(s, CommitApplies(c, p)), d, q) {
        CommitLock(s, c, p, k', d, q);
      }
    }
  }

  lemma RollbackStep(db0: Database, s: State, c: nat, p: Participant)
    requires Inv(db0, s)
    ensures Inv(db0, Apply(s, Rollback(c, p)))
  {
    if c < |s.coords| && s.coords[c].phase.RollingBack? && p in s.coords[c].phase.left {
      var k := s.coords[c];
      assert CoordinatorOk(k);
      var k' := RolledBackOne(k, p);
      assert k'.Durable() == k.Durable();
      forall q | k'.Holds(q) ensures k.Holds(q) && q in k.phase.left - {p} {}
      QuietStep(db0, s, c, k');
    }
  }

  lemma KillStep(db0: Database, s: State, c: nat, p: Participant)
    requires Inv(db0, s)
    ensures Inv(db0, Apply(s, Kill(c, p)))
  {
    if c < |s.coords| && s.coords[c].Holds(p) {
      var k := s.coords[c];
      assert CoordinatorOk(k);
      var k' := k.(txs := k.txs[p := Dead]);
      assert k'.Durable() == k.Durable();
      assert k'.txs.Keys == k.txs.Keys;
      assert k'.txs[p] != Committed;
      QuietStep(db0, s, c, k');
    }
  }

  lemma StepInv(db0: Database, s: State, step: Step)
    requires Inv(db0, s)
    ensures Inv(db0, Apply(s, step))
  {
    match step {
      case Start(o) => StartStep(db0, s, o);
      case Prepare(c) => PrepareStep(db0, s, c);
      case PrepareFails(c) =>
        if c < |s.coords| && s.coords[c].phase.Preparing? {
          assert CoordinatorOk(s.coords[c]);
          AbortStep(db0, s, c, PrepareFailure);
        }
      case Kill(c, p) => KillStep(db0, s, c, p);
      case Commit(c, p) => CommitStep(db0, s, c, p);
      case CommitFails(c, p) =>
        if c < |s.coords| && s.coords[c].phase.Committing? && p in s.coords[c].txs && s.coords[c].txs[p] != Committed {
          assert CoordinatorOk(s.coords[c]);
          AbortStep(db0, s, c, CommitFailure(s.coords[c].Durable(), p));
        }
      case CommitApplies(c, p) => AppliedStep(db0, s, c, p);
      case Rollback(c, p) => RollbackStep(db0, s, c, p);
    }
  }

  lemma {:induction false} Reachable(db: Database, steps: seq<Step>)
    requires ValidStart(db)
    ensures Inv(db, Exec(db, steps))
  {
    if steps != [] {
      Reachable(db, steps[..|steps| - 1]);
      StepInv(db, Exec(db, steps[..|steps| - 1]), steps[|steps| - 1]);
    }
  }

  // ---------- Safety ----------

  /** In every reachable state no stock or balance is negative, and each is what the durable orders have left of it. */
  lemma NeverNegative(db: Database, steps: seq<Step>, row: int)
    requires ValidStart(db)
    ensures var s := Exec(db, steps);
      && (row in s.db.stock <==> row in db.stock) && (row in s.db.balance <==> row in db.balance)
      && (row in db.stock ==> 0 <= s.db.stock[row] == db.stock[row] - TotalTaken(s.coords, INVENTORY, row))
      && (row in db.balance ==> 0 <= s.db.balance[row] == db.balance[row] - TotalTaken(s.coords, PAYMENT, row))
  {
    hide Exec;
    Reachable(db, steps);
  }

  /**
   * What a finished coordinator leaves behind: nothing after a failure of the prepare phase, all three effects after
   * success, and after a failure of the commit phase the effects committed before it, with or without that of the commit
   * for which the error came.
   */
  lemma OutcomeIsDurable(db: Database, steps: seq<Step>, c: nat)
    requires ValidStart(db)
    ensures var s := Exec(db, steps);
      c < |s.coords| && s.coords[c].phase.Finished? ==>
        var durable := s.coords[c].Durable();
        && (c in s.db.orders <==> ORDER in durable) && (c in s.db.payments <==> PAYMENT in durable)
        && match s.coords[c].phase.outcome
           case Success => durable == {ORDER, INVENTORY, PAYMENT}
           case PrepareFailure => durable == {}
           case CommitFailure(before, failed) => failed !in before && (durable == before || durable == before + {failed})
  {
    hide Exec;
    Reachable(db, steps);
    var s := Exec(db, steps);
    if c < |s.coords| { assert CoordinatorOk(s.coords[c]); }
  }

  /** The participant could commit: its row exists, and the effect of its commit leaves nothing negative there. */
  predicate Fits(db: Database, p: Participant, c: nat, o: Order) {
    var db' := Effect(db, p, c, o);
    match p
    case ORDER => o.customer in db.customers && o.quantity > 0 && o.amount > 0
    case INVENTORY => o.item in db.stock && o.item in db'.stock && db'.stock[o.item] >= 0
    case PAYMENT => o.customer in db.balance && o.customer in db'.balance && db'.balance[o.customer] >= 0
  }

  /** Another transaction that is still open has selected the row, that of the item or that of the customer. */
  ghost predicate IsLockedByAnother(s: State, c: nat, p: Participant)
    requires c < |s.coords|
  {
    exists d :: 0 <= d < |s.coords| && d != c && p in s.coords[d].txs && s.coords[d].txs[p] == Open
      && ((p == INVENTORY && s.coords[d].order.item == s.coords[c].order.item)
          || (p == PAYMENT && s.coords[d].order.customer == s.coords[c].order.customer))
  }

  lemma PrepareFrom(s: State, c: nat)
    requires c < |s.coords| && s.coords[c].phase.Preparing? && s.coords[c].phase.done < |NAMES|
    ensures var s', k := Apply(s, Prepare(c)), s.coords[c];
      var p := NAMES[k.phase.done];
      && (IsLockedByAnother(s, c, p) ==> s' == s)
      && (!IsLockedByAnother(s, c, p) ==> s'.db == s.db && |s'.coords| == |s.coords|)
      && (!IsLockedByAnother(s, c, p) && Fits(s.db, p, c, k.order) ==>
            && s'.coords[c].txs == k.txs[p := Open]
            && s'.coords[c].phase == if k.phase.done + 1 == |NAMES| then Committing else Preparing(k.phase.done + 1))
      && (!IsLockedByAnother(s, c, p) && !Fits(s.db, p, c, k.order) ==>
            Decision(s'.coords[c]) == {PrepareFailure} && s'.coords[c].txs == k.txs)
  {
    var p := NAMES[s.coords[c].phase.done];
    if RowIsFree(s.coords, c, p) {
      assert !IsLockedByAnother(s, c, p);
    } else {
      var d :| 0 <= d < |s.coords| && d != c && SameRow(p, s.coords[c].order, s.coords[d].order) && s.coords[d].Holds(p);
      assert IsLockedByAnother(s, c, p);
    }
  }

  /**
   * In every run a Prepare waits while another transaction has locked its row. Otherwise it moves on if and only if the
   * participant could commit, and fails the whole order if it could not.
   */
  lemma PrepareMovesOnIff(db: Database, steps: seq<Step>, c: nat)
    requires ValidStart(db) && c < |Exec(db, steps).coords| && Exec(db, steps).coords[c].phase.Preparing?
    ensures Exec(db, steps).coords[c].phase.done < |NAMES|
    ensures var s, s' := Exec(db, steps), Exec(db, steps + [Prepare(c)]);
      var k := s.coords[c];
      var p := NAMES[k.phase.done];
      && (IsLockedByAnother(s, c, p) ==> s' == s)
      && (!IsLockedByAnother(s, c, p) ==> s'.db == s.db && |s'.coords| == |s.coords|)
      && (!IsLockedByAnother(s, c, p) && Fits(s.db, p, c, k.order) ==>
            && s'.coords[c].txs == k.txs[p := Open]
            && s'.coords[c].phase == if k.phase.done + 1 == |NAMES| then Committing else Preparing(k.phase.done + 1))
      && (!IsLockedByAnother(s, c, p) && !Fits(s.db, p, c, k.order) ==>
            Decision(s'.coords[c]) == {PrepareFailure} && s'.coords[c].txs == k.txs)
  {
    hide Exec, Apply, Fits, IsLockedByAnother;
    Reachable(db, steps);
    assert CoordinatorOk(Exec(db, steps).coords[c]);
    ExecSnoc(db, steps, Prepare(c));
    PrepareFrom(Exec(db, steps), c);
  }

  /**
   * What a failure leads to: a Prepare that meets an error fails the order, a transaction that the database ends is dead
   * and holds nothing any more, and neither touches the data.
   */
  lemma FailuresLeadTo(s: State, c: nat, p: Participant)
    requires c < |s.coords|
    ensures var s', k := Apply(s, PrepareFails(c)), s.coords[c];
      if k.phase.Preparing? then
        s'.db == s.db && |s'.coords| == |s.coords| && Decision(s'.coords[c]) == {PrepareFailure} && s'.coords[c].txs == k.txs
      else s' == s
    ensures var s', k := Apply(s, Kill(c, p)), s.coords[c];
      if k.Holds(p) then s' == s.(coords := s.coords[c := k.(txs := k.txs[p := Dead])]) && !s'.coords[c].Holds(p)
      else s' == s
  {
    hide CanPrepare, Effect;
  }

  /**
   * A commit of an open transaction makes exactly the participant's effect durable, and is the success of the whole order
   * if no other is missing; a dead one, and one that the database refuses, fails the order and changes no data.
   */
  lemma CommitLeadsTo(db: Database, steps: seq<Step>, c: nat, p: Participant)
    requires ValidStart(db) && c < |Exec(db, steps).coords| && Exec(db, steps).coords[c].phase.Committing?
    requires p !in Exec(db, steps).coords[c].Durable()
    ensures var s := Exec(db, steps);
      var committed, refused := Exec(db, steps + [Commit(c, p)]), Exec(db, steps + [CommitFails(c, p)]);
      var k := s.coords[c];
      && |committed.coords| == |refused.coords| == |s.coords|
      && refused.db == s.db && refused.coords[c].Durable() == k.Durable()
      && Decision(refused.coords[c]) == {CommitFailure(k.Durable(), p)}
      && (k.Holds(p) ==>
            && committed.db == Effect(s.db, p, c, k.order) && committed.coords[c].Durable() == k.Durable() + {p}
            && committed.coords[c].phase ==
                 if k.Durable() + {p} == {ORDER, INVENTORY, PAYMENT} then Finished(Success) else Committing)
      && (!k.Holds(p) ==> committed == refused)
  {
    Reachable(db, steps);
    var k := Exec(db, steps).coords[c];
    assert CoordinatorOk(k);
    ExecSnoc(db, steps, Commit(c, p));
    ExecSnoc(db, steps, CommitFails(c, p));
    hide Exec, Inv, Effect;
    assert Abort(k, CommitFailure(k.Durable(), p)).Durable() == k.Durable();
    if k.Holds(p) {
      CommittedOk(k, p);
      CommittedPhase(k, p);
    }
  }

  lemma CommittedPhase(k: Coordinator, p: Participant)
    requires CoordinatorOk(k) && k.phase.Committing? && k.Holds(p)
    ensures CommittedOne(k, p).phase == if k.Durable() + {p} == {ORDER, INVENTORY, PAYMENT} then Finished(Success) else Committing
  {
    var k' := CommittedOne(k, p);
    assert k'.Durable() == k.Durable() + {p};
    if k'.phase == Finished(Success) {
      forall q ensures q in k'.Durable() <==> q in {ORDER, INVENTORY, PAYMENT} {
        match q { case ORDER => case INVENTORY => case PAYMENT => }
      }
    } else {
      var q :| q in k'.txs && k'.txs[q] != Committed;
      assert q !in k'.Durable();
      match q { case ORDER => case INVENTORY => case PAYMENT => }
    }
  }

  lemma ExecSnoc(db: Database, steps: seq<Step>, step: Step)
    ensures Exec(db, steps + [step]) == Apply(Exec(db, steps), step)
  {
    assert (steps + [step])[..|steps|] == steps;
  }

  function Decision(k: Coordinator): set<Outcome> {
    match k.phase
    case Preparing(_) => {}
    case Committing => {}
    case RollingBack(_, outcome) => {outcome}
    case Finished(outcome) => {outcome}
  }

  /** From the moment of the failure (or success) on, neither the outcome nor the durable effects ever change. */
  lemma DecisionIsFinal(s: State, step: Step, c: nat)
    requires c < |s.coords| && Decision(s.coords[c]) != {}
    ensures c < |Apply(s, step).coords|
    ensures Decision(Apply(s, step).coords[c]) == Decision(s.coords[c])
    ensures Apply(s, step).coords[c].Durable() == s.coords[c].Durable()
  {
    var k := s.coords[c];
    match step {
      case Rollback(d, p) =>
        if d == c && k.phase.RollingBack? && p in k.phase.left {
          assert RolledBackOne(k, p).Durable() == k.Durable();
        }
      case Kill(d, p) =>
        if d == c && k.Holds(p) {
          assert k.(txs := k.txs[p := Dead]).Durable() == k.Durable();
        }
      case _ =>
    }
  }

  predicate AllOrNothing(k: Coordinator) {
    k.Durable() == {} || k.Durable() == {ORDER, INVENTORY, PAYMENT}
  }

  /** The step commits one of the transactions of coordinator c. */
  predicate Commits(s: State, step: Step, c: nat) {
    step.Commit? && step.c == c && c < |s.coords| && s.coords[c].phase.Committing?
    && step.p in s.coords[c].txs && s.coords[c].txs[step.p] == Open
  }

  /** The step is a commit of coordinator c that fails: the database refuses it, or the transaction is dead already. */
  predicate FailsToCommit(s: State, step: Step, c: nat) {
    (step.Commit? || step.CommitFails?) && step.c == c && c < |s.coords| && s.coords[c].phase.Committing?
    && step.p in s.coords[c].txs && s.coords[c].txs[step.p] != Committed && !Commits(s, step, c)
  }

  /** The step is a commit of coordinator c that fails although it is carried out. */
  predicate FailsButApplies(s: State, step: Step, c: nat) {
    step.CommitApplies? && step.c == c && c < |s.coords| && s.coords[c].phase.Committing? && s.coords[c].Holds(step.p)
  }

  /** How many commits of c have succeeded in the run. */
  function Successes(db: Database, steps: seq<Step>, c: nat): nat {
    if steps == [] then 0
    else
      var init, last := steps[..|steps| - 1], steps[|steps| - 1];
      Successes(db, init, c) + if Commits(Exec(db, init), last, c) then 1 else 0
  }

  /**
   * In the run a commit of c fails in the middle: it is not carried out after another one has succeeded, or it is carried
   * out while it is not the last one.
   */
  predicate FailsInTheMiddle(db: Database, steps: seq<Step>, c: nat) {
    steps != [] &&
    var init, last := steps[..|steps| - 1], steps[|steps| - 1];
    || FailsInTheMiddle(db, init, c)
    || (FailsToCommit(Exec(db, init), last, c) && Successes(db, init, c) > 0)
    || (FailsButApplies(Exec(db, init), last, c) && Successes(db, init, c) + 1 < |NAMES|)
  }

  predicate StoryOk(s: State, c: nat, successes: nat, failed: bool) {
    if c >= |s.coords| then successes == 0 && !failed
    else
      && (Decision(s.coords[c]) == {} ==> |s.coords[c].Durable()| == successes && !failed)
      && (Decision(s.coords[c]) != {} ==> (failed <==> !AllOrNothing(s.coords[c])))
  }

  /** A set of participants with three members is all of them. */
  lemma ThreeAreAll(d: set<Participant>)
    ensures |d| == |NAMES| <==> d == {ORDER, INVENTORY, PAYMENT}
    ensures |d| <= |NAMES| && (|d| == 0 <==> d == {})
  {
    var all := {ORDER, INVENTORY, PAYMENT};
    forall p | p in d ensures p in all { match p { case ORDER => case INVENTORY => case PAYMENT => } }
    assert d <= all;
    var rest := all - d;
    assert d + rest == all && |d| + |rest| == |all|;
  }

  lemma CommitStory(k: Coordinator, p: Participant, successes: nat)
    requires CoordinatorOk(k) && k.phase.Committing? && k.Holds(p) && |k.Durable()| == successes
    ensures var k' := CommittedOne(k, p);
      if Decision(k') == {} then |k'.Durable()| == successes + 1 else AllOrNothing(k')
  {
    CommittedOk(k, p);
    assert |k.Durable() + {p}| == |k.Durable()| + 1;
  }

  lemma FailStory(k: Coordinator, p: Participant, successes: nat)
    requires CoordinatorOk(k) && k.phase.Committing? && p in k.txs && k.txs[p] != Committed && |k.Durable()| == successes
    ensures var k' := Abort(k, CommitFailure(k.Durable(), p));
      Decision(k') != {} && (!AllOrNothing(k') <==> successes > 0)
  {
    var k' := Abort(k, CommitFailure(k.Durable(), p));
    assert k'.Durable() == k.Durable() && p !in k.Durable();
    ThreeAreAll(k.Durable());
    assert p in {ORDER, INVENTORY, PAYMENT} by { match p { case ORDER => case INVENTORY => case PAYMENT => } }
  }

  lemma AppliedStory(k: Coordinator, p: Participant, successes: nat)
    requires CoordinatorOk(k) && k.phase.Committing? && k.Holds(p) && |k.Durable()| == successes
    ensures var k' := AppliedOne(k, p);
      Decision(k') != {} && (!AllOrNothing(k') <==> successes + 1 < |NAMES|)
  {
    AppliedOk(k, p);
    assert |k.Durable() + {p}| == |k.Durable()| + 1;
    ThreeAreAll(k.Durable() + {p});
  }

  lemma StoryStep(db: Database, s: State, step: Step, c: nat, successes: nat, failed: bool)
    requires Inv(db, s) && StoryOk(s, c, successes, failed)
    ensures StoryOk(Apply(s, step), c, successes + (if Commits(s, step, c) then 1 else 0),
      || failed || (FailsToCommit(s, step, c) && successes > 0)
      || (FailsButApplies(s, step, c) && successes + 1 < |NAMES|))
  {
    hide CanPrepare, Effect, RowsOk, RecordsOk, LocksOk;
    if c < |s.coords| {
      var k := s.coords[c];
      assert CoordinatorOk(k);
      if Decision(k) != {} {
        DecisionIsFinal(s, step, c);
      } else if Commits(s, step, c) {
        CommitStory(k, step.p, successes);
      } else if FailsToCommit(s, step, c) {
        FailStory(k, step.p, successes);
      } else if FailsButApplies(s, step, c) {
        AppliedStory(k, step.p, successes);
      } else {
        OtherStory(s, step, c);
      }
    }
  }

  /** A step that is none of these leaves an undecided coordinator undecided, or makes it fail before any commit. */
  lemma OtherStory(s: State, step: Step, c: nat)
    requires c < |s.coords| && CoordinatorOk(s.coords[c]) && Decision(s.coords[c]) == {}
    requires !Commits(s, step, c) && !FailsToCommit(s, step, c) && !FailsButApplies(s, step, c)
    ensures c < |Apply(s, step).coords|
    ensures var k' := Apply(s, step).coords[c];
      k'.Durable() == s.coords[c].Durable() && (Decision(k') != {} ==> AllOrNothing(k'))
  {
    hide CanPrepare, Effect;
    var k := s.coords[c];
    match step {
      case Kill(d, p) =>
        if d == c && k.Holds(p) { assert k.(txs := k.txs[p := Dead]).Durable() == k.Durable(); }
      case Prepare(d) =>
        if d == c && k.phase.Preparing? {
          var p := NAMES[k.phase.done];
          assert p !in k.txs;
          assert Prepared(k, p).Durable() == k.Durable();
        }
      case _ =>
    }
  }

  lemma {:induction false} StoryHolds(db: Database, steps: seq<Step>, c: nat)
    requires ValidStart(db)
    ensures StoryOk(Exec(db, steps), c, Successes(db, steps, c), FailsInTheMiddle(db, steps, c))
  {
    hide StoryOk, Apply, Commits, FailsToCommit, FailsButApplies;
    if steps == [] {
      NoStory(db, c);
    } else {
      var init := steps[..|steps| - 1];
      StoryHolds(db, init, c);
      Reachable(db, init);
      StoryStep(db, Exec(db, init), steps[|steps| - 1], c, Successes(db, init, c), FailsInTheMiddle(db, init, c));
    }
  }

  lemma NoStory(db: Database, c: nat)
    ensures StoryOk(State(db, []), c, 0, false)
  {
  }

  /**
   * A finished coordinator is all-or-nothing if and only if none of its commits failed in the middle: a commit that fails
   * is harmless when nothing is carried out before it and it is not carried out either, and when it is the last one and
   * carried out.
   */
  lemma AtomicIff(db: Database, steps: seq<Step>, c: nat)
    requires ValidStart(db) && c < |Exec(db, steps).coords| && Exec(db, steps).coords[c].phase.Finished?
    ensures AllOrNothing(Exec(db, steps).coords[c]) <==> !FailsInTheMiddle(db, steps, c)
  {
    hide Exec, Successes, FailsInTheMiddle, Coordinator.Durable;
    StoryHolds(db, steps, c);
  }

  /** Atomicity is lost: the order row is durable while stock and balance are untouched. */
  ghost predicate HalfDone(db: Database, s: State) {
    && |s.coords| == 1 && s.coords[0].phase == Finished(CommitFailure({ORDER}, INVENTORY))
    && 0 in s.db.orders && s.db.stock == db.stock && s.db.balance == db.balance
  }

  lemma Do(db: Database, steps: seq<Step>, step: Step) returns (steps': seq<Step>)
    ensures steps' == steps + [step] && Exec(db, steps') == Apply(Exec(db, steps), step)
  {
    steps' := steps + [step];
    assert steps'[..|steps'| - 1] == steps;
  }

  lemma AllPrepared(db: Database, o: Order) returns (steps: seq<Step>, txs: map<Participant, Tx>)
    requires CanPrepare(db, ORDER, o) && CanPrepare(db, INVENTORY, o) && CanPrepare(db, PAYMENT, o)
    ensures Exec(db, steps) == State(db, [Coordinator(o, Committing, txs)])
    ensures txs == map[ORDER := Open, INVENTORY := Open, PAYMENT := Open]
  {
    steps := Do(db, [], Start(o));
    assert Exec(db, steps) == State(db, [Coordinator(o, Preparing(0), map[])]);
    steps := Do(db, steps, Prepare(0));
    txs := map[ORDER := Open];
    assert Exec(db, steps) == State(db, [Coordinator(o, Preparing(1), txs)]);
    steps := Do(db, steps, Prepare(0));
    txs := txs[INVENTORY := Open];
    assert Exec(db, steps) == State(db, [Coordinator(o, Preparing(2), txs)]);
    steps := Do(db, steps, Prepare(0));
    txs := txs[PAYMENT := Open];
    assert Exec(db, steps) == State(db, [Coordinator(o, Committing, txs)]);
  }

  lemma RolledBackAll(db: Database, steps: seq<Step>, k: Coordinator, db': Database) returns (steps': seq<Step>)
    requires Exec(db, steps) == State(db', [k])
    requires k.phase.RollingBack? && k.phase.left == {ORDER, INVENTORY, PAYMENT}
    ensures Exec(db, steps').db == db' && |Exec(db, steps').coords| == 1
    ensures Exec(db, steps').coords[0].phase == Finished(k.phase.outcome)
  {
    hide Exec;
    steps' := Do(db, steps, Rollback(0, ORDER));
    assert k.phase.left - {ORDER} == {INVENTORY, PAYMENT};
    steps' := Do(db, steps', Rollback(0, INVENTORY));
    assert {INVENTORY, PAYMENT} - {INVENTORY} == {PAYMENT};
    steps' := Do(db, steps', Rollback(0, PAYMENT));
    assert {PAYMENT} - {PAYMENT} == {};
  }

  /** And that does happen. */
  lemma AtomicityIsLost() returns (db: Database, steps: seq<Step>)
    ensures ValidStart(db) && HalfDone(db, Exec(db, steps))
  {
    var o := Order(0, 0, 1, 1);
    db := Database(map[0 := 5], map[0 := 5], {0}, map[], map[]);
    var txs;
    steps, txs := AllPrepared(db, o);
    hide Exec;
    steps := Do(db, steps, Commit(0, ORDER));
    var db', k := db.(orders := map[0 := o]), Coordinator(o, Committing, txs[ORDER := Committed]);
    assert k.txs[PAYMENT] == Open;
    assert Exec(db, steps) == State(db', [k]);
    steps := Do(db, steps, CommitFails(0, INVENTORY));
    assert k.Durable() == {ORDER};
    assert k.txs.Keys == {ORDER, INVENTORY, PAYMENT};
    var k' := Abort(k, CommitFailure({ORDER}, INVENTORY));
    steps := RolledBackAll(db, steps, k', db');
  }

  /** A failure that is reported after everything has been carried out. */
  ghost predicate FailedButDone(s: State) {
    && |s.coords| == 1 && s.coords[0].phase == Finished(CommitFailure({ORDER, INVENTORY}, PAYMENT))
    && 0 in s.db.orders && 0 in s.db.payments && s.coords[0].Durable() == {ORDER, INVENTORY, PAYMENT}
  }

  lemma AllButPayment(db: Database, o: Order) returns (steps: seq<Step>, k: Coordinator)
    requires CanPrepare(db, ORDER, o) && CanPrepare(db, INVENTORY, o) && CanPrepare(db, PAYMENT, o) && db.orders == map[]
    ensures Exec(db, steps).coords == [k] && 0 in Exec(db, steps).db.orders
    ensures k == Coordinator(o, Committing, map[ORDER := Committed, INVENTORY := Committed, PAYMENT := Open])
  {
    var txs;
    steps, txs := AllPrepared(db, o);
    hide Exec, CanPrepare;
    steps := Do(db, steps, Commit(0, ORDER));
    k := Coordinator(o, Committing, txs[ORDER := Committed]);
    assert k.txs[PAYMENT] == Open;
    assert Exec(db, steps) == State(db.(orders := map[0 := o]), [k]);
    steps := Do(db, steps, Commit(0, INVENTORY));
    k := k.(txs := k.txs[INVENTORY := Committed]);
    assert k.txs[PAYMENT] == Open;
  }

  lemma FailureMayBeComplete() returns (db: Database, steps: seq<Step>)
    ensures ValidStart(db) && FailedButDone(Exec(db, steps))
  {
    db := Database(map[0 := 5], map[0 := 5], {0}, map[], map[]);
    var k;
    steps, k := AllButPayment(db, Order(0, 0, 1, 1));
    hide Exec, CanPrepare;
    assert k.Durable() == {ORDER, INVENTORY};
    steps := Do(db, steps, CommitApplies(0, PAYMENT));
    var k' := AppliedOne(k, PAYMENT);
    assert k'.txs.Keys == {ORDER, INVENTORY, PAYMENT};
    var db' := Exec(db, steps).db;
    assert Exec(db, steps) == State(db', [k']);
    steps := RolledBackAll(db, steps, k', db');
    OutcomeIsDurable(db, steps, 0);
  }

  // ---------- Progress ----------

  predicate IsWork(step: Step) {
    step.Prepare? || step.Commit? || step.Rollback?
  }

  /** A coordinator past its prepare phase never waits. */
  lemma LaterPhaseCanStep(s: State, c: nat) returns (step: Step)
    requires c < |s.coords| && CoordinatorOk(s.coords[c])
    requires s.coords[c].phase.Committing? || s.coords[c].phase.RollingBack?
    ensures IsWork(step) && Apply(s, step) != s
  {
    var k := s.coords[c];
    if k.phase.Committing? {
      var p :| p in k.txs && k.txs[p] != Committed;
      step := Commit(c, p);
      assert Apply(s, step).coords[c] != k;
    } else {
      var p :| p in k.phase.left;
      step := Rollback(c, p);
      assert p !in k.phase.left - {p};
      assert Apply(s, step).coords[c] != k;
    }
  }

  lemma FreeRowCanStep(s: State, c: nat)
    requires c < |s.coords| && s.coords[c].phase.Preparing? && s.coords[c].phase.done < |NAMES|
    requires RowIsFree(s.coords, c, NAMES[s.coords[c].phase.done])
    ensures Apply(s, Prepare(c)) != s
  {
    assert Apply(s, Prepare(c)).coords[c].phase != s.coords[c].phase;
  }

  /** Whoever holds a row is past preparing, or holds an inventory row and waits only for a payment row. */
  lemma HolderPhase(k: Coordinator, p: Participant)
    requires CoordinatorOk(k) && k.Holds(p)
    ensures k.phase.Committing? || k.phase.RollingBack? || k.phase == Preparing(1) || k.phase == Preparing(2)
    ensures p == PAYMENT ==> !k.phase.Preparing?
    ensures p == INVENTORY && k.phase.Preparing? ==> k.phase.done == 2
  {
    if k.phase.Preparing? {
      assert NAMES[..0] == [] && NAMES[..1] == [ORDER] && NAMES[..2] == [ORDER, INVENTORY];
    }
  }

  /** Locks are taken in the fixed order inventory, then payment, so some unfinished coordinator can always go on. */
  lemma NoDeadlock(db: Database, steps: seq<Step>, c: nat) returns (step: Step)
    requires ValidStart(db)
    requires c < |Exec(db, steps).coords| && !Exec(db, steps).coords[c].phase.Finished?
    ensures IsWork(step) && Apply(Exec(db, steps), step) != Exec(db, steps)
  {
    hide Exec;
    Reachable(db, steps);
    step := SomeStep(db, Exec(db, steps), c, 2);
  }

  lemma {:induction false} SomeStep(db: Database, s: State, c: nat, fuel: nat) returns (step: Step)
    requires Inv(db, s) && c < |s.coords| && !s.coords[c].phase.Finished?
    requires fuel == 2 || (fuel == 1 && s.coords[c].phase == Preparing(2)) || !s.coords[c].phase.Preparing?
    ensures IsWork(step) && Apply(s, step) != s
    decreases fuel
  {
    var k := s.coords[c];
    assert CoordinatorOk(k);
    if !k.phase.Preparing? {
      step := LaterPhaseCanStep(s, c);
    } else {
      var p := NAMES[k.phase.done];
      if RowIsFree(s.coords, c, p) {
        FreeRowCanStep(s, c);
        step := Prepare(c);
      } else {
        var d :| 0 <= d < |s.coords| && d != c && SameRow(p, k.order, s.coords[d].order) && s.coords[d].Holds(p);
        assert CoordinatorOk(s.coords[d]);
        HolderPhase(s.coords[d], p);
        step := SomeStep(db, s, d, if s.coords[d].phase.Preparing? then 1 else 0);
      }
    }
  }

  function OpenCount(k: Coordinator): nat {
    (if k.Holds(ORDER) then 1 else 0) + (if k.Holds(INVENTORY) then 1 else 0) + (if k.Holds(PAYMENT) then 1 else 0)
  }

  /** How far a coordinator is from being finished. */
  function Rank(k: Coordinator): nat {
    OpenCount(k) + 4 * match k.phase
    case Preparing(n) => if n < |NAMES| then 5 + |NAMES| - n else 5
    case Committing => 5
    case RollingBack(left, _) => 1 + (if ORDER in left then 1 else 0) + (if INVENTORY in left then 1 else 0)
        + (if PAYMENT in left then 1 else 0)
    case Finished(_) => 0
  }

  function TotalRank(coords: seq<Coordinator>): nat {
    if coords == [] then 0 else TotalRank(coords[..|coords| - 1]) + Rank(coords[|coords| - 1])
  }

  lemma {:induction false} TotalRankUpdate(coords: seq<Coordinator>, c: nat, k: Coordinator)
    requires c < |coords|
    ensures TotalRank(coords[c := k]) == TotalRank(coords) - Rank(coords[c]) + Rank(k)
  {
    var n := |coords| - 1;
    if c == n {
      assert coords[c := k][..n] == coords[..n];
    } else {
      assert coords[c := k][..n] == coords[..n][c := k];
      TotalRankUpdate(coords[..n], c, k);
    }
  }

  lemma RankFalls(s: State, c: nat, step: Step)
    requires !step.Start? && step.c == c < |s.coords| && CoordinatorOk(s.coords[c])
    requires Apply(s, step) != s
    ensures var s' := Apply(s, step);
      |s'.coords| == |s.coords| && s'.coords == s.coords[c := s'.coords[c]] && Rank(s'.coords[c]) < Rank(s.coords[c])
  {
    var k, k' := s.coords[c], Apply(s, step).coords[c];
    match step {
      case Prepare(_) =>
      case PrepareFails(_) =>
      case Kill(_, p) =>
        assert k'.phase == k.phase && OpenCount(k') < OpenCount(k) by {
          match p { case ORDER => case INVENTORY => case PAYMENT => }
        }
      case Commit(_, p) =>
        if k.txs[p] == Open {
          assert OpenCount(k') < OpenCount(k) by {
            match p { case ORDER => case INVENTORY => case PAYMENT => }
          }
        }
      case CommitFails(_, p) =>
      case CommitApplies(_, p) =>
        assert OpenCount(k') <= OpenCount(k);
      case Rollback(_, p) =>
        assert OpenCount(k') <= OpenCount(k);
        match p { case ORDER => case INVENTORY => case PAYMENT => }
    }
  }

  /** Every effective step other than a new start brings the end nearer, so the coordinators do finish. */
  lemma StepsRunOut(db: Database, steps: seq<Step>, step: Step)
    requires ValidStart(db) && !step.Start?
    ensures var s := Exec(db, steps);
      Apply(s, step) == s || TotalRank(Apply(s, step).coords) < TotalRank(s.coords)
  {
    Reachable(db, steps);
    var s := Exec(db, steps);
    if Apply(s, step) != s {
      assert step.c < |s.coords|;
      assert CoordinatorOk(s.coords[step.c]);
      RankFalls(s, step.c, step);
      hide Apply, Exec, Rank;
      TotalRankUpdate(s.coords, step.c, Apply(s, step).coords[step.c]);
    }
  }

  ghost predicate AllFinished(s: State) {
    forall c :: 0 <= c < |s.coords| ==> s.coords[c].phase.Finished?
  }

  ghost predicate AllWork(steps: seq<Step>) {
    forall i :: 0 <= i < |steps| ==> IsWork(steps[i])
  }

  lemma WorkOnce(db: Database, steps: seq<Step>) returns (step: Step)
    requires ValidStart(db) && !AllFinished(Exec(db, steps))
    ensures IsWork(step) && TotalRank(Exec(db, steps + [step]).coords) < TotalRank(Exec(db, steps).coords)
  {
    var c :| 0 <= c < |Exec(db, steps).coords| && !Exec(db, steps).coords[c].phase.Finished?;
    step := NoDeadlock(db, steps, c);
    StepsRunOut(db, steps, step);
    assert (steps + [step])[..|steps|] == steps;
  }

  /**
   * Every run can be continued, by no more calls than there is work, until every coordinator has finished: with no new
   * start, taking possible steps ends there.
   */
  lemma {:induction false} AllFinish(db: Database, steps: seq<Step>) returns (more: seq<Step>)
    requires ValidStart(db)
    ensures AllWork(more) && |more| <= TotalRank(Exec(db, steps).coords)
    ensures AllFinished(Exec(db, steps + more))
    decreases TotalRank(Exec(db, steps).coords)
  {
    hide Exec, TotalRank, AllFinished;
    if AllFinished(Exec(db, steps)) {
      more := [];
      assert steps + more == steps;
    } else {
      var step := WorkOnce(db, steps);
      var rest := AllFinish(db, steps + [step]);
      more := [step] + rest;
      assert steps + more == (steps + [step]) + rest;
    }
  }
}
