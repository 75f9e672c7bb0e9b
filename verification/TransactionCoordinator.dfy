/** executeTwoPhaseCommit and rollbackAll as code: one coordinator at work while all earlier ones have finished. */
module TransactionCoordinator {
  import opened TwoPhaseCommit

  /**
   * The participants whose Prepare, or whose Commit, meets a database error, and those of the latter whose Commit the
   * database carries out nevertheless.
   */
  datatype Faults = Faults(prepare: set<Participant>, commit: set<Participant>, applied: set<Participant>)

  ghost predicate AllPrepare(db: Database, o: Order, faults: Faults, n: nat)
    requires n <= |NAMES|
  {
    forall i :: 0 <= i < n ==> NAMES[i] !in faults.prepare && CanPrepare(db, NAMES[i], o)
  }

  /** No Prepare meets an error, and every participant could commit. */
  ghost predicate MayPrepare(db: Database, c: nat, o: Order, faults: Faults) {
    faults.prepare == {} && forall p :: Fits(db, p, c, o)
  }

  lemma MayPrepareIff(db: Database, c: nat, o: Order, faults: Faults)
    ensures MayPrepare(db, c, o, faults) <==> AllPrepare(db, o, faults, |NAMES|)
  {
    assert NAMES[0] == ORDER && NAMES[1] == INVENTORY && NAMES[2] == PAYMENT;
    if AllPrepare(db, o, faults, |NAMES|) {
      forall p ensures Fits(db, p, c, o) && p !in faults.prepare {
        match p { case ORDER => case INVENTORY => case PAYMENT => }
      }
    }
    if MayPrepare(db, c, o, faults) {
      assert Fits(db, ORDER, c, o) && Fits(db, INVENTORY, c, o) && Fits(db, PAYMENT, c, o);
    }
  }

  /** The map's iteration order: each participant once. */
  ghost predicate IsOrder(order: seq<Participant>) {
    && |order| == |NAMES|
    && (forall p :: p in order)
    && (forall i, j :: 0 <= i < j < |order| ==> order[i] != order[j])
  }

  function Members(order: seq<Participant>, n: nat): set<Participant>
    requires n <= |order|
  {
    set i | 0 <= i < n :: order[i]
  }

  /** The database after the first `n` commits. */
  function Effects(db: Database, order: seq<Participant>, c: nat, o: Order, n: nat): Database
    requires n <= |order|
  {
    if n == 0 then db else Effect(Effects(db, order, c, o, n - 1), order[n - 1], c, o)
  }

  /** The first Commit that meets an error is that of order[n], if n is not the number of all. */
  ghost predicate FailsFirstAt(order: seq<Participant>, faults: Faults, n: nat) {
    && n <= |order| && (forall i :: 0 <= i < n ==> order[i] !in faults.commit)
    && (n < |order| ==> order[n] in faults.commit)
  }

  /** How many effects are durable when the Commit of order[n] was the first to meet an error. */
  function EffectsAfter(order: seq<Participant>, faults: Faults, n: nat): nat
    requires n <= |order|
  {
    if n < |order| && order[n] in faults.applied then n + 1 else n
  }

  /**
   * The commit phase failed at `failed`, which is the first participant of the order whose Commit meets an error, and
   * exactly the effects of those before it, and its own if it was carried out nevertheless, are in `db`.
   */
  ghost predicate StoppedAt(
    s: State, o: Order, order: seq<Participant>, faults: Faults, before: set<Participant>, failed: Participant, db: Database)
  {
    exists n :: 0 <= n < |order| && failed == order[n] && FailsFirstAt(order, faults, n)
      && before == Members(order, n)
      && db == Effects(s.db, order, |s.coords|, o, if failed in faults.applied then n + 1 else n)
  }

  /** The first Commit that meets an error leaves a part of the effects, neither none nor all. */
  ghost predicate BreaksInTheMiddle(order: seq<Participant>, faults: Faults)
    requires IsOrder(order)
  {
    exists n :: 0 <= n < |order| && FailsFirstAt(order, faults, n)
      && if order[n] in faults.applied then n + 1 < |order| else n > 0
  }

  class TransactionCoordinator {
    ghost const start: Database
    ghost var trace: seq<Step>
    var server: State

    ghost predicate Valid()
      reads this
    {
      ValidStart(start) && server == Exec(start, trace)
    }

    constructor (db: Database)
      requires ValidStart(db)
      ensures Valid() && server == State(db, [])
    {
      start, trace, server := db, [], State(db, []);
    }

    /** One call to the database. */
    method Call(step: Step)
      requires Valid()
      modifies this
      ensures Valid() && server == Apply(old(server), step)
    {
      server := Apply(server, step);
      trace := trace + [step];
      assert trace[..|trace| - 1] == old(trace);
    }

    /** Ends every transaction that is not committed; committed ones stay as they are. */
    method RollbackAll(c: nat, outcome: Outcome)
      requires Valid() && c < |server.coords|
      requires server.coords[c].phase == Finished(outcome)
        || (server.coords[c].phase.RollingBack? && server.coords[c].phase.outcome == outcome)
      modifies this
      ensures Valid() && server.db == old(server.db)
      ensures |server.coords| == |old(server.coords)| && server.coords == old(server.coords)[c := server.coords[c]]
      ensures server.coords[c].phase == Finished(outcome) && server.coords[c].order == old(server.coords[c].order)
      ensures server.coords[c].Durable() == old(server.coords[c].Durable())
    {
      while server.coords[c].phase.RollingBack?
        invariant Valid() && server.db == old(server.db)
        invariant |server.coords| == |old(server.coords)| && server.coords == old(server.coords)[c := server.coords[c]]
        invariant server.coords[c].phase == Finished(outcome)
          || (server.coords[c].phase.RollingBack? && server.coords[c].phase.outcome == outcome)
        invariant server.coords[c].order == old(server.coords[c].order)
        invariant server.coords[c].Durable() == old(server.coords[c].Durable())
        decreases Rank(server.coords[c])
      {
        Reachable(start, trace);
        assert CoordinatorOk(server.coords[c]);
        var p :| p in server.coords[c].phase.left;
        ghost var before := server;
        Call(Rollback(c, p));
        assert server != before by {
          assert p !in before.coords[c].phase.left - {p};
          assert server.coords[c].phase != before.coords[c].phase;
        }
        RankFalls(before, c, Rollback(c, p));
        DecisionIsFinal(before, Rollback(c, p), c);
      }
    }

    /** The database and everyone but `c` are as in `before`. */
    ghost predicate OnlyTouched(before: State, c: nat)
      reads this
    {
      && c < |before.coords| == |server.coords| && server.coords == before.coords[c := server.coords[c]]
      && server.db == before.db && server.coords[c].order == before.coords[c].order
    }

    ghost predicate IsAlone(c: nat)
      reads this
    {
      c < |server.coords| && forall d :: 0 <= d < |server.coords| && d != c ==> server.coords[d].phase.Finished?
    }

    lemma AloneRowsFree(c: nat, p: Participant)
      requires Valid() && IsAlone(c)
      ensures RowIsFree(server.coords, c, p)
    {
      Reachable(start, trace);
      forall d | 0 <= d < |server.coords| && d != c ensures !server.coords[d].Holds(p) {
        assert CoordinatorOk(server.coords[d]);
      }
    }

    /** Phase 1; on failure everything prepared so far is rolled back. */
    method PreparePhase(c: nat, faults: Faults) returns (ok: bool)
      requires Valid() && IsAlone(c) && server.coords[c].phase == Preparing(0) && server.coords[c].txs == map[]
      modifies this
      ensures Valid() && OnlyTouched(old(server), c)
      ensures ok <==> AllPrepare(server.db, server.coords[c].order, faults, |NAMES|)
      ensures server.coords[c].phase == if ok then Committing else Finished(PrepareFailure)
      ensures ok ==> forall p :: server.coords[c].Holds(p)
    {
      for i := 0 to |NAMES|
        invariant Valid() && OnlyTouched(old(server), c) && IsAlone(c)
        invariant server.coords[c].phase == if i == |NAMES| then Committing else Preparing(i)
        invariant AllPrepare(server.db, server.coords[c].order, faults, i)
        invariant forall j :: 0 <= j < i ==> server.coords[c].Holds(NAMES[j])
      {
        var k := server.coords[c];
        if NAMES[i] in faults.prepare {
          Call(PrepareFails(c));
        } else {
          AloneRowsFree(c, NAMES[i]);
          Call(Prepare(c));
        }
        if server.coords[c].phase.RollingBack? || server.coords[c].phase.Finished? {
          RollbackAll(c, PrepareFailure);
          return false;
        }
      }
      forall p ensures server.coords[c].Holds(p) {
        assert NAMES[0] == ORDER && NAMES[1] == INVENTORY && NAMES[2] == PAYMENT;
        match p { case ORDER => case INVENTORY => case PAYMENT => }
      }
      return true;
    }

    /** What a finished coordinator has left durable is what its outcome says. */
    lemma FinishedOk(c: nat)
      requires Valid() && c < |server.coords| && server.coords[c].phase.Finished?
      ensures OutcomeOk(server.coords[c], server.coords[c].phase.outcome)
    {
      Reachable(start, trace);
      assert CoordinatorOk(server.coords[c]);
    }

    /** Phase 2, in the given order; a failure rolls back what is left, which does not undo what is committed. */
    method CommitPhase(c: nat, order: seq<Participant>, faults: Faults) returns (committed: nat)
      requires Valid() && c < |server.coords| && server.coords[c].phase == Committing && IsOrder(order)
      requires forall p :: server.coords[c].Holds(p)
      modifies this
      ensures Valid() && c < |server.coords| == |old(server.coords)|
      ensures server.coords == old(server.coords)[c := server.coords[c]]
      ensures FailsFirstAt(order, faults, committed)
      ensures server.db == Effects(old(server.db), order, c, old(server.coords[c].order), EffectsAfter(order, faults, committed))
      ensures server.coords[c].Durable() == Members(order, EffectsAfter(order, faults, committed))
      ensures server.coords[c].phase == Finished(
        if committed == |NAMES| then Success else CommitFailure(Members(order, committed), order[committed]))
    {
      hide CanPrepare, Effect, BreaksInTheMiddle, Rank, Decision, OutcomeOk;
      ghost var o := server.coords[c].order;
      for i := 0 to |NAMES|
        invariant Valid() && c < |server.coords| == |old(server.coords)|
        invariant server.coords == old(server.coords)[c := server.coords[c]] && server.coords[c].order == o
        invariant server.db == Effects(old(server.db), order, c, o, i)
        invariant forall j :: 0 <= j < i ==> order[j] !in faults.commit
        invariant server.coords[c].phase == if i == |NAMES| then Finished(Success) else Committing
        invariant forall j :: 0 <= j < i ==> order[j] in server.coords[c].txs && server.coords[c].txs[order[j]] == Committed
        invariant forall j :: i <= j < |NAMES| ==> server.coords[c].Holds(order[j])
      {
        if order[i] in faults.commit {
          DurableIsMembers(server.coords[c], order, i);
          if order[i] in faults.applied {
            AppliedMoves(server.coords[c], order, i);
            Call(CommitApplies(c, order[i]));
          } else {
            Call(CommitFails(c, order[i]));
          }
          RollbackAll(c, CommitFailure(Members(order, i), order[i]));
          return i;
        }
        CommitMoves(server.coords[c], order, i);
        Call(Commit(c, order[i]));
      }
      AllMembers(server.coords[c], order);
      return |NAMES|;
    }

    /**
     * A whole transaction with nobody else at work. It succeeds exactly when every participant could commit and no call
     * fails, and then all three effects are in the database; otherwise what is there is what was committed before the first
     * Commit that failed, and its own effect if that was carried out nevertheless.
     */
    method Execute(o: Order, order: seq<Participant>, faults: Faults) returns (outcome: Outcome)
      requires Valid() && IsOrder(order)
      requires forall d :: 0 <= d < |server.coords| ==> server.coords[d].phase.Finished?
      modifies this
      ensures Valid() && |server.coords| == |old(server.coords)| + 1 && old(server.coords) <= server.coords
      ensures server.coords[|old(server.coords)|].phase == Finished(outcome)
      ensures outcome == PrepareFailure <==> !MayPrepare(old(server.db), |old(server.coords)|, o, faults)
      ensures outcome == Success <==>
        (MayPrepare(old(server.db), |old(server.coords)|, o, faults) && forall i :: 0 <= i < |NAMES| ==> order[i] !in faults.commit)
      ensures match outcome
        case PrepareFailure => server.db == old(server.db)
        case Success => server.db == Effects(old(server.db), order, |old(server.coords)|, o, |NAMES|)
        case CommitFailure(before, failed) => StoppedAt(old(server), o, order, faults, before, failed, server.db)
      ensures AllOrNothing(server.coords[|old(server.coords)|]) <==>
        !(MayPrepare(old(server.db), |old(server.coords)|, o, faults) && BreaksInTheMiddle(order, faults))
    {
      hide MayPrepare, Fits, CanPrepare;
      var c := |server.coords|;
      MayPrepareIff(server.db, c, o, faults);
      Call(Start(o));
      var ok := PreparePhase(c, faults);
      if !ok {
        FinishedOk(c);
        return PrepareFailure;
      }
      var n := CommitPhase(c, order, faults);
      FinishedOk(c);
      MiddleIff(order, faults, n);
      outcome := if n == |NAMES| then Success else CommitFailure(Members(order, n), order[n]);
    }
  }

  lemma MembersIs(order: seq<Participant>, n: nat)
    requires IsOrder(order) && n <= |order|
    ensures (Members(order, n) == {} <==> n == 0) && (Members(order, n) == {ORDER, INVENTORY, PAYMENT} <==> n == |order|)
  {
    if n > 0 { assert order[0] in Members(order, n); }
    if n < |order| {
      assert order[n] !in Members(order, n);
      match order[n] { case ORDER => case INVENTORY => case PAYMENT => }
    } else {
      forall p ensures p in Members(order, n) && p in {ORDER, INVENTORY, PAYMENT} {
        assert p in order;
        var i :| 0 <= i < |order| && order[i] == p;
        match p { case ORDER => case INVENTORY => case PAYMENT => }
      }
    }
  }

  lemma MiddleIff(order: seq<Participant>, faults: Faults, n: nat)
    requires IsOrder(order) && FailsFirstAt(order, faults, n)
    ensures var m := EffectsAfter(order, faults, n);
      BreaksInTheMiddle(order, faults) <==> (Members(order, m) != {} && Members(order, m) != {ORDER, INVENTORY, PAYMENT})
  {
    MembersIs(order, EffectsAfter(order, faults, n));
    if k :| 0 <= k < |order| && FailsFirstAt(order, faults, k) && if order[k] in faults.applied then k + 1 < |order| else k > 0 {
      assert k == n;
    }
  }

  lemma AllMembers(k: Coordinator, order: seq<Participant>)
    requires IsOrder(order) && forall j :: 0 <= j < |order| ==> order[j] in k.txs && k.txs[order[j]] == Committed
    ensures k.Durable() == Members(order, |order|)
  {
    forall p ensures p in k.Durable() && p in Members(order, |order|) {
      assert p in order;
      var i :| 0 <= i < |order| && order[i] == p;
    }
  }

  lemma AppliedMoves(k: Coordinator, order: seq<Participant>, i: nat)
    requires IsOrder(order) && i < |order| && k.phase == Committing && k.Holds(order[i])
    requires k.Durable() == Members(order, i)
    ensures AppliedOne(k, order[i]).Durable() == Members(order, i + 1)
    ensures AppliedOne(k, order[i]).phase.RollingBack?
    ensures AppliedOne(k, order[i]).phase.outcome == CommitFailure(Members(order, i), order[i])
  {
    var k' := k.(txs := k.txs[order[i] := Committed]);
    assert order[i] in k'.txs.Keys;
    assert k'.Durable() == k.Durable() + {order[i]};
    assert Members(order, i + 1) == Members(order, i) + {order[i]};
  }

  lemma DurableIsMembers(k: Coordinator, order: seq<Participant>, i: nat)
    requires IsOrder(order) && i < |order|
    requires forall j :: 0 <= j < i ==> order[j] in k.txs && k.txs[order[j]] == Committed
    requires forall j :: i <= j < |order| ==> k.Holds(order[j])
    ensures k.Durable() == Members(order, i) && k.txs.Keys != {}
  {
    forall p | p in k.Durable() ensures p in Members(order, i) {
      assert p in order;
      var j :| 0 <= j < |order| && order[j] == p;
      assert j < i;
    }
    assert order[i] in k.txs;
  }

  lemma CommitMoves(k: Coordinator, order: seq<Participant>, i: nat)
    requires IsOrder(order) && i < |order| && k.phase == Committing
    requires forall j :: 0 <= j < i ==> order[j] in k.txs && k.txs[order[j]] == Committed
    requires forall j :: i <= j < |order| ==> k.Holds(order[j])
    ensures CommittedOne(k, order[i]).phase == if i + 1 == |order| then Finished(Success) else Committing
  {
    var txs := k.txs[order[i] := Committed];
    if i + 1 == |order| {
      forall q | q in txs ensures txs[q] == Committed {
        assert q in order;
        var j :| 0 <= j < |order| && order[j] == q;
      }
    } else {
      assert k.Holds(order[i + 1]) && txs[order[i + 1]] == Open;
    }
  }
}
