/** The sequential code of one run: saving the plan, choosing the pending chunks, and one worker's processChunk. */
module MigrationManager {
  import opened ChunkPlan
  import opened Upsert
  import opened Migration

  /** Which database calls of one processChunk fail: the status writes, the SELECT, and those of the transaction. */
  datatype Faults = Faults(processing: bool, fetch: bool, calls: set<nat>, commit: bool, final: bool)

  /** What the worker for chunk `id` has done to the tables after `actions`; None if it cannot act like that. */
  ghost function WorkSteps(c: Config, s: State, id: int, w: Worker, actions: seq<Action>): Option<Effect> {
    if actions == [] then Some(Effect(s.target, s.status, w.phase))
    else
      var before := WorkSteps(c, s, id, w, actions[..|actions| - 1]);
      if before.None? then None
      else WorkStep(c, State(before.value.target, before.value.status, s.runs), id, w.(phase := before.value.phase),
                    actions[|actions| - 1])
  }

  ghost predicate SameColumns(t: Table) {
    forall i, j :: i in t && j in t ==> t[i].Keys == t[j].Keys
  }

  ghost function Saved(status: map<int, StatusRow>, chunks: seq<Chunk>, n: nat): map<int, StatusRow>
    requires n <= |chunks|
  {
    if n == 0 then status else InsertPending(Saved(status, chunks, n - 1), chunks[n - 1])
  }

  /** Some element: Go's map iteration promises no order. */
  method Pick<T>(s: set<T>) returns (x: T)
    requires s != {}
    ensures x in s
  {
    x :| x in s;
  }

  class MigrationManager {
    const source: Table
    var target: Table
    var status: map<int, StatusRow>

    constructor (source: Table, target: Table, status: map<int, StatusRow>)
      ensures this.source == source && this.target == target && this.status == status
    {
      this.source, this.target, this.status := source, target, status;
    }

    /** Stops with an error at the insert with index `failAt`, if there is one. */
    method SaveChunkPlan(chunks: seq<Chunk>, failAt: Option<nat>) returns (ok: bool)
      modifies this`status
      ensures ok <==> failAt.None? || failAt.value >= |chunks|
      ensures status == Saved(old(status), chunks, if ok then |chunks| else failAt.value)
      ensures forall id :: id in old(status) ==> id in status && status[id] == old(status)[id]
      ensures ok ==> forall i :: 0 <= i < |chunks| ==> chunks[i].id in status
    {
      for i := 0 to |chunks|
        invariant failAt.Some? ==> failAt.value >= i
        invariant status == Saved(old(status), chunks, i)
        invariant forall id :: id in old(status) ==> id in status && status[id] == old(status)[id]
        invariant forall j :: 0 <= j < i ==> chunks[j].id in status
      {
        if failAt == Some(i) {
          return false;
        }
        if chunks[i].id !in status {
          status := status[chunks[i].id := StatusRow(chunks[i].start, chunks[i].end, PENDING)];
        }
      }
      return true;
    }

    /** loadChunkPlan followed by filterPendingChunks. */
    method PendingChunks() returns (workers: map<int, Worker>)
      ensures workers == PendingWorkers(status)
    {
      workers := map[];
      var left := status.Keys;
      while left != {}
        invariant left <= status.Keys
        invariant workers == map id | id in PendingWorkers(status) && id !in left :: PendingWorkers(status)[id]
      {
        var id := Pick(left);
        left := left - {id};
        if status[id].status != COMPLETED {
          workers := workers[id := Worker(status[id].start, status[id].end, Waiting)];
        }
      }
    }

    method GetChunkData(start: int, end: int) returns (records: seq<Row>)
      requires IsTable(source)
      ensures IsSelection(source, start, end, records)
      ensures forall i :: 0 <= i < |records| ==> HasKey(records[i])
    {
      records := [];
      var id := start;
      while id <= end
        invariant start <= id
        invariant forall i :: 0 <= i < |records| ==> IsNewKey(records, i)
        invariant forall i :: 0 <= i < |records| ==>
          IsSelected(source, start, end, records[i]) && KeyOf(records[i]) < id && HasKey(records[i])
        invariant forall k :: k in source && start <= k < id && k <= end ==> source[k] in records
      {
        if id in source {
          ghost var was := records;
          records := records + [source[id]];
          forall i | 0 <= i < |records| ensures IsNewKey(records, i) {
            if i < |was| { assert IsNewKey(was, i); }
          }
        }
        id := id + 1;
      }
    }

    method UpdateChunkStatus(id: int, start: int, end: int, new_: Status, written: bool)
      modifies this`status
      ensures status == Mark(old(status), id, Worker(start, end, Waiting), new_, written)
    {
      if written {
        if id in status {
          status := status[id := status[id].(status := new_)];
        } else {
          status := status[id := StatusRow(start, end, new_)];
        }
      }
    }

    lemma MarkIs(status: map<int, StatusRow>, id: int, w: Worker, new_: Status, written: bool)
      ensures var status' := Mark(status, id, w, new_, written);
        && (written ==> id in status' && status'[id].status == new_) && (!written ==> status' == status)
        && (forall k :: k != id ==> (k in status' <==> k in status) && (k in status' ==> status'[k] == status[k]))
        && forall p :: Mark(status, id, w.(phase := p), new_, written) == status'
    {
    }

    /**
     * One worker's goroutine, run without interference. Its effect on the two tables is that of a path through the
     * state machine, and it returns nil exactly when its rows were read and stored.
     */
    method ProcessChunk(ghost c: Config, id: int, start: int, end: int, faults: Faults) returns (ok: bool, ghost actions: seq<Action>)
      requires c.Valid() && c.source == source && SameColumns(source) && IsTable(target)
      requires forall i :: i in source ==> |source[i].Keys| <= MAX_BIND_PARAMS
      modifies this
      ensures WorkSteps(c, State(old(target), old(status), map[]), id, Worker(start, end, Waiting), actions)
        == Some(Effect(target, status, Returned(ok)))
      ensures ok ==> Copied(c, target, start, end)
      ensures forall k :: k != id ==>
        (k in status <==> k in old(status)) && (k in status ==> status[k] == old(status)[k])
      ensures !faults.final ==> id in status && status[id].status == if ok then COMPLETED else FAILED
      ensures faults.final && !faults.processing ==> id in status && status[id].status == PROCESSING
      ensures faults.final && faults.processing ==> status == old(status)
      ensures !ok ==> target == old(target)
      ensures !faults.fetch && faults.calls == {} && !faults.commit ==> ok
      ensures faults.fetch ==> !ok
    {
      hide WorkSteps, IsSelection, PutAll, SameColumns, Copied, AreRecords, Mark;
      ghost var s0, w := State(target, status, map[]), Worker(start, end, Waiting);
      actions := [];
      assert WorkSteps(c, s0, id, w, []) == Some(Effect(target, status, Waiting)) by { NoSteps(c, s0, id, w); }
      MarkIs(status, id, w, PROCESSING, !faults.processing);
      UpdateChunkStatus(id, start, end, PROCESSING, !faults.processing);
      actions := Took(c, s0, id, w, actions, MarkProcessing(!faults.processing), s0.target, s0.status, Waiting);
      ok := !faults.fetch;
      if ok {
        var records := GetChunkData(start, end);
        RecordsOf(source, start, end, records);
        actions := Took(c, s0, id, w, actions, Fetch(records), target, status, Started);
        var migrated, target' := MigrateChunkData(target, records, faults.calls, faults.commit);
        actions := Took(c, s0, id, w, actions, if migrated then Migrate else MigrateFails(false), target, status, Fetched(records));
        PutSelection(c, target, start, end, records);
        ok, target := migrated, target';
      } else {
        actions := Took(c, s0, id, w, actions, FetchFails, target, status, Started);
      }
      ghost var before := status;
      MarkIs(status, id, w, if ok then COMPLETED else FAILED, !faults.final);
      UpdateChunkStatus(id, start, end, if ok then COMPLETED else FAILED, !faults.final);
      actions := Took(c, s0, id, w, actions, if ok then MarkCompleted(!faults.final) else MarkFailed(!faults.final),
                      target, before, if ok then Written else Failing);
    }
  }

  /** Appends the action just taken to the path of the worker. */
  lemma Took(c: Config, s: State, id: int, w: Worker, actions: seq<Action>, a: Action,
             target: Table, status: map<int, StatusRow>, phase: Phase) returns (actions': seq<Action>)
    requires WorkSteps(c, s, id, w, actions) == Some(Effect(target, status, phase))
    ensures WorkSteps(c, s, id, w, actions') == WorkStep(c, State(target, status, s.runs), id, w.(phase := phase), a)
  {
    actions' := actions + [a];
    assert actions'[..|actions'| - 1] == actions;
  }

  lemma NoSteps(c: Config, s: State, id: int, w: Worker)
    ensures WorkSteps(c, s, id, w, []) == Some(Effect(s.target, s.status, w.phase))
  {
  }

  lemma RecordsOf(source: Table, start: int, end: int, records: seq<Row>)
    requires IsTable(source) && SameColumns(source) && IsSelection(source, start, end, records)
    ensures AreRecords(records)
    ensures records != [] ==> exists id :: id in source && source[id] == records[0]
  {
    forall i | 0 <= i < |records| ensures HasKey(records[i]) && records[i].Keys == records[0].Keys {
      assert IsSelected(source, start, end, records[i]) && IsSelected(source, start, end, records[0]);
    }
    if records != [] {
      assert IsSelected(source, start, end, records[0]);
      assert KeyOf(records[0]) in source;
    }
  }
}
