/**
 * The resumable bulk migration as a state machine: a persistent status table, any number of runs (one after another
 * or at the same time), one worker per pending chunk, database calls that fail, and crashes. The source table and the
 * configuration do not change. One step is one database call.
 */
module Migration {
  import opened ChunkPlan
  import opened Upsert

  datatype Status = PENDING | PROCESSING | COMPLETED | FAILED

  /** A row of migration_chunks; its key is the chunk id. */
  datatype StatusRow = StatusRow(start: int, end: int, status: Status)

  /** How far processChunk has come. */
  datatype Phase =
    | Waiting
    | Started
    | Fetched(records: seq<Row>)
    | Written
    | Failing
    | Returned(ok: bool)

  datatype Worker = Worker(start: int, end: int, phase: Phase)

  datatype Run =
    | Saving(saved: nat)
    | Executing(workers: map<int, Worker>)
    | Ended(ok: bool)

  datatype State = State(target: Table, status: map<int, StatusRow>, runs: map<nat, Run>)

  /** `written` and `applied` say whether the database took the write although the caller may have seen an error. */
  datatype Action =
    | MarkProcessing(written: bool)
    | Fetch(records: seq<Row>)
    | FetchFails
    | Migrate
    | MigrateFails(applied: bool)
    | MarkCompleted(written: bool)
    | MarkFailed(written: bool)

  datatype Step =
    | StartRun(run: nat)
    | SaveChunk(run: nat, written: bool, ok: bool)
    | LoadPlan(run: nat, ok: bool)
    | Work(run: nat, chunk: int, action: Action)
    | FinishRun(run: nat)
    | Crash(run: nat)

  datatype Config = Config(source: Table, initial: Table, plan: seq<Chunk>, minID: int, maxID: int) {
    /** The plan is what CreateChunkPlan returns for the source's id range. */
    ghost predicate Valid() {
      && IsTable(source) && IsTable(initial)
      && (if source == map[] then plan == []
          else ExactCover(plan, minID, maxID) && forall id :: id in source ==> minID <= id <= maxID)
    }
  }

  /** The rows that SELECT ... WHERE id >= start AND id <= end ORDER BY id returns. */
  ghost predicate IsSelection(source: Table, start: int, end: int, records: seq<Row>) {
    && (forall i :: 0 <= i < |records| ==> IsNewKey(records, i))
    && (forall i :: 0 <= i < |records| ==> IsSelected(source, start, end, records[i]))
    && (forall id :: id in source && start <= id <= end ==> source[id] in records)
  }

  ghost predicate IsSelected(source: Table, start: int, end: int, row: Row) {
    KeyOf(row) in source && source[KeyOf(row)] == row && start <= KeyOf(row) <= end
  }

  // ---------- Steps ----------

  function Mark(status: map<int, StatusRow>, id: int, w: Worker, new_: Status, written: bool): map<int, StatusRow> {
    if !written then status
    else if id in status then status[id := status[id].(status := new_)]
    else status[id := StatusRow(w.start, w.end, new_)]
  }

  datatype Effect = Effect(target: Table, status: map<int, StatusRow>, phase: Phase)

  /** One database call of processChunk; None when the worker is not at that call. */
  ghost function WorkStep(c: Config, s: State, id: int, w: Worker, a: Action): Option<Effect> {
    match a
    case MarkProcessing(written) =>
      if w.phase.Waiting? then Some(Effect(s.target, Mark(s.status, id, w, PROCESSING, written), Started)) else None
    case Fetch(records) =>
      if w.phase.Started? && IsSelection(c.source, w.start, w.end, records)
      then Some(Effect(s.target, s.status, Fetched(records))) else None
    case FetchFails =>
      if w.phase.Started? then Some(Effect(s.target, s.status, Failing)) else None
    case Migrate =>
      if w.phase.Fetched?
      then Some(Effect(PutAll(s.target, w.phase.records, |w.phase.records|), s.status, Written)) else None
    case MigrateFails(applied) =>
      if w.phase.Fetched?
      then Some(Effect(if applied then PutAll(s.target, w.phase.records, |w.phase.records|) else s.target, s.status, Failing))
      else None
    case MarkCompleted(written) =>
      if w.phase.Written? then Some(Effect(s.target, Mark(s.status, id, w, COMPLETED, written), Returned(true))) else None
    case MarkFailed(written) =>
      if w.phase.Failing? then Some(Effect(s.target, Mark(s.status, id, w, FAILED, written), Returned(false))) else None
  }

  function InsertPending(status: map<int, StatusRow>, c: Chunk): map<int, StatusRow> {
    if c.id in status then status else status[c.id := StatusRow(c.start, c.end, PENDING)]
  }

  /** filterPendingChunks: one waiting worker per chunk that is not COMPLETED. */
  function PendingWorkers(status: map<int, StatusRow>): map<int, Worker> {
    map id | id in status && status[id].status != COMPLETED :: Worker(status[id].start, status[id].end, Waiting)
  }

  predicate AllReturned(workers: map<int, Worker>) {
    forall id :: id in workers ==> workers[id].phase.Returned?
  }

  predicate AllOk(workers: map<int, Worker>) {
    forall id :: id in workers ==> workers[id].phase == Returned(true)
  }

  function SetRun(s: State, r: nat, run: Run): State {
    s.(runs := s.runs[r := run])
  }

  /** The state after `step`; a step that cannot happen in `s` changes nothing. */
  ghost function Apply(c: Config, s: State, step: Step): State {
    match step
    case StartRun(r) =>
      if r in s.runs then s else SetRun(s, r, Saving(0))
    case SaveChunk(r, written, ok) =>
      if r in s.runs && s.runs[r].Saving? && s.runs[r].saved < |c.plan| && (ok ==> written) then
        var chunk := c.plan[s.runs[r].saved];
        SetRun(s.(status := if written then InsertPending(s.status, chunk) else s.status), r,
               if ok then Saving(s.runs[r].saved + 1) else Ended(false))
      else s
    case LoadPlan(r, ok) =>
      if r in s.runs && s.runs[r] == Saving(|c.plan|) then
        SetRun(s, r, if ok then Executing(PendingWorkers(s.status)) else Ended(false))
      else s
    case Work(r, id, a) =>
      if r in s.runs && s.runs[r].Executing? && id in s.runs[r].workers then
        var w := s.runs[r].workers[id];
        var e := WorkStep(c, s, id, w, a);
        if e.None? then s
        else SetRun(State(e.value.target, e.value.status, s.runs), r,
                    Executing(s.runs[r].workers[id := w.(phase := e.value.phase)]))
      else s
    case FinishRun(r) =>
      if r in s.runs && s.runs[r].Executing? && AllReturned(s.runs[r].workers) then
        SetRun(s, r, Ended(AllOk(s.runs[r].workers)))
      else s
    case Crash(r) =>
      if r in s.runs && !s.runs[r].Ended? then SetRun(s, r, Ended(false)) else s
  }

  function Init(c: Config): State {
    State(c.initial, map[], map[])
  }

  ghost function Exec(c: Config, steps: seq<Step>): State {
    if steps == [] then Init(c) else Apply(c, Exec(c, steps[..|steps| - 1]), steps[|steps| - 1])
  }

  // ---------- The invariant ----------

  /** All source rows of the id range are in the target with equal values. */
  ghost predicate Copied(c: Config, target: Table, start: int, end: int) {
    forall id :: id in c.source && start <= id <= end ==> Holds(target, id, c.source[id])
  }

  ghost predicate ChunkCopied(c: Config, target: Table, k: int) {
    0 <= k < |c.plan| && Copied(c, target, c.plan[k].start, c.plan[k].end)
  }

  ghost predicate OnPlan(c: Config, k: int, start: int, end: int) {
    0 <= k < |c.plan| && c.plan[k].start == start && c.plan[k].end == end
  }

  ghost predicate StatusOk(c: Config, target: Table, k: int, row: StatusRow) {
    OnPlan(c, k, row.start, row.end) && (row.status == COMPLETED ==> ChunkCopied(c, target, k))
  }

  ghost predicate WorkerOk(c: Config, target: Table, k: int, w: Worker) {
    && OnPlan(c, k, w.start, w.end)
    && (w.phase.Fetched? ==> IsSelection(c.source, w.start, w.end, w.phase.records))
    && (w.phase == Written || w.phase == Returned(true) ==> ChunkCopied(c, target, k))
  }

  ghost predicate RunOk(c: Config, s: State, run: Run) {
    match run
    case Saving(n) => n <= |c.plan| && forall k :: 0 <= k < n ==> k in s.status
    case Executing(workers) =>
      && (forall k :: k in workers ==> WorkerOk(c, s.target, k, workers[k]))
      && (forall k :: 0 <= k < |c.plan| ==> k in workers || ChunkCopied(c, s.target, k))
    case Ended(ok) => ok ==> forall k :: 0 <= k < |c.plan| ==> ChunkCopied(c, s.target, k)
  }

  /** Rows whose id the source does not have are as they were. */
  ghost predicate ElsewhereUnchanged(c: Config, target: Table) {
    forall id :: id !in c.source ==> (id in target <==> id in c.initial) && (id in target ==> target[id] == c.initial[id])
  }

  ghost predicate Inv(c: Config, s: State) {
    && (forall k :: k in s.status ==> StatusOk(c, s.target, k, s.status[k]))
    && (forall r :: r in s.runs ==> RunOk(c, s, s.runs[r]))
    && ElsewhereUnchanged(c, s.target)
  }

  // ---------- Writing rows of the source keeps every promise already made ----------

  lemma PutSelection(c: Config, target: Table, start: int, end: int, records: seq<Row>)
    requires IsTable(c.source) && IsSelection(c.source, start, end, records)
    ensures var target' := PutAll(target, records, |records|);
      && Copied(c, target', start, end)
      && (forall id :: id in c.source && Holds(target, id, c.source[id]) ==> Holds(target', id, c.source[id]))
      && (ElsewhereUnchanged(c, target) ==> ElsewhereUnchanged(c, target'))
  {
    var target' := PutAll(target, records, |records|);
    forall i | 0 <= i < |records| ensures Holds(target', KeyOf(records[i]), records[i]) {
      PutAllHolds(target, records, |records|, i);
    }
    forall id | forall j :: 0 <= j < |records| ==> KeyOf(records[j]) != id
      ensures (id in target' <==> id in target) && (id in target ==> target'[id] == target[id])
    {
      PutAllElsewhere(target, records, |records|, id);
    }
    hide PutAll;
    forall id | id in c.source && start <= id <= end ensures Holds(target', id, c.source[id]) {
      var i :| 0 <= i < |records| && records[i] == c.source[id];
    }
    forall id | id in c.source && Holds(target, id, c.source[id]) ensures Holds(target', id, c.source[id]) {
      if i :| 0 <= i < |records| && KeyOf(records[i]) == id {
        assert IsSelected(c.source, start, end, records[i]);
      }
    }
    if ElsewhereUnchanged(c, target) {
      forall id | id !in c.source
        ensures (id in target' <==> id in target) && (id in target ==> target'[id] == target[id])
      {
        forall j | 0 <= j < |records| ensures KeyOf(records[j]) != id {
          assert IsSelected(c.source, start, end, records[j]);
        }
      }
    }
  }

  /** `target'` keeps every source row that `target` has. */
  ghost predicate Grows(c: Config, target: Table, target': Table) {
    forall id :: id in c.source && Holds(target, id, c.source[id]) ==> Holds(target', id, c.source[id])
  }

  lemma GrowsKeeps(c: Config, s: State, target': Table)
    requires Inv(c, s) && Grows(c, s.target, target') && ElsewhereUnchanged(c, target')
    ensures Inv(c, s.(target := target'))
  {
    hide Holds, ElsewhereUnchanged;
    forall k | ChunkCopied(c, s.target, k) ensures ChunkCopied(c, target', k) {
    }
    hide ChunkCopied;
    forall k | k in s.status ensures StatusOk(c, target', k, s.status[k]) {
      assert StatusOk(c, s.target, k, s.status[k]);
    }
    forall r | r in s.runs ensures RunOk(c, s.(target := target'), s.runs[r]) {
      assert RunOk(c, s, s.runs[r]);
      match s.runs[r] {
        case Saving(_) =>
        case Executing(workers) =>
          forall k | k in workers ensures WorkerOk(c, target', k, workers[k]) {
            assert WorkerOk(c, s.target, k, workers[k]);
          }
        case Ended(_) =>
      }
    }
  }

  lemma StatusKeeps(c: Config, s: State, status': map<int, StatusRow>)
    requires Inv(c, s) && s.status.Keys <= status'.Keys
    requires forall k :: k in status' ==> StatusOk(c, s.target, k, status'[k])
    ensures Inv(c, s.(status := status'))
  {
    forall r | r in s.runs ensures RunOk(c, s.(status := status'), s.runs[r]) {
      assert RunOk(c, s, s.runs[r]);
    }
  }

  /** A worker's call keeps the invariant for everyone else and leaves the worker itself in order. */
  lemma WorkKeeps(c: Config, s: State, id: int, w: Worker, a: Action)
    requires c.Valid() && Inv(c, s) && WorkerOk(c, s.target, id, w)
    requires WorkStep(c, s, id, w, a).Some?
    ensures var e := WorkStep(c, s, id, w, a).value;
      && Inv(c, State(e.target, e.status, s.runs))
      && Grows(c, s.target, e.target)
      && WorkerOk(c, e.target, id, w.(phase := e.phase))
  {
    var e := WorkStep(c, s, id, w, a).value;
    var s' := State(e.target, e.status, s.runs);
    hide Inv, IsTable, ElsewhereUnchanged, Copied, IsSelection;
    match a {
      case Migrate => MigrateKeeps(c, s, w);
      case MigrateFails(applied) => if applied { MigrateKeeps(c, s, w); }
      case _ =>
    }
    assert s' == s.(target := e.target) || s' == s.(status := e.status);
  }

  lemma MigrateKeeps(c: Config, s: State, w: Worker)
    requires c.Valid() && Inv(c, s) && w.phase.Fetched? && IsSelection(c.source, w.start, w.end, w.phase.records)
    ensures var target' := PutAll(s.target, w.phase.records, |w.phase.records|);
      && Inv(c, s.(target := target'))
      && Grows(c, s.target, target')
      && Copied(c, target', w.start, w.end)
  {
    var records := w.phase.records;
    PutSelection(c, s.target, w.start, w.end, records);
    GrowsKeeps(c, s, PutAll(s.target, records, |records|));
  }

  lemma WorkerGrows(c: Config, target: Table, target': Table, k: int, w: Worker)
    requires WorkerOk(c, target, k, w) && Grows(c, target, target')
    ensures WorkerOk(c, target', k, w)
  {
    hide Holds;
  }

  lemma ChunkGrows(c: Config, target: Table, target': Table, k: int)
    requires ChunkCopied(c, target, k) && Grows(c, target, target')
    ensures ChunkCopied(c, target', k)
  {
    hide Holds;
  }

  lemma WorkInv(c: Config, s: State, r: nat, id: int, a: Action)
    requires c.Valid() && Inv(c, s)
    ensures Inv(c, Apply(c, s, Work(r, id, a)))
  {
    if r in s.runs && s.runs[r].Executing? && id in s.runs[r].workers {
      var workers := s.runs[r].workers;
      var w := workers[id];
      var e := WorkStep(c, s, id, w, a);
      if e.Some? {
        assert RunOk(c, s, s.runs[r]);
        WorkKeeps(c, s, id, w, a);
        hide WorkStep, Grows, WorkerOk, ChunkCopied, Inv;
        var s1 := State(e.value.target, e.value.status, s.runs);
        var workers' := workers[id := w.(phase := e.value.phase)];
        forall k | k in workers' ensures WorkerOk(c, s1.target, k, workers'[k]) {
          if k != id { WorkerGrows(c, s.target, s1.target, k, workers[k]); }
        }
        forall k | 0 <= k < |c.plan| ensures k in workers' || ChunkCopied(c, s1.target, k) {
          if k !in workers { ChunkGrows(c, s.target, s1.target, k); }
        }
      }
    }
  }

  lemma LoadInv(c: Config, s: State, r: nat, ok: bool)
    requires c.Valid() && Inv(c, s)
    ensures Inv(c, Apply(c, s, LoadPlan(r, ok)))
  {
    if r in s.runs && s.runs[r] == Saving(|c.plan|) {
      assert RunOk(c, s, s.runs[r]);
      var workers := PendingWorkers(s.status);
      hide ChunkCopied, ElsewhereUnchanged;
      forall k | k in workers ensures WorkerOk(c, s.target, k, workers[k]) {
        assert StatusOk(c, s.target, k, s.status[k]);
      }
      forall k | 0 <= k < |c.plan| ensures k in workers || ChunkCopied(c, s.target, k) {
        assert StatusOk(c, s.target, k, s.status[k]);
      }
    }
  }

  lemma SaveInv(c: Config, s: State, r: nat, written: bool, ok: bool)
    requires c.Valid() && Inv(c, s)
    ensures Inv(c, Apply(c, s, SaveChunk(r, written, ok)))
  {
    if r in s.runs && s.runs[r].Saving? && s.runs[r].saved < |c.plan| && (ok ==> written) {
      var n := s.runs[r].saved;
      assert RunOk(c, s, s.runs[r]);
      assert c.plan[n].id == n;
      var status' := if written then InsertPending(s.status, c.plan[n]) else s.status;
      hide ChunkCopied, ElsewhereUnchanged;
      forall k | k in status' ensures StatusOk(c, s.target, k, status'[k]) {
        if k in s.status { assert StatusOk(c, s.target, k, s.status[k]); }
      }
      StatusKeeps(c, s, status');
    }
  }

  lemma FinishInv(c: Config, s: State, r: nat)
    requires c.Valid() && Inv(c, s)
    ensures Inv(c, Apply(c, s, FinishRun(r)))
  {
    if r in s.runs && s.runs[r].Executing? && AllReturned(s.runs[r].workers) {
      var workers := s.runs[r].workers;
      assert RunOk(c, s, s.runs[r]);
      hide ChunkCopied, ElsewhereUnchanged;
      if AllOk(workers) {
        forall k | 0 <= k < |c.plan| ensures ChunkCopied(c, s.target, k) {
          if k in workers { assert WorkerOk(c, s.target, k, workers[k]); }
        }
      }
    }
  }

  lemma StepInv(c: Config, s: State, step: Step)
    requires c.Valid() && Inv(c, s)
    ensures Inv(c, Apply(c, s, step))
  {
    hide ElsewhereUnchanged, StatusOk;
    match step {
      case StartRun(r) =>
      case SaveChunk(r, written, ok) => SaveInv(c, s, r, written, ok);
      case LoadPlan(r, ok) => LoadInv(c, s, r, ok);
      case Work(r, id, a) => WorkInv(c, s, r, id, a);
      case FinishRun(r) => FinishInv(c, s, r);
      case Crash(r) =>
    }
  }

  lemma {:induction false} Reachable(c: Config, steps: seq<Step>)
    requires c.Valid()
    ensures Inv(c, Exec(c, steps))
  {
    if steps != [] {
      Reachable(c, steps[..|steps| - 1]);
      StepInv(c, Exec(c, steps[..|steps| - 1]), steps[|steps| - 1]);
    }
  }

  // ---------- What the migration promises ----------

  /**
   * In every reachable state, a chunk whose status row says COMPLETED has all its source rows in the target with equal
   * values, and the row carries that chunk's id range.
   */
  lemma CompletedIsCopied(c: Config, steps: seq<Step>, k: int, id: int)
    requires c.Valid()
    ensures var s := Exec(c, steps);
      k in s.status ==> 0 <= k < |c.plan| && s.status[k].start == c.plan[k].start && s.status[k].end == c.plan[k].end
    ensures var s := Exec(c, steps);
      (k in s.status && s.status[k].status == COMPLETED && id in c.source && c.plan[k].Has(id)) ==>
        Holds(s.target, id, c.source[id])
  {
    hide Exec;
    Reachable(c, steps);
    var s := Exec(c, steps);
    if k in s.status { assert StatusOk(c, s.target, k, s.status[k]); }
  }

  /** Once some run has returned nil, the target agrees with the source on every id, in all later states too. */
  lemma NilMeansAgreement(c: Config, steps: seq<Step>, r: nat, id: int)
    requires c.Valid() && id in c.source
    ensures var s := Exec(c, steps);
      r in s.runs && s.runs[r] == Ended(true) ==> Holds(s.target, id, c.source[id])
  {
    hide Exec;
    Reachable(c, steps);
    var s := Exec(c, steps);
    if r in s.runs && s.runs[r] == Ended(true) {
      assert RunOk(c, s, s.runs[r]);
      CoverIsPartition(c.plan, c.minID, c.maxID, id);
      var k :| 0 <= k < |c.plan| && c.plan[k].Has(id);
      assert ChunkCopied(c, s.target, k);
    }
  }

  /** Target rows with ids that the source does not have are never touched. */
  lemma OtherRowsUntouched(c: Config, steps: seq<Step>, id: int)
    requires c.Valid() && id !in c.source
    ensures var s := Exec(c, steps);
      (id in s.target <==> id in c.initial) && (id in s.target ==> s.target[id] == c.initial[id])
  {
    hide Exec;
    Reachable(c, steps);
  }

  // ---------- A rerun finishes what is left, and only that ----------

  // ---------- What each database call does ----------

  /**
   * What the other calls of a run do, in every run of the system: it begins once, saves its plan row by row without
   * rewriting a row, goes on with the chunks that are not COMPLETED, and ends when all its workers have returned, with nil
   * if and only if all have returned nil. A run that has ended stays as it is.
   */
  lemma RunLeadsTo(c: Config, s: State, r: nat, step: Step)
    requires r in s.runs && !step.Work? && step.run == r
    ensures var s', run := Apply(c, s, step), s.runs[r];
      && r in s'.runs && s'.target == s.target
      && (run.Ended? || step.StartRun? ==> s' == s)
      && (step.Crash? && !run.Ended? ==> s'.runs[r] == Ended(false) && s'.status == s.status)
      && (step.FinishRun? && run.Executing? ==>
            && s'.status == s.status
            && (s'.runs[r].Ended? <==> forall id :: id in run.workers ==> run.workers[id].phase.Returned?)
            && (s'.runs[r] == Ended(true) <==> forall id :: id in run.workers ==> run.workers[id].phase == Returned(true)))
      && (step.LoadPlan? && run == Saving(|c.plan|) ==>
            && s'.status == s.status
            && (!step.ok ==> s'.runs[r] == Ended(false))
            && (step.ok ==> s'.runs[r].Executing? && forall id :: id in s'.runs[r].workers <==>
                  id in s.status && s.status[id].status != COMPLETED))
      && (step.SaveChunk? && run.Saving? && run.saved < |c.plan| && (step.ok ==> step.written) ==>
            && s'.runs[r] == (if step.ok then Saving(run.saved + 1) else Ended(false))
            && (forall id :: id in s.status ==> id in s'.status && s'.status[id] == s.status[id])
            && (forall id :: id in s'.status && id !in s.status ==> step.written && id == c.plan[run.saved].id)
            && (step.written ==> c.plan[run.saved].id in s'.status))
  {
    hide IsSelection, WorkStep;
  }

  lemma BeginsOnce(c: Config, s: State, r: nat)
    ensures r !in s.runs ==> Apply(c, s, StartRun(r)) == s.(runs := s.runs[r := Saving(0)])
  {
  }

  /** The call belongs to the place in processChunk at which the worker is. */
  ghost predicate IsAt(c: Config, w: Worker, a: Action) {
    match a
    case MarkProcessing(_) => w.phase == Waiting
    case Fetch(records) => w.phase == Started && IsSelection(c.source, w.start, w.end, records)
    case FetchFails => w.phase == Started
    case Migrate => w.phase.Fetched?
    case MigrateFails(_) => w.phase.Fetched?
    case MarkCompleted(_) => w.phase == Written
    case MarkFailed(_) => w.phase == Failing
  }

  /** The status that the call writes, if it reaches the database. */
  function StatusOf(a: Action): Option<Status> {
    match a
    case MarkProcessing(written) => if written then Some(PROCESSING) else None
    case MarkCompleted(written) => if written then Some(COMPLETED) else None
    case MarkFailed(written) => if written then Some(FAILED) else None
    case _ => None
  }

  /**
   * A database call of a worker happens where its code is, writes no status but its chunk's, and changes the target only
   * when the rows are migrated.
   */
  lemma WorkLeadsTo(c: Config, s: State, r: nat, workers: map<int, Worker>, id: int, a: Action)
    requires Runs(s, r, workers) && id in workers
    ensures var s' := Apply(c, s, Work(r, id, a));
      var w := workers[id];
      && (!IsAt(c, w, a) ==> s' == s)
      && (IsAt(c, w, a) ==>
            && Runs(s', r, workers[id := w.(phase :=
                 match a
                 case MarkProcessing(_) => Started
                 case Fetch(records) => Fetched(records)
                 case FetchFails => Failing
                 case Migrate => Written
                 case MigrateFails(_) => Failing
                 case MarkCompleted(_) => Returned(true)
                 case MarkFailed(_) => Returned(false))])
            && (StatusOf(a).None? ==> s'.status == s.status)
            && (StatusOf(a).Some? ==> id in s'.status && s'.status[id].status == StatusOf(a).value)
            && (forall k :: k != id ==> (k in s'.status <==> k in s.status) && (k in s.status ==> s'.status[k] == s.status[k]))
            && (a != Migrate && a != MigrateFails(true) ==> s'.target == s.target))
  {
    hide IsSelection, PutAll;
  }

  /** In every run, when the rows of a chunk are migrated, all source rows of its id range are in the target. */
  lemma MigrateLeadsTo(c: Config, steps: seq<Step>, r: nat, workers: map<int, Worker>, id: int, a: Action)
    requires c.Valid() && Runs(Exec(c, steps), r, workers) && id in workers && workers[id].phase.Fetched?
    requires a == Migrate || a == MigrateFails(true)
    ensures Copied(c, Exec(c, steps + [Work(r, id, a)]).target, workers[id].start, workers[id].end)
  {
    Do(c, steps, Work(r, id, a));
    Reachable(c, steps);
    var s, w := Exec(c, steps), workers[id];
    assert RunOk(c, s, s.runs[r]) && WorkerOk(c, s.target, id, w);
    hide Exec, IsSelection, Inv, Copied, PutAll;
    PutSelection(c, s.target, w.start, w.end, w.phase.records);
  }

  lemma Do(c: Config, steps: seq<Step>, step: Step)
    ensures Exec(c, steps + [step]) == Apply(c, Exec(c, steps), step)
  {
    assert (steps + [step])[..|steps + [step]| - 1] == steps;
  }

  ghost predicate IsCompleted(s: State, k: int) {
    k in s.status && s.status[k].status == COMPLETED
  }

  /** `steps'` continues `steps` without working on a chunk that is COMPLETED in `s`. */
  ghost predicate SkipsCompleted(s: State, steps: seq<Step>, steps': seq<Step>) {
    && steps <= steps'
    && forall i :: |steps| <= i < |steps'| && steps'[i].Work? ==> !IsCompleted(s, steps'[i].chunk)
  }

  ghost predicate KeepsCompleted(s: State, s': State) {
    forall k :: IsCompleted(s, k) ==> IsCompleted(s', k)
  }

  lemma {:induction false} SaveRest(c: Config, steps: seq<Step>, r: nat, s0: State) returns (steps': seq<Step>)
    requires var s := Exec(c, steps); r in s.runs && s.runs[r].Saving? && s.runs[r].saved <= |c.plan|
    requires KeepsCompleted(s0, Exec(c, steps))
    ensures var s' := Exec(c, steps'); r in s'.runs && s'.runs[r] == Saving(|c.plan|)
    ensures SkipsCompleted(s0, steps, steps') && KeepsCompleted(s0, Exec(c, steps'))
    decreases |c.plan| - Exec(c, steps).runs[r].saved
  {
    if Exec(c, steps).runs[r].saved == |c.plan| {
      steps' := steps;
    } else {
      var next := SaveChunk(r, true, true);
      Do(c, steps, next);
      assert KeepsCompleted(s0, Exec(c, steps + [next]));
      hide Exec, Apply, KeepsCompleted;
      steps' := SaveRest(c, steps + [next], r, s0);
    }
  }

  ghost function SourceIds(c: Config, start: int, end: int): set<int> {
    set id | id in c.source && start <= id <= end
  }

  /** A selection exists for every id range. */
  lemma {:induction false} SelectionOf(c: Config, start: int, end: int, ids: set<int>) returns (records: seq<Row>)
    requires IsTable(c.source) && ids <= SourceIds(c, start, end)
    ensures forall i :: 0 <= i < |records| ==> IsNewKey(records, i)
    ensures forall i :: 0 <= i < |records| ==> IsSelected(c.source, start, end, records[i]) && KeyOf(records[i]) in ids
    ensures forall id :: id in ids ==> c.source[id] in records
    decreases ids
  {
    if ids == {} {
      records := [];
    } else {
      var id :| id in ids;
      var rest := SelectionOf(c, start, end, ids - {id});
      records := rest + [c.source[id]];
      forall i | 0 <= i < |records| ensures IsNewKey(records, i) {
        if i < |rest| { assert IsNewKey(rest, i); }
      }
    }
  }

  /** Run `r` is executing `workers`. */
  ghost predicate Runs(s: State, r: nat, workers: map<int, Worker>) {
    r in s.runs && s.runs[r] == Executing(workers)
  }

  /** Where a call takes the worker; it does not depend on the rest of the state. */
  ghost function PhaseAfter(c: Config, w: Worker, a: Action): Option<Phase> {
    var e := WorkStep(c, Init(c), 0, w, a);
    if e.None? then None else Some(e.value.phase)
  }

  function Moved(workers: map<int, Worker>, id: int, p: Phase): map<int, Worker>
    requires id in workers
  {
    workers[id := workers[id].(phase := p)]
  }

  lemma WorkDo(c: Config, steps: seq<Step>, r: nat, workers: map<int, Worker>, id: int, p: Phase, a: Action)
    returns (steps': seq<Step>, p': Phase)
    requires id in workers && Runs(Exec(c, steps), r, Moved(workers, id, p))
    requires PhaseAfter(c, workers[id].(phase := p), a).Some?
    ensures Some(p') == PhaseAfter(c, workers[id].(phase := p), a)
    ensures steps' == steps + [Work(r, id, a)] && Runs(Exec(c, steps'), r, Moved(workers, id, p'))
    ensures KeepsOthers(Exec(c, steps), Exec(c, steps'), id)
  {
    hide KeepsOthers;
    OthersStay(c, steps, r, id, a);
    Do(c, steps, Work(r, id, a));
    hide IsSelection;
    steps' := steps + [Work(r, id, a)];
    p' := WorkStep(c, Exec(c, steps), id, workers[id].(phase := p), a).value.phase;
    assert Moved(workers, id, p)[id := workers[id].(phase := p')] == Moved(workers, id, p');
  }

  /** What is COMPLETED stays so, but for this chunk. */
  ghost predicate KeepsOthers(s: State, s': State, id: int) {
    forall k :: k != id && IsCompleted(s, k) ==> IsCompleted(s', k)
  }

  lemma KeepsOthersTwice(s: State, t: State, r: State, id: int)
    requires KeepsOthers(s, t, id) && KeepsOthers(t, r, id)
    ensures KeepsOthers(s, r, id)
  {
  }

  /** The work on a chunk writes no other chunk's status. */
  lemma OthersStay(c: Config, steps: seq<Step>, r: nat, id: int, a: Action)
    ensures KeepsOthers(Exec(c, steps), Exec(c, steps + [Work(r, id, a)]), id)
  {
    Do(c, steps, Work(r, id, a));
    hide Exec, IsSelection;
  }

  /** One more call after those since `start`. */
  lemma WorkOn(c: Config, start: seq<Step>, steps: seq<Step>, r: nat, workers: map<int, Worker>, id: int, p: Phase, a: Action)
    returns (steps': seq<Step>, p': Phase)
    requires id in workers && Runs(Exec(c, steps), r, Moved(workers, id, p))
    requires PhaseAfter(c, workers[id].(phase := p), a).Some?
    requires KeepsOthers(Exec(c, start), Exec(c, steps), id)
    ensures Some(p') == PhaseAfter(c, workers[id].(phase := p), a)
    ensures steps' == steps + [Work(r, id, a)] && Runs(Exec(c, steps'), r, Moved(workers, id, p'))
    ensures KeepsOthers(Exec(c, start), Exec(c, steps'), id)
  {
    hide *;
    steps', p' := WorkDo(c, steps, r, workers, id, p, a);
    KeepsOthersTwice(Exec(c, start), Exec(c, steps), Exec(c, steps'), id);
  }

  lemma CompletedAtTheEnd(c: Config, steps: seq<Step>, r: nat, workers: map<int, Worker>, id: int)
    requires id in workers && Runs(Exec(c, steps), r, Moved(workers, id, Written))
    ensures IsCompleted(Exec(c, steps + [Work(r, id, MarkCompleted(true))]), id)
  {
    Do(c, steps, Work(r, id, MarkCompleted(true)));
    hide Exec;
  }

  /** The calls of a worker when none of them fails. */
  lemma NextPhases(c: Config, w: Worker, records: seq<Row>)
    requires IsSelection(c.source, w.start, w.end, records)
    ensures PhaseAfter(c, w.(phase := Waiting), MarkProcessing(true)) == Some(Started)
    ensures PhaseAfter(c, w.(phase := Started), Fetch(records)) == Some(Fetched(records))
    ensures PhaseAfter(c, w.(phase := Fetched(records)), Migrate) == Some(Written)
    ensures PhaseAfter(c, w.(phase := Written), MarkCompleted(true)) == Some(Returned(true))
  {
    hide IsSelection, Mark, PutAll;
  }

  lemma WorkOne(c: Config, steps: seq<Step>, r: nat, workers: map<int, Worker>, id: int) returns (steps': seq<Step>)
    requires c.Valid()
    requires Runs(Exec(c, steps), r, workers) && id in workers && workers[id].phase == Waiting
    ensures Runs(Exec(c, steps'), r, Moved(workers, id, Returned(true)))
    ensures |steps'| == |steps| + 4 && steps <= steps'
    ensures forall i :: |steps| <= i < |steps'| ==> steps'[i].Work? && steps'[i].chunk == id
    ensures IsCompleted(Exec(c, steps'), id)
    ensures KeepsOthers(Exec(c, steps), Exec(c, steps'), id)
  {
    hide *;
    var w := workers[id];
    var records := SomeSelection(c, w.start, w.end);
    WaitingIs(workers, id);
    NextPhases(c, w, records);
    var p;
    steps', p := WorkDo(c, steps, r, workers, id, Waiting, MarkProcessing(true));
    steps', p := WorkOn(c, steps, steps', r, workers, id, p, Fetch(records));
    steps', p := WorkOn(c, steps, steps', r, workers, id, p, Migrate);
    CompletedAtTheEnd(c, steps', r, workers, id);
    steps', p := WorkOn(c, steps, steps', r, workers, id, p, MarkCompleted(true));
  }

  lemma SomeSelection(c: Config, start: int, end: int) returns (records: seq<Row>)
    requires c.Valid()
    ensures IsSelection(c.source, start, end, records)
  {
    records := SelectionOf(c, start, end, SourceIds(c, start, end));
  }

  lemma WaitingIs(workers: map<int, Worker>, id: int)
    requires id in workers && workers[id].phase == Waiting
    ensures Moved(workers, id, Waiting) == workers && workers[id].(phase := Waiting) == workers[id]
  {
  }

  /** The workers in `left` wait, all others have succeeded, and none is for a chunk that is COMPLETED in `s0`. */
  ghost predicate IsLeft(s0: State, workers: map<int, Worker>, left: set<int>) {
    && left <= workers.Keys
    && forall id :: id in workers ==>
         workers[id].phase == (if id in left then Waiting else Returned(true)) && !IsCompleted(s0, id)
  }

  lemma {:induction false} WorkRest(c: Config, steps: seq<Step>, r: nat, workers: map<int, Worker>, s0: State, left: set<int>)
    returns (steps': seq<Step>, workers': map<int, Worker>)
    requires c.Valid() && Runs(Exec(c, steps), r, workers) && IsLeft(s0, workers, left)
    ensures Runs(Exec(c, steps'), r, workers') && AllOk(workers')
    ensures SkipsCompleted(s0, steps, steps')
    ensures forall k :: k in left || IsCompleted(Exec(c, steps), k) ==> IsCompleted(Exec(c, steps'), k)
    decreases left
  {
    if id :| id in left {
      hide Exec, Runs, IsCompleted;
      var next := WorkOne(c, steps, r, workers, id);
      steps', workers' := WorkRest(c, next, r, Moved(workers, id, Returned(true)), s0, left - {id});
    } else {
      steps', workers' := steps, workers;
    }
  }

  /** A fresh run saves the whole plan and loads it back. */
  lemma StartAndLoad(c: Config, steps: seq<Step>, r: nat) returns (steps': seq<Step>, workers: map<int, Worker>)
    requires r !in Exec(c, steps).runs
    requires c.Valid()
    ensures Runs(Exec(c, steps'), r, workers) && IsLeft(Exec(c, steps), workers, workers.Keys)
    ensures SkipsCompleted(Exec(c, steps), steps, steps')
    ensures forall k :: 0 <= k < |c.plan| ==> k in workers || IsCompleted(Exec(c, steps'), k)
  {
    var s0 := Exec(c, steps);
    Do(c, steps, StartRun(r));
    var saved := SaveRest(c, steps + [StartRun(r)], r, s0);
    var s1 := Exec(c, saved);
    Do(c, saved, LoadPlan(r, true));
    Reachable(c, saved);
    assert RunOk(c, s1, s1.runs[r]);
    hide Exec, Apply, Inv;
    steps', workers := saved + [LoadPlan(r, true)], PendingWorkers(s1.status);
    forall id | id in workers ensures !IsCompleted(s0, id) {
      assert !IsCompleted(s1, id);
    }
  }

  lemma Finished(c: Config, s: State, r: nat, workers: map<int, Worker>)
    requires Runs(s, r, workers) && AllOk(workers)
    ensures var s' := Apply(c, s, FinishRun(r));
      r in s'.runs && s'.runs[r] == Ended(true) && forall k :: IsCompleted(s, k) ==> IsCompleted(s', k)
  {
  }

  /**
   * From every reachable state, a new run on which no call fails returns nil and leaves every chunk of the plan COMPLETED,
   * and it works only on chunks that were not COMPLETED before it.
   */
  lemma RerunCompletes(c: Config, steps: seq<Step>, r: nat) returns (steps': seq<Step>)
    requires c.Valid() && r !in Exec(c, steps).runs
    ensures SkipsCompleted(Exec(c, steps), steps, steps')
    ensures var s := Exec(c, steps'); r in s.runs && s.runs[r] == Ended(true)
    ensures forall k :: 0 <= k < |c.plan| ==> IsCompleted(Exec(c, steps'), k)
  {
    var loaded, workers := StartAndLoad(c, steps, r);
    hide Exec, Runs, IsLeft, Apply, IsCompleted;
    var worked, workers' := WorkRest(c, loaded, r, workers, Exec(c, steps), workers.Keys);
    Do(c, worked, FinishRun(r));
    Finished(c, Exec(c, worked), r, workers');
    steps' := worked + [FinishRun(r)];
  }
}
