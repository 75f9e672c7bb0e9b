/** Copying rows with multi-row INSERT ... ON CONFLICT statements under a limit on bind parameters. */
module Upsert {

  const MAX_BIND_PARAMS: nat := 65535

  datatype Value = Null | Int(i: int) | Text(s: string)
  /** A column name; `Id` is the column "id" that the conflict clause names. */
  datatype Column = Id | Named(name: string)
  type Row = map<Column, Value>
  type Table = map<int, Row>

  datatype Option<T> = None | Some(value: T)

  predicate HasKey(row: Row) {
    Id in row && row[Id].Int?
  }

  function KeyOf(row: Row): int {
    if HasKey(row) then row[Id].i else 0
  }

  ghost predicate IsTable(t: Table) {
    forall id :: id in t ==> HasKey(t[id]) && KeyOf(t[id]) == id
  }

  /** No earlier record has the key of record `i`. */
  ghost predicate IsNewKey(records: seq<Row>, i: nat)
    requires i < |records|
  {
    forall j :: 0 <= j < i ==> KeyOf(records[j]) != KeyOf(records[i])
  }

  /** All rows have a key and the same columns, and no key occurs twice: what SELECT * returns. */
  ghost predicate AreRecords(records: seq<Row>) {
    && (forall i :: 0 <= i < |records| ==> HasKey(records[i]) && records[i].Keys == records[0].Keys)
    && (forall i :: 0 <= i < |records| ==> IsNewKey(records, i))
  }

  // ---------- What upserting means ----------

  function Put(t: Table, row: Row): Table {
    t[KeyOf(row) := (if KeyOf(row) in t then t[KeyOf(row)] else map[]) + row]
  }

  /** The table after upserting the first `n` records, in order. */
  ghost function PutAll(t: Table, records: seq<Row>, n: nat): Table
    requires n <= |records|
  {
    if n == 0 then t else Put(PutAll(t, records, n - 1), records[n - 1])
  }

  // ---------- Statements ----------

  datatype OnConflict = DoNothing | DoUpdate(columns: seq<Column>)

  /** INSERT INTO target (columns) VALUES rows ON CONFLICT (id) onConflict; a placeholder $n is the number n. */
  datatype Statement = Statement(columns: seq<Column>, rows: seq<seq<nat>>, onConflict: OnConflict, args: seq<Value>) {

    predicate Parses() {
      && (forall i, j :: 0 <= i < j < |columns| ==> columns[i] != columns[j])
      && (forall r :: 0 <= r < |rows| ==> |rows[r]| == |columns|)
      && (forall r, c :: 0 <= r < |rows| && 0 <= c < |columns| ==> 1 <= rows[r][c] <= |args|)
      && (onConflict.DoUpdate? ==> onConflict.columns != [])
      && |rows| > 0
    }

    /** The row that the r-th parenthesised list of placeholders stands for. */
    function Excluded(r: nat): Row
      requires Parses() && r < |rows|
    {
      map c | 0 <= c < |columns| :: columns[c] := args[rows[r][c] - 1]
    }

    /** The server takes the statement: it parses, has few enough parameters, and touches no key twice. */
    predicate Accepted() {
      && Parses()
      && |args| <= MAX_BIND_PARAMS
      && (forall r :: 0 <= r < |rows| ==> HasKey(Excluded(r)))
      && (forall r, s :: 0 <= r < s < |rows| ==> KeyOf(Excluded(r)) != KeyOf(Excluded(s)))
    }

    function InsertRow(t: Table, row: Row): Table {
      if KeyOf(row) !in t then t[KeyOf(row) := row]
      else match onConflict
        case DoNothing => t
        case DoUpdate(updates) => t[KeyOf(row) := t[KeyOf(row)] + (map col | col in row && col in updates :: row[col])]
    }

    function InsertRows(t: Table, n: nat): Table
      requires Accepted() && n <= |rows|
    {
      if n == 0 then t else InsertRow(InsertRows(t, n - 1), Excluded(n - 1))
    }

    function Execute(t: Table): Option<Table> {
      if Accepted() then Some(InsertRows(t, |rows|)) else None
    }
  }

  /** What the server refuses: too many parameters, a row without a key, and two rows with the same one. */
  lemma RefusedIf(st: Statement, t: Table)
    requires st.Parses()
    ensures st.Execute(t).None? <==>
      || |st.args| > MAX_BIND_PARAMS
      || (exists r :: 0 <= r < |st.rows| && !HasKey(st.Excluded(r)))
      || (exists r, s :: 0 <= r < s < |st.rows| && KeyOf(st.Excluded(r)) == KeyOf(st.Excluded(s)))
  {
  }

  /** How many arguments the first `r` rows take. */
  ghost function Offset(r: nat, width: nat): nat {
    if r == 0 then 0 else Offset(r - 1, width) + width
  }

  lemma {:induction false} OffsetIsProduct(r: nat, width: nat)
    ensures Offset(r, width) == r * width
  {
    if r > 0 {
      OffsetIsProduct(r - 1, width);
      assert (r - 1) * width + width == r * width;
    }
  }

  /** The placeholders of one row are numbered on from `base` and name the record's values in column order. */
  ghost predicate RowOf(row: seq<nat>, args: seq<Value>, columns: seq<Column>, record: Row, base: nat) {
    && |row| == |columns|
    && forall c :: 0 <= c < |columns| ==>
         row[c] == base + c + 1 <= |args| && args[row[c] - 1] == Lookup(record, columns[c])
  }

  /** The argument list runs through the records row by row, and the placeholders name it in that order. */
  ghost predicate RowsOf(rows: seq<seq<nat>>, args: seq<Value>, columns: seq<Column>, records: seq<Row>) {
    && |rows| == |records| && |args| == Offset(|records|, |columns|)
    && forall r :: 0 <= r < |records| ==> RowOf(rows[r], args, columns, records[r], Offset(r, |columns|))
  }

  ghost predicate IsUpsertOf(st: Statement, columns: seq<Column>, records: seq<Row>) {
    && st.columns == columns
    && RowsOf(st.rows, st.args, columns, records)
    && UpdatesRest(st.onConflict, columns)
  }

  /** On a conflict every column but the key is overwritten; with no such column there must be no SET clause. */
  ghost predicate UpdatesRest(onConflict: OnConflict, columns: seq<Column>) {
    match onConflict
    case DoNothing => forall c :: 0 <= c < |columns| ==> columns[c] == Id
    case DoUpdate(updates) => updates != [] && forall col :: col in updates <==> col in columns && col != Id
  }

  /** Go's map read: the zero value when the column is missing. */
  function Lookup(row: Row, col: Column): Value {
    if col in row then row[col] else Null
  }

  ghost predicate IsColumnOrder(columns: seq<Column>, row: Row) {
    && (forall i, j :: 0 <= i < j < |columns| ==> columns[i] != columns[j])
    && (forall col :: col in columns <==> col in row)
  }

  method BuildRow(columns: seq<Column>, record: Row, args: seq<Value>) returns (placeholders: seq<nat>, args': seq<Value>)
    ensures args <= args' && |args'| == |args| + |columns|
    ensures RowOf(placeholders, args', columns, record, |args|)
  {
    placeholders, args' := [], args;
    for c := 0 to |columns|
      invariant |placeholders| == c && args <= args' && |args'| == |args| + c
      invariant RowOf(placeholders, args', columns[..c], record, |args|)
    {
      ghost var was := args';
      args' := args' + [Lookup(record, columns[c])];
      placeholders := placeholders + [|args'|];
    }
    assert columns[..|columns|] == columns;
  }

  method UpdatedColumns(columns: seq<Column>) returns (updates: seq<Column>)
    ensures forall col :: col in updates <==> col in columns && col != Id
  {
    updates := [];
    for i := 0 to |columns|
      invariant forall col :: col in updates <==> col in columns[..i] && col != Id
    {
      if columns[i] != Id {
        updates := updates + [columns[i]];
      }
    }
    assert columns[..|columns|] == columns;
  }

  method BuildRows(columns: seq<Column>, records: seq<Row>) returns (rows: seq<seq<nat>>, args: seq<Value>)
    ensures RowsOf(rows, args, columns, records)
  {
    rows, args := [], [];
    for r := 0 to |records|
      invariant RowsOf(rows, args, columns, records[..r])
    {
      var placeholders, args' := BuildRow(columns, records[r], args);
      assert records[..r + 1] == records[..r] + [records[r]];
      rows, args := rows + [placeholders], args';
    }
    assert records[..|records|] == records;
  }

  method BuildUpsert(columns: seq<Column>, records: seq<Row>) returns (st: Statement)
    ensures IsUpsertOf(st, columns, records)
  {
    var updates := UpdatedColumns(columns);
    var rows, args := BuildRows(columns, records);
    var onConflict := DoNothing;
    if |updates| > 0 {
      onConflict := DoUpdate(updates);
    } else {
      forall c | 0 <= c < |columns| ensures columns[c] == Id {
        assert columns[c] in columns;
      }
    }
    st := Statement(columns, rows, onConflict, args);
  }

  // ---------- Running the statement is upserting each record ----------

  lemma ExcludedAt(st: Statement, record: Row, r: nat, base: nat, c: nat)
    requires st.Parses() && r < |st.rows| && c < |st.columns|
    requires RowOf(st.rows[r], st.args, st.columns, record, base)
    ensures st.columns[c] in st.Excluded(r) && st.Excluded(r)[st.columns[c]] == Lookup(record, st.columns[c])
  {
    assert st.args[st.rows[r][c] - 1] == Lookup(record, st.columns[c]);
  }

  lemma ExcludedIsRecord(st: Statement, record: Row, r: nat, base: nat)
    requires st.Parses() && r < |st.rows|
    requires RowOf(st.rows[r], st.args, st.columns, record, base)
    requires IsColumnOrder(st.columns, record)
    ensures st.Excluded(r) == record
  {
    hide RowOf;
    var row := st.Excluded(r);
    forall col | col in record ensures col in row && row[col] == record[col] {
      assert col in st.columns;
      var c :| 0 <= c < |st.columns| && st.columns[c] == col;
      ExcludedAt(st, record, r, base, c);
    }
  }

  lemma UpsertParses(st: Statement, columns: seq<Column>, records: seq<Row>)
    requires records != [] && IsColumnOrder(columns, records[0])
    requires IsUpsertOf(st, columns, records)
    ensures st.Parses()
  {
    forall r, c | 0 <= r < |st.rows| && 0 <= c < |columns| ensures 1 <= st.rows[r][c] <= |st.args| {
      assert RowOf(st.rows[r], st.args, columns, records[r], Offset(r, |columns|));
    }
  }

  lemma UpsertIsAccepted(st: Statement, columns: seq<Column>, records: seq<Row>)
    requires records != [] && AreRecords(records) && IsColumnOrder(columns, records[0])
    requires IsUpsertOf(st, columns, records) && |st.args| <= MAX_BIND_PARAMS
    ensures st.Accepted()
    ensures forall r :: 0 <= r < |records| ==> st.Excluded(r) == records[r]
  {
    UpsertParses(st, columns, records);
    forall r: nat | r < |records| ensures st.Excluded(r) == records[r] {
      ExcludedIsRecord(st, records[r], r, Offset(r, |columns|));
    }
    forall r, s | 0 <= r < s < |records| ensures KeyOf(st.Excluded(r)) != KeyOf(st.Excluded(s)) {
      assert IsNewKey(records, s);
    }
  }

  lemma InsertIsPut(st: Statement, columns: seq<Column>, t: Table, row: Row)
    requires UpdatesRest(st.onConflict, columns) && IsColumnOrder(columns, row)
    requires IsTable(t) && HasKey(row)
    ensures st.InsertRow(t, row) == Put(t, row)
    ensures IsTable(Put(t, row))
  {
    var id := KeyOf(row);
    if id in t {
      if st.onConflict.DoNothing? {
        assert forall col | col in row :: col == Id;
        assert t[id] + row == t[id];
        assert t[id := t[id]] == t;
      } else {
        var updates := st.onConflict.columns;
        assert t[id] + (map col | col in row && col in updates :: row[col]) == t[id] + row;
      }
    } else {
      assert map[] + row == row;
    }
  }

  lemma {:induction false} InsertRowsIsPutAll(st: Statement, columns: seq<Column>, records: seq<Row>, t: Table, n: nat)
    requires st.Accepted() && |st.rows| == |records| && UpdatesRest(st.onConflict, columns) && IsTable(t)
    requires forall r :: 0 <= r < |records| ==>
      HasKey(records[r]) && IsColumnOrder(columns, records[r]) && st.Excluded(r) == records[r]
    requires n <= |records|
    ensures st.InsertRows(t, n) == PutAll(t, records, n)
    ensures IsTable(PutAll(t, records, n))
  {
    hide Put, IsTable, IsColumnOrder, UpdatesRest, HasKey, Statement.InsertRow, Statement.Excluded;
    if n > 0 {
      InsertRowsIsPutAll(st, columns, records, t, n - 1);
      InsertIsPut(st, columns, PutAll(t, records, n - 1), records[n - 1]);
    }
  }

  /** The server accepts the statement for a batch within the limit, and it upserts every record once, in order. */
  lemma StatementUpsertsRecords(st: Statement, columns: seq<Column>, records: seq<Row>, t: Table)
    requires records != [] && AreRecords(records) && IsColumnOrder(columns, records[0]) && IsTable(t)
    requires IsUpsertOf(st, columns, records) && |st.args| <= MAX_BIND_PARAMS
    ensures st.Execute(t) == Some(PutAll(t, records, |records|)) && IsTable(PutAll(t, records, |records|))
  {
    UpsertIsAccepted(st, columns, records);
    forall r | 0 <= r < |records| ensures IsColumnOrder(columns, records[r]) {
      assert records[r].Keys == records[0].Keys;
    }
    InsertRowsIsPutAll(st, columns, records, t, |records|);
  }

  // ---------- What upserting leaves behind ----------

  lemma PutNone(t: Table, records: seq<Row>)
    ensures PutAll(t, records, 0) == t
  {
  }

  /** Upserting a prefix and then a batch that starts where it ends is upserting the longer prefix. */
  lemma {:induction false} PutBatch(t: Table, records: seq<Row>, i: nat, batch: seq<Row>, n: nat)
    requires i + |batch| <= |records| && n <= |batch|
    requires forall k :: 0 <= k < |batch| ==> batch[k] == records[i + k]
    ensures PutAll(t, records, i + n) == PutAll(PutAll(t, records, i), batch, n)
  {
    hide Put;
    if n > 0 {
      PutBatch(t, records, i, batch, n - 1);
      assert batch[n - 1] == records[i + n - 1];
    }
  }

  /** Row `id` of `t` carries all of `row`'s values. */
  ghost predicate Holds(t: Table, id: int, row: Row) {
    id in t && forall col :: col in row ==> col in t[id] && t[id][col] == row[col]
  }

  /** Rows whose key is not among the records are untouched. */
  lemma {:induction false} PutAllElsewhere(t: Table, records: seq<Row>, n: nat, id: int)
    requires n <= |records| && forall j :: 0 <= j < n ==> KeyOf(records[j]) != id
    ensures id in PutAll(t, records, n) <==> id in t
    ensures id in t ==> PutAll(t, records, n)[id] == t[id]
  {
    if n > 0 {
      PutAllElsewhere(t, records, n - 1, id);
    }
  }

  /** Every record is in the table afterwards with equal values. */
  lemma {:induction false} PutAllHolds(t: Table, records: seq<Row>, n: nat, i: nat)
    requires i < n <= |records|
    requires forall j :: 0 <= j < |records| ==> IsNewKey(records, j)
    ensures Holds(PutAll(t, records, n), KeyOf(records[i]), records[i])
  {
    if i < n - 1 {
      assert IsNewKey(records, n - 1);
      PutAllHolds(t, records, n - 1, i);
    }
  }

  // ---------- migrateChunkData ----------

  lemma BatchFits(rows: nat, width: nat)
    requires 0 < width <= MAX_BIND_PARAMS && rows <= MAX_BIND_PARAMS / width
    ensures Offset(rows, width) <= MAX_BIND_PARAMS
  {
    OffsetIsProduct(rows, width);
    assert MAX_BIND_PARAMS / width * width <= MAX_BIND_PARAMS;
    assert (MAX_BIND_PARAMS / width - rows) * width >= 0;
  }

  /** Rows per statement; at least one, since a row has no more columns than a statement may have parameters. */
  method BatchSize(width: nat) returns (size: nat)
    requires 0 < width <= MAX_BIND_PARAMS
    ensures size > 0 && forall rows: nat :: rows <= size ==> Offset(rows, width) <= MAX_BIND_PARAMS
  {
    size := MAX_BIND_PARAMS / width;
    forall rows: nat | rows <= size ensures Offset(rows, width) <= MAX_BIND_PARAMS {
      BatchFits(rows, width);
    }
  }

  /** Any duplicate-free order of the columns of `row`, fixed before the statement and its arguments are built. */
  method ColumnsOf(row: Row) returns (columns: seq<Column>)
    ensures IsColumnOrder(columns, row) && |columns| == |row.Keys|
  {
    columns := [];
    var left := row.Keys;
    while left != {}
      invariant forall i, j :: 0 <= i < j < |columns| ==> columns[i] != columns[j]
      invariant forall col :: col in columns <==> col in row && col !in left
      invariant left <= row.Keys && |columns| + |left| == |row.Keys|
    {
      var col :| col in left;
      columns := columns + [col];
      left := left - {col};
    }
  }

  /** One round of the batch loop: build the statement and execute it, unless the call fails. */
  method RunBatch(tx: Table, columns: seq<Column>, batch: seq<Row>, fails: bool) returns (result: Option<Table>)
    requires batch != [] && AreRecords(batch) && IsColumnOrder(columns, batch[0]) && IsTable(tx)
    requires Offset(|batch|, |columns|) <= MAX_BIND_PARAMS
    ensures result == if fails then None else Some(PutAll(tx, batch, |batch|))
    ensures IsTable(PutAll(tx, batch, |batch|))
  {
    var st := BuildUpsert(columns, batch);
    StatementUpsertsRecords(st, columns, batch, tx);
    result := if fails then None else st.Execute(tx);
  }

  /** slices.Chunk: the records from `i` on, at most `size` of them. */
  method NextBatch(columns: seq<Column>, records: seq<Row>, i: nat, size: nat) returns (batch: seq<Row>)
    requires AreRecords(records) && i < |records| && 0 < size && IsColumnOrder(columns, records[0])
    requires forall rows: nat :: rows <= size ==> Offset(rows, |columns|) <= MAX_BIND_PARAMS
    ensures 0 < |batch| <= size && i + |batch| <= |records|
    ensures |batch| == size || i + |batch| == |records|
    ensures forall k :: 0 <= k < |batch| ==> batch[k] == records[i + k]
    ensures Offset(|batch|, |columns|) <= MAX_BIND_PARAMS
    ensures AreRecords(batch) && IsColumnOrder(columns, batch[0])
  {
    var next := if i + size < |records| then i + size else |records|;
    batch := records[i..next];
    assert batch[0] == records[i];
    forall k | 0 <= k < |batch| ensures HasKey(batch[k]) && batch[k].Keys == batch[0].Keys {
      assert batch[k] == records[i + k];
    }
    forall k | 0 <= k < |batch| ensures IsNewKey(batch, k) {
      assert IsNewKey(records, i + k);
    }
  }

  /** The batch loop inside the transaction; gives up at the first call that fails. */
  method RunBatches(target: Table, columns: seq<Column>, records: seq<Row>, size: nat, fails: set<nat>)
    returns (result: Option<Table>)
    requires records != [] && AreRecords(records) && IsTable(target) && IsColumnOrder(columns, records[0])
    requires size > 0 && forall rows: nat :: rows <= size ==> Offset(rows, |columns|) <= MAX_BIND_PARAMS
    ensures result.Some? ==> result.value == PutAll(target, records, |records|)
    ensures fails == {} ==> result.Some?
  {
    PutNone(target, records);
    hide *;
    var tx, i, call := target, 0, 1;
    while i < |records|
      invariant 0 <= i <= |records|
      invariant tx == PutAll(target, records, i) && IsTable(tx)
      decreases |records| - i
    {
      var batch := NextBatch(columns, records, i, size);
      PutBatch(target, records, i, batch, |batch|);
      var executed := RunBatch(tx, columns, batch, call in fails);
      if executed.None? {
        return None;
      }
      tx, i, call := executed.value, i + |batch|, call + 1;
    }
    result := Some(tx);
  }

  /**
   * Copies `records` into `target` in one transaction. The calls to the database whose numbers are in `fails` fail;
   * call 0 begins the transaction, and `commitFails` is the last one.
   */
  method MigrateChunkData(target: Table, records: seq<Row>, fails: set<nat>, commitFails: bool)
    returns (ok: bool, target': Table)
    requires AreRecords(records) && IsTable(target)
    requires records != [] ==> |records[0].Keys| <= MAX_BIND_PARAMS
    ensures target' == if ok then PutAll(target, records, |records|) else target
    ensures fails == {} && !commitFails ==> ok
    ensures ok && records != [] ==> 0 !in fails && !commitFails
  {
    if records == [] {
      return true, target;
    }
    if 0 in fails {
      return false, target;
    }
    var columns := ColumnsOf(records[0]);
    assert Id in columns;
    var size := BatchSize(|columns|);
    var tx := RunBatches(target, columns, records, size, fails);
    if tx.None? || commitFails {
      return false, target;
    }
    return true, tx.value;
  }
}
