/** Chunked, deduplicated upsert, and why it is the plain row-by-row upsert. */
module Ingestion {
  import opened Prelude

  datatype Value = NullValue | Number(n: int) | Text(s: string)

  type Row = map<string, Value>

  type Key = seq<Value>

  type Table = map<Key, Row>

  type RawRow = map<string, string>

  // How one source row becomes one table row, or fails to.
  datatype Spec = Spec(parse: RawRow -> Option<Row>, conflict: seq<string>, columns: set<string>)

  // Every parsed row has the same columns, and the conflict columns are among them.
  ghost predicate Uniform(spec: Spec) {
    && (forall raw :: spec.parse(raw).Some? ==> spec.parse(raw).value.Keys == spec.columns)
    && (forall c :: c in spec.conflict ==> c in spec.columns)
  }

  predicate AllHave(rows: seq<Row>, columns: set<string>) {
    forall i :: 0 <= i < |rows| ==> rows[i].Keys == columns
  }

  function KeyOf(row: Row, conflict: seq<string>): Key {
    seq(|conflict|, i requires 0 <= i < |conflict| => if conflict[i] in row then row[conflict[i]] else NullValue)
  }

  /* ---- Row by row ---- */

  // On conflict, only the columns of the payload that are not conflict columns are written.
  function Merge(prior: Row, row: Row, conflict: seq<string>): Row {
    prior + map c | c in row && c !in conflict :: row[c]
  }

  function Applied(table: Table, row: Row, conflict: seq<string>): Row {
    var k := KeyOf(row, conflict);
    if k in table then Merge(table[k], row, conflict) else row
  }

  function Upsert(table: Table, row: Row, conflict: seq<string>): Table {
    table[KeyOf(row, conflict) := Applied(table, row, conflict)]
  }

  function UpsertEach(table: Table, rows: seq<Row>, conflict: seq<string>): Table {
    if |rows| == 0 then table
    else Upsert(UpsertEach(table, rows[..|rows| - 1], conflict), rows[|rows| - 1], conflict)
  }

  lemma {:induction false} UpsertInTwo(table: Table, first: seq<Row>, second: seq<Row>, conflict: seq<string>)
    ensures UpsertEach(table, first + second, conflict)
         == UpsertEach(UpsertEach(table, first, conflict), second, conflict)
  {
    hide Upsert;
    if |second| == 0 {
      assert first + second == first;
    } else {
      UpsertInTwo(table, first, second[..|second| - 1], conflict);
      assert (first + second)[..|first + second| - 1] == first + second[..|second| - 1];
    }
  }

  /* ---- One statement ---- */

  function KeysOf(rows: seq<Row>, conflict: seq<string>): set<Key> {
    set i | 0 <= i < |rows| :: KeyOf(rows[i], conflict)
  }

  predicate DistinctKeys(rows: seq<Row>, conflict: seq<string>) {
    forall i, j :: 0 <= i < j < |rows| ==> KeyOf(rows[i], conflict) != KeyOf(rows[j], conflict)
  }

  // Nothing is there but what was and what was written.
  lemma {:induction false} KeysAfter(table: Table, rows: seq<Row>, conflict: seq<string>)
    ensures UpsertEach(table, rows, conflict).Keys == table.Keys + KeysOf(rows, conflict)
  {
    hide KeyOf, Applied, KeysOf;
    if |rows| > 0 {
      var before, last := rows[..|rows| - 1], rows[|rows| - 1];
      KeysAfter(table, before, conflict);
      assert before + [last] == rows;
      KeysOneMore(before, last, conflict);
    } else {
      NoKeys(conflict);
    }
  }

  lemma NoKeys(conflict: seq<string>)
    ensures KeysOf([], conflict) == {}
  {
  }

  // The last row of key `k`, if there is one.
  function LastOf(rows: seq<Row>, conflict: seq<string>, k: Key): Option<Row> {
    if |rows| == 0 then None
    else if KeyOf(rows[|rows| - 1], conflict) == k then Some(rows[|rows| - 1])
    else LastOf(rows[..|rows| - 1], conflict, k)
  }

  function CellAt(table: Table, k: Key, c: string): Option<Value> {
    if k in table && c in table[k] then Some(table[k][c]) else None
  }

  // Cell by cell: what the last row of the key says, where that row has the column and the key was new or the
  // column is none of the key's own; everything else is as it was.
  lemma {:induction false} UpsertedCell(table: Table, rows: seq<Row>, conflict: seq<string>, k: Key, c: string,
                                        columns: set<string>)
    requires AllHave(rows, columns)
    ensures var after, last := UpsertEach(table, rows, conflict), LastOf(rows, conflict, k);
            CellAt(after, k, c)
            == if last.Some? && c in last.value && (k !in table || c !in conflict) then Some(last.value[c])
               else CellAt(table, k, c)
  {
    hide KeyOf;
    if |rows| > 0 {
      var before, last := rows[..|rows| - 1], rows[|rows| - 1];
      UpsertedCell(table, before, conflict, k, c, columns);
      KeysAfter(table, before, conflict);
      LastOfIff(before, conflict, k);
      var earlier := LastOf(before, conflict, k);
      if earlier.Some? && KeyOf(last, conflict) == k && c in conflict && c in last {
        SameKeySameCell(earlier.value, last, conflict, c);
      }
    }
  }

  lemma {:induction false} LastOfIff(rows: seq<Row>, conflict: seq<string>, k: Key)
    ensures var last := LastOf(rows, conflict, k);
            (last.Some? <==> k in KeysOf(rows, conflict))
            && (last.Some? ==> last.value in rows && KeyOf(last.value, conflict) == k)
  {
    hide KeyOf, KeysOf;
    if |rows| == 0 {
      NoKeys(conflict);
    } else {
      var before, last := rows[..|rows| - 1], rows[|rows| - 1];
      LastOfIff(before, conflict, k);
      assert before + [last] == rows;
      KeysOneMore(before, last, conflict);
    }
  }

  lemma SameKeySameCell(a: Row, b: Row, conflict: seq<string>, c: string)
    requires KeyOf(a, conflict) == KeyOf(b, conflict) && c in conflict && c in a && c in b
    ensures a[c] == b[c]
  {
    var i :| 0 <= i < |conflict| && conflict[i] == c;
    assert KeyOf(a, conflict)[i] == KeyOf(b, conflict)[i];
  }

  // The last row with key k.
  function LastRow(rows: seq<Row>, conflict: seq<string>, k: Key): Row
    requires k in KeysOf(rows, conflict)
  {
    var last := rows[|rows| - 1];
    if KeyOf(last, conflict) == k then last
    else
      assert k in KeysOf(rows[..|rows| - 1], conflict) by {
        var i :| 0 <= i < |rows| && KeyOf(rows[i], conflict) == k;
        assert rows[..|rows| - 1][i] == rows[i];
      }
      LastRow(rows[..|rows| - 1], conflict, k)
  }

  // All rows at once, each against the table as it stood before the statement.
  function AfterStatement(table: Table, rows: seq<Row>, conflict: seq<string>): Table {
    map k | k in table.Keys + KeysOf(rows, conflict) ::
      if k in KeysOf(rows, conflict) then Applied(table, LastRow(rows, conflict, k), conflict) else table[k]
  }

  class TargetTable {
    var rows: Table
    const conflict: seq<string>

    constructor (conflict: seq<string>)
      ensures rows == map[] && this.conflict == conflict
    {
      rows := map[];
      this.conflict := conflict;
    }

    // Two rows with one key in a statement are refused, and nothing is written.
    method UpsertMany(batch: seq<Row>) returns (result: Result<nat, string>)
      modifies this
      ensures result.Ok? <==> DistinctKeys(batch, conflict)
      ensures result.Ok? ==> result.value == |batch| && rows == AfterStatement(old(rows), batch, conflict)
      ensures result.Err? ==> rows == old(rows)
    {
      if |batch| == 0 {
        assert KeysOf(batch, conflict) == {};
        assert AfterStatement(rows, batch, conflict) == rows;
        return Ok(0);
      }
      if !DistinctKeys(batch, conflict) {
        return Err("CardinalityViolation");
      }
      rows := AfterStatement(rows, batch, conflict);
      result := Ok(|batch|);
    }
  }

  /* ---- Deduplication ---- */

  // What deduplicating a batch may and may not change.
  predicate SameLastRows(rows: seq<Row>, batch: seq<Row>, conflict: seq<string>) {
    && KeysOf(rows, conflict) == KeysOf(batch, conflict)
    && forall k :: k in KeysOf(batch, conflict) ==> LastRow(rows, conflict, k) == LastRow(batch, conflict, k)
  }

  lemma KeysOneMore(rows: seq<Row>, row: Row, conflict: seq<string>)
    ensures KeysOf(rows + [row], conflict) == KeysOf(rows, conflict) + {KeyOf(row, conflict)}
    ensures forall k :: k in KeysOf(rows + [row], conflict) ==>
              LastRow(rows + [row], conflict, k)
              == if k == KeyOf(row, conflict) then row else LastRow(rows, conflict, k)
  {
    var all := rows + [row];
    assert all[..|rows|] == rows && all[|rows|] == row;
    forall k ensures k in KeysOf(all, conflict) <==> k in KeysOf(rows, conflict) || k == KeyOf(row, conflict) {
      if k in KeysOf(rows, conflict) {
        var i :| 0 <= i < |rows| && KeyOf(rows[i], conflict) == k;
        assert all[i] == rows[i];
      }
      if k == KeyOf(row, conflict) {
        assert KeyOf(all[|rows|], conflict) == k;
      }
    }
  }

  // A dictionary keeps the place of a key's first row and the value of its last.
  method Dedupe(batch: seq<Row>, conflict: seq<string>) returns (deduped: seq<Row>)
    ensures DistinctKeys(deduped, conflict) && SameLastRows(deduped, batch, conflict)
    ensures |deduped| == |KeysOf(batch, conflict)|
    ensures forall i :: 0 <= i < |deduped| ==> deduped[i] in batch
  {
    var order: seq<Key> := [];
    var byKey: map<Key, Row> := map[];
    for i := 0 to |batch|
      invariant IsDictionary(order, byKey)
      invariant byKey.Keys == KeysOf(batch[..i], conflict)
      invariant forall k :: k in byKey ==> byKey[k] == LastRow(batch[..i], conflict, k)
      invariant forall k :: k in byKey ==> byKey[k] in batch && KeyOf(byKey[k], conflict) == k
    {
      var row := batch[i];
      var key := KeyOf(row, conflict);
      assert batch[..i + 1] == batch[..i] + [row];
      KeysOneMore(batch[..i], row, conflict);
      if key !in byKey {
        order := order + [key];
      }
      byKey := byKey[key := row];
    }
    assert batch[..|batch|] == batch;
    deduped := seq(|order|, i requires 0 <= i < |order| && IsDictionary(order, byKey) => byKey[order[i]]);
    ValuesAreTheRows(order, byKey, deduped, conflict);
  }

  predicate IsDictionary(order: seq<Key>, byKey: map<Key, Row>) {
    && (forall i :: 0 <= i < |order| ==> order[i] in byKey)
    && (forall k :: k in byKey ==> k in order)
    && (forall i, j :: 0 <= i < j < |order| ==> order[i] != order[j])
  }

  lemma ValuesAreTheRows(order: seq<Key>, byKey: map<Key, Row>, values: seq<Row>, conflict: seq<string>)
    requires IsDictionary(order, byKey) && |values| == |order|
    requires forall i :: 0 <= i < |order| ==> values[i] == byKey[order[i]]
    requires forall k :: k in byKey ==> KeyOf(byKey[k], conflict) == k
    ensures DistinctKeys(values, conflict) && KeysOf(values, conflict) == byKey.Keys
    ensures forall k :: k in byKey ==> LastRow(values, conflict, k) == byKey[k]
    ensures |values| == |byKey.Keys|
  {
    forall i | 0 <= i < |values| ensures KeyOf(values[i], conflict) == order[i] {
      assert order[i] in byKey;
    }
    forall k | k in byKey ensures k in KeysOf(values, conflict) && LastRow(values, conflict, k) == byKey[k] {
      var i :| 0 <= i < |order| && order[i] == k;
      assert KeyOf(values[i], conflict) == k;
      OnlyRowIsLast(values, conflict, i);
    }
    forall k | k in KeysOf(values, conflict) ensures k in byKey {
      var i :| 0 <= i < |values| && KeyOf(values[i], conflict) == k;
      assert order[i] in byKey;
    }
    OnePlaceEach(order, byKey.Keys);
  }

  lemma {:induction false} OnlyRowIsLast(rows: seq<Row>, conflict: seq<string>, i: nat)
    requires i < |rows| && DistinctKeys(rows, conflict)
    ensures KeyOf(rows[i], conflict) in KeysOf(rows, conflict)
    ensures LastRow(rows, conflict, KeyOf(rows[i], conflict)) == rows[i]
  {
    if i < |rows| - 1 {
      OnlyRowIsLast(rows[..|rows| - 1], conflict, i);
    }
  }

  lemma {:induction false} OnePlaceEach(order: seq<Key>, keys: set<Key>)
    requires forall i :: 0 <= i < |order| ==> order[i] in keys
    requires forall k :: k in keys ==> k in order
    requires forall i, j :: 0 <= i < j < |order| ==> order[i] != order[j]
    ensures |order| == |keys|
  {
    if |order| == 0 {
      assert keys == {};
    } else {
      var last := order[|order| - 1];
      assert keys == keys - {last} + {last};
      OnePlaceEach(order[..|order| - 1], keys - {last});
    }
  }

  /* ---- One deduplicated statement is the rows one by one ---- */

  predicate Covers(columns: set<string>, conflict: seq<string>) {
    forall i :: 0 <= i < |conflict| ==> conflict[i] in columns
  }

  lemma SameKeySameConflictColumns(a: Row, b: Row, conflict: seq<string>, c: string)
    requires a.Keys == b.Keys && Covers(a.Keys, conflict) && c in conflict
    requires KeyOf(a, conflict) == KeyOf(b, conflict)
    ensures c in a && a[c] == b[c]
  {
    var i :| 0 <= i < |conflict| && conflict[i] == c;
    assert KeyOf(a, conflict)[i] == a[c] && KeyOf(b, conflict)[i] == b[c];
  }

  lemma MergeReplaces(first: Row, second: Row, conflict: seq<string>)
    requires first.Keys == second.Keys && Covers(first.Keys, conflict)
    requires KeyOf(first, conflict) == KeyOf(second, conflict)
    ensures Merge(first, second, conflict) == second
  {
    forall c | c in first ensures Merge(first, second, conflict)[c] == second[c] {
      if c in conflict {
        SameKeySameConflictColumns(first, second, conflict, c);
      }
    }
  }

  lemma MergeForgets(prior: Row, first: Row, second: Row, conflict: seq<string>)
    requires first.Keys == second.Keys
    ensures Merge(Merge(prior, first, conflict), second, conflict) == Merge(prior, second, conflict)
  {
  }

  // The earlier of two rows with one key leaves nothing behind.
  lemma LaterRowWins(table: Table, first: Row, second: Row, conflict: seq<string>)
    requires first.Keys == second.Keys && Covers(first.Keys, conflict)
    requires KeyOf(first, conflict) == KeyOf(second, conflict)
    ensures Merge(Applied(table, first, conflict), second, conflict) == Applied(table, second, conflict)
  {
    hide Merge, Covers;
    var k := KeyOf(first, conflict);
    if k in table {
      MergeForgets(table[k], first, second, conflict);
    } else {
      MergeReplaces(first, second, conflict);
    }
  }

  lemma {:induction false} LastRowIsOneOfThem(rows: seq<Row>, conflict: seq<string>, k: Key)
    requires k in KeysOf(rows, conflict)
    ensures LastRow(rows, conflict, k) in rows && KeyOf(LastRow(rows, conflict, k), conflict) == k
  {
    var before, last := rows[..|rows| - 1], rows[|rows| - 1];
    assert before + [last] == rows;
    KeysOneMore(before, last, conflict);
    if KeyOf(last, conflict) != k {
      LastRowIsOneOfThem(before, conflict, k);
    }
  }

  lemma {:induction false} RowByRowIsTheStatement(table: Table, rows: seq<Row>, conflict: seq<string>,
                                                  columns: set<string>)
    requires AllHave(rows, columns) && Covers(columns, conflict)
    ensures UpsertEach(table, rows, conflict) == AfterStatement(table, rows, conflict)
  {
    hide Applied, KeyOf, Covers;
    if |rows| == 0 {
      assert KeysOf(rows, conflict) == {};
      assert AfterStatement(table, rows, conflict) == table;
    } else {
      var before, last := rows[..|rows| - 1], rows[|rows| - 1];
      RowByRowIsTheStatement(table, before, conflict, columns);
      assert before + [last] == rows;
      StatementOneMore(table, before, last, conflict);
    }
  }

  lemma StatementOneMore(table: Table, before: seq<Row>, last: Row, conflict: seq<string>)
    requires AllHave(before, last.Keys) && Covers(last.Keys, conflict)
    ensures Upsert(AfterStatement(table, before, conflict), last, conflict)
         == AfterStatement(table, before + [last], conflict)
  {
    hide KeyOf, Merge, Covers, LastRow, KeysOf;
    KeysOneMore(before, last, conflict);
    var k := KeyOf(last, conflict);
    var mid := AfterStatement(table, before, conflict);
    if k in KeysOf(before, conflict) {
      var first := LastRow(before, conflict, k);
      LastRowIsOneOfThem(before, conflict, k);
      LaterRowWins(table, first, last, conflict);
      assert mid[k] == Applied(table, first, conflict);
    }
    assert Upsert(mid, last, conflict)[k] == Applied(table, last, conflict);
    var after := AfterStatement(table, before + [last], conflict);
    assert Upsert(mid, last, conflict).Keys == after.Keys;
  }

  lemma SameLastRowsSameTable(table: Table, rows: seq<Row>, batch: seq<Row>, conflict: seq<string>)
    requires SameLastRows(rows, batch, conflict)
    ensures AfterStatement(table, rows, conflict) == AfterStatement(table, batch, conflict)
  {
    hide LastRow, Applied;
  }

  // Ingesting the same rows again changes nothing.
  lemma IngestingAgainChangesNothing(table: Table, rows: seq<Row>, conflict: seq<string>, columns: set<string>)
    requires AllHave(rows, columns) && Covers(columns, conflict)
    ensures var once := UpsertEach(table, rows, conflict); UpsertEach(once, rows, conflict) == once
  {
    hide LastRow, KeyOf, Merge, Covers;
    var once := AfterStatement(table, rows, conflict);
    RowByRowIsTheStatement(table, rows, conflict, columns);
    RowByRowIsTheStatement(once, rows, conflict, columns);
    forall k | k in KeysOf(rows, conflict)
      ensures Applied(once, LastRow(rows, conflict, k), conflict) == once[k]
    {
      var row := LastRow(rows, conflict, k);
      LastRowIsOneOfThem(rows, conflict, k);
      LaterRowWins(table, row, row, conflict);
    }
    assert AfterStatement(once, rows, conflict) == once;
  }

  /* ---- Chunks ---- */

  // The rows up to the first that does not parse.
  function ParsedPrefix(spec: Spec, raws: seq<RawRow>): seq<Row> {
    if |raws| == 0 then []
    else
      var first := spec.parse(raws[0]);
      if first.None? then [] else [first.value] + ParsedPrefix(spec, raws[1..])
  }

  lemma {:induction false} PrefixIsWhatParses(spec: Spec, raws: seq<RawRow>)
    ensures var n := |ParsedPrefix(spec, raws)|;
            && n <= |raws| && (n < |raws| ==> spec.parse(raws[n]).None?)
            && forall i :: 0 <= i < n ==> spec.parse(raws[i]) == Some(ParsedPrefix(spec, raws)[i])
  {
    if |raws| > 0 && spec.parse(raws[0]).Some? {
      PrefixIsWhatParses(spec, raws[1..]);
    }
  }

  lemma PrefixIsUniform(spec: Spec, raws: seq<RawRow>)
    requires Uniform(spec)
    ensures AllHave(ParsedPrefix(spec, raws), spec.columns) && Covers(spec.columns, spec.conflict)
  {
    PrefixIsWhatParses(spec, raws);
  }

  // A chunk size below one behaves as one: every row fills its chunk.
  function ChunkLength(chunkSize: int): nat { if chunkSize < 1 then 1 else chunkSize }

  // How many of the first `n` rows are in full chunks.
  function InFullChunks(n: nat, chunkSize: int): (full: nat)
    ensures full <= n
  {
    n - n % ChunkLength(chunkSize)
  }

  // The first `done` rows are full chunks.
  ghost predicate Aligned(done: nat, chunkSize: int) {
    exists chunks: nat :: done == Product(chunks, ChunkLength(chunkSize))
  }

  function Product(a: nat, b: nat): nat { a * b }

  lemma OneMoreChunk(done: nat, chunkSize: int)
    requires Aligned(done, chunkSize)
    ensures Aligned(done + ChunkLength(chunkSize), chunkSize)
  {
    var chunks: nat :| done == Product(chunks, ChunkLength(chunkSize));
    assert done + ChunkLength(chunkSize) == Product(chunks + 1, ChunkLength(chunkSize));
  }

  lemma NoChunk(chunkSize: int)
    ensures Aligned(0, chunkSize)
  {
    assert 0 == Product(0, ChunkLength(chunkSize));
  }

  lemma FullChunksAre(n: nat, chunkSize: int, done: nat)
    requires Aligned(done, chunkSize) && done <= n < done + ChunkLength(chunkSize)
    ensures InFullChunks(n, chunkSize) == done
  {
    var c := ChunkLength(chunkSize);
    var chunks: nat :| done == Product(chunks, c);
    var q, r := n / c, n % c;
    assert n == q * c + r && 0 <= r < c;
    assert (q - chunks) * c == n - done - r;
    assert q - chunks >= 1 ==> (q - chunks) * c >= c;
    assert q - chunks <= -1 ==> (q - chunks) * c <= -c;
  }

  method UpsertChunk(table: TargetTable, batch: seq<Row>, columns: set<string>) returns (count: nat)
    requires AllHave(batch, columns) && Covers(columns, table.conflict)
    modifies table
    ensures table.rows == UpsertEach(old(table.rows), batch, table.conflict)
    ensures count == |KeysOf(batch, table.conflict)|
  {
    hide LastRow, AfterStatement, UpsertEach, Covers, KeysOf;
    var deduped := Dedupe(batch, table.conflict);
    var result := table.UpsertMany(deduped);
    SameLastRowsSameTable(old(table.rows), deduped, batch, table.conflict);
    RowByRowIsTheStatement(old(table.rows), batch, table.conflict, columns);
    count := |deduped|;
  }

  lemma KeysInTwo(first: seq<Row>, second: seq<Row>, conflict: seq<string>)
    ensures KeysOf(first + second, conflict) == KeysOf(first, conflict) + KeysOf(second, conflict)
    ensures |KeysOf(first + second, conflict)| <= |KeysOf(first, conflict)| + |KeysOf(second, conflict)|
  {
    hide KeyOf;
    var all := first + second;
    forall k ensures k in KeysOf(all, conflict) <==> k in KeysOf(first, conflict) || k in KeysOf(second, conflict) {
      if k in KeysOf(first, conflict) {
        var i :| 0 <= i < |first| && KeyOf(first[i], conflict) == k;
        assert all[i] == first[i];
      }
      if k in KeysOf(second, conflict) {
        var i :| 0 <= i < |second| && KeyOf(second[i], conflict) == k;
        assert all[|first| + i] == second[i];
      }
    }
    UnionIsSmall(KeysOf(first, conflict), KeysOf(second, conflict));
  }

  lemma UnionIsSmall<T>(a: set<T>, b: set<T>)
    ensures |a + b| <= |a| + |b|
  {
    assert a + b == a + (b - a);
  }

  lemma {:induction false} FewKeys(rows: seq<Row>, conflict: seq<string>)
    ensures |KeysOf(rows, conflict)| <= |rows|
  {
    hide KeyOf;
    if |rows| == 0 {
      assert KeysOf(rows, conflict) == {};
    } else {
      FewKeys(rows[..|rows| - 1], conflict);
      assert rows[..|rows| - 1] + [rows[|rows| - 1]] == rows;
      KeysOneMore(rows[..|rows| - 1], rows[|rows| - 1], conflict);
    }
  }

  // What has been ingested: the first `done` rows, and how many rows the statements reported.
  ghost predicate Ingested(start: Table, now: Table, parsed: seq<Row>, done: nat, total: nat, conflict: seq<string>) {
    && done <= |parsed| && now == UpsertEach(start, parsed[..done], conflict)
    && |KeysOf(parsed[..done], conflict)| <= total <= done
  }

  method Flush(table: TargetTable, batch: seq<Row>, columns: set<string>, total: nat, ghost start: Table,
               ghost parsed: seq<Row>, ghost done: nat)
    returns (newTotal: nat)
    requires AllHave(batch, columns) && Covers(columns, table.conflict)
    requires Ingested(start, table.rows, parsed, done, total, table.conflict)
    requires done + |batch| <= |parsed| && batch == parsed[done..done + |batch|]
    modifies table
    ensures Ingested(start, table.rows, parsed, done + |batch|, newTotal, table.conflict)
  {
    hide KeysOf, UpsertEach, Covers, KeyOf;
    AppendChunk(start, parsed, done, done + |batch|, table.conflict);
    FewKeys(batch, table.conflict);
    var count := UpsertChunk(table, batch, columns);
    newTotal := total + count;
  }

  lemma NothingIngested(table: Table, parsed: seq<Row>, conflict: seq<string>)
    ensures Ingested(table, table, parsed, 0, 0, conflict)
  {
    assert parsed[..0] == [];
  }

  // A row that does not parse stops the ingest; `Err` carries its index.
  method IngestRows(spec: Spec, raws: seq<RawRow>, table: TargetTable, chunkSize: int)
    returns (result: Result<nat, nat>)
    requires Uniform(spec) && table.conflict == spec.conflict
    modifies table
    ensures var parsed := ParsedPrefix(spec, raws);
            && (result.Ok? <==> |parsed| == |raws|)
            && (result.Ok? ==> table.rows == UpsertEach(old(table.rows), parsed, spec.conflict)
                               && |KeysOf(parsed, spec.conflict)| <= result.value <= |raws|)
            && (result.Err? ==> result.error == |parsed| < |raws|
                                && table.rows == UpsertEach(old(table.rows),
                                                            parsed[..InFullChunks(|parsed|, chunkSize)], spec.conflict))
  {
    hide KeysOf, UpsertEach, Covers, KeyOf, Ingested, Uniform, ParsedPrefix, Aligned, InFullChunks;
    var total := 0;
    var batch: seq<Row> := [];
    ghost var parsed, done := ParsedPrefix(spec, raws), 0;
    PrefixIsWhatParses(spec, raws);
    PrefixIsUniform(spec, raws);
    NothingIngested(table.rows, parsed, spec.conflict);
    NoChunk(chunkSize);
    for i := 0 to |raws|
      invariant i <= |parsed| && done <= i && batch == parsed[done..i]
      invariant Aligned(done, chunkSize) && |batch| < ChunkLength(chunkSize)
      invariant Ingested(old(table.rows), table.rows, parsed, done, total, spec.conflict)
    {
      var row := spec.parse(raws[i]);
      if row.None? {
        FullChunksAre(|parsed|, chunkSize, done);
        IngestedIs(old(table.rows), table.rows, parsed, done, total, spec.conflict);
        return Err(i);
      }
      batch := batch + [row.value];
      assert batch == parsed[done..i + 1];
      if |batch| >= chunkSize {
        total := Flush(table, batch, spec.columns, total, old(table.rows), parsed, done);
        OneMoreChunk(done, chunkSize);
        batch, done := [], i + 1;
      }
    }
    if |batch| > 0 {
      total := Flush(table, batch, spec.columns, total, old(table.rows), parsed, done);
    }
    IngestedIs(old(table.rows), table.rows, parsed, |parsed|, total, spec.conflict);
    assert parsed[..|parsed|] == parsed;
    result := Ok(total);
  }

  lemma IngestedIs(start: Table, now: Table, parsed: seq<Row>, done: nat, total: nat, conflict: seq<string>)
    requires Ingested(start, now, parsed, done, total, conflict)
    ensures done <= |parsed| && now == UpsertEach(start, parsed[..done], conflict)
    ensures |KeysOf(parsed[..done], conflict)| <= total <= done
  {
  }

  lemma AppendChunk(table: Table, parsed: seq<Row>, done: nat, next: nat, conflict: seq<string>)
    requires done <= next <= |parsed|
    ensures UpsertEach(table, parsed[..next], conflict)
         == UpsertEach(UpsertEach(table, parsed[..done], conflict), parsed[done..next], conflict)
    ensures |KeysOf(parsed[..next], conflict)|
         <= |KeysOf(parsed[..done], conflict)| + |KeysOf(parsed[done..next], conflict)|
  {
    hide KeysOf, UpsertEach;
    assert parsed[..done] + parsed[done..next] == parsed[..next];
    UpsertInTwo(table, parsed[..done], parsed[done..next], conflict);
    KeysInTwo(parsed[..done], parsed[done..next], conflict);
  }
}
