/**
  * The SQL text the custom service adapter builds before it hands a statement
  * to JDBC: the WHERE clause of a table scan, the SET and WHERE parts of an
  * update, the positional binding of the collected values, the chunks of a
  * multi-row insert, and the CREATE TABLE statement.  A Java map is given as
  * the sequence of its entries in iteration order; Java's null is `None`.
  */
module CustomServiceAdapter {
  import opened Common

  const KEY_EQUALS_VALUE_TO_BE_SET := " = (?)"
  const STR_SPACE_AND := " AND "
  const STR_SPACE_WHERE := " WHERE "
  const IS_NULL := " IS NULL"
  const SET_SEPARATOR := ", "

  /** A map entry, in the map's iteration order. */
  datatype Entry<V> = Entry(key: string, value: V)

  /** `parts` with `sep` between neighbours. */
  function Join(parts: seq<string>, sep: string): string {
    if |parts| == 0 then ""
    else if |parts| == 1 then parts[0]
    else Join(parts[..|parts| - 1], sep) + sep + parts[|parts| - 1]
  }

  /** Appending a part adds the separator unless it is the first. */
  lemma JoinSnoc(parts: seq<string>, p: string, sep: string)
    ensures Join(parts + [p], sep) == if parts == [] then p else Join(parts, sep) + sep + p
  {
    assert (parts + [p])[..|parts|] == parts;
  }

  /** The number of JDBC parameter markers `?` in `s`. */
  function Marks(s: string): nat {
    if s == [] then 0 else Marks(s[..|s| - 1]) + (if s[|s| - 1] == '?' then 1 else 0)
  }

  lemma {:induction false} MarksConcat(a: string, b: string)
    ensures Marks(a + b) == Marks(a) + Marks(b)
  {
    if b != [] {
      assert (a + b)[..|a + b| - 1] == a + b[..|b| - 1];
      assert (a + b)[|a + b| - 1] == b[|b| - 1];
      MarksConcat(a, b[..|b| - 1]);
    } else {
      assert a + b == a;
    }
  }

  lemma {:induction false} NoMarks(s: string)
    requires '?' !in s
    ensures Marks(s) == 0
  {
    if s != [] {
      assert s[|s| - 1] in s;
      NoMarks(s[..|s| - 1]);
    }
  }

  /** The markers of all parts together. */
  function SumMarks(parts: seq<string>): nat {
    if parts == [] then 0 else SumMarks(parts[..|parts| - 1]) + Marks(parts[|parts| - 1])
  }

  /** A separator without markers adds none: the joined text has exactly the parts' markers. */
  lemma {:induction false} JoinMarks(parts: seq<string>, sep: string)
    requires '?' !in sep
    ensures Marks(Join(parts, sep)) == SumMarks(parts)
  {
    if |parts| == 1 {
      assert parts[..0] == [];
    } else if |parts| > 1 {
      var init := parts[..|parts| - 1];
      JoinMarks(init, sep);
      MarksConcat(Join(init, sep), sep);
      NoMarks(sep);
      MarksConcat(Join(init, sep) + sep, parts[|parts| - 1]);
    }
  }

  /** A key compared with a placeholder: one marker when the key has none. */
  lemma BoundMarks(key: string)
    requires '?' !in key
    ensures Marks(key + KEY_EQUALS_VALUE_TO_BE_SET) == 1
  {
    NoMarks(key);
    MarksConcat(key, KEY_EQUALS_VALUE_TO_BE_SET);
    var p := KEY_EQUALS_VALUE_TO_BE_SET;
    assert p[..|p| - 1][..|p| - 2] == " = (";
    NoMarks(" = (");
  }

  lemma NullMarks(key: string)
    requires '?' !in key
    ensures Marks(key + IS_NULL) == 0
  {
    NoMarks(key + IS_NULL);
  }

  predicate KeysWithoutMarks<V>(entries: seq<Entry<V>>) {
    forall k | 0 <= k < |entries| :: '?' !in entries[k].key
  }

  // ---------------------------------------------------------------- table scan

  /** `key = (?)` for every condition, in iteration order. */
  function BoundParts<V>(entries: seq<Entry<V>>): (parts: seq<string>)
    ensures |parts| == |entries|
  {
    seq(|entries|, k requires 0 <= k < |entries| => entries[k].key + KEY_EQUALS_VALUE_TO_BE_SET)
  }

  /** No conditions: no clause; otherwise WHERE and the comparisons joined by AND. */
  function WhereClause<V>(conditions: seq<Entry<V>>): string {
    if conditions == [] then "" else STR_SPACE_WHERE + Join(BoundParts(conditions), STR_SPACE_AND)
  }

  function SelectText<V>(table: string, conditions: seq<Entry<V>>): string {
    "SELECT * FROM `" + table + "`" + WhereClause(conditions)
  }

  function Values<V>(entries: seq<Entry<V>>): (vs: seq<V>)
    ensures |vs| == |entries| && forall k :: 0 <= k < |entries| ==> vs[k] == entries[k].value
  {
    seq(|entries|, k requires 0 <= k < |entries| => entries[k].value)
  }

  /**
    * The table scan's statement and its values: the clause grows by WHERE for
    * the first condition and AND for each later one, and every condition's
    * value is collected.
    */
  method GetRowIteratorOfTable<V>(table: string, conditions: seq<Entry<V>>) returns (query: string, values: seq<V>)
    ensures query == SelectText(table, conditions) && values == Values(conditions)
  {
    var conditionSB := "";
    values := [];
    var i := 0;
    while i < |conditions|
      invariant i <= |conditions|
      invariant conditionSB == WhereClause(conditions[..i]) && values == Values(conditions[..i])
      invariant |conditionSB| > 0 <==> i > 0
    {
      BoundStep(conditions, i, STR_SPACE_AND);
      ghost var part := conditions[i].key + KEY_EQUALS_VALUE_TO_BE_SET;
      ghost var joined := Join(BoundParts(conditions[..i]), STR_SPACE_AND);
      if |conditionSB| > 0 {
        conditionSB := conditionSB + STR_SPACE_AND;
        conditionSB := conditionSB + (conditions[i].key + KEY_EQUALS_VALUE_TO_BE_SET);
        AppendAssoc(STR_SPACE_WHERE, joined, STR_SPACE_AND, part);
      } else {
        conditionSB := conditionSB + STR_SPACE_WHERE;
        conditionSB := conditionSB + (conditions[i].key + KEY_EQUALS_VALUE_TO_BE_SET);
        assert conditionSB == STR_SPACE_WHERE + ("" + part);
      }
      values := values + [conditions[i].value];
      i := i + 1;
    }
    assert conditions[..i] == conditions;
    query := "SELECT * FROM `" + table + "`" + conditionSB;
  }

  lemma AppendAssoc(a: string, b: string, c: string, d: string)
    ensures a + b + c + d == a + (b + c + d)
  {
  }

  lemma {:induction false} BoundPartsMarks<V>(entries: seq<Entry<V>>)
    requires KeysWithoutMarks(entries)
    ensures SumMarks(BoundParts(entries)) == |entries|
  {
    if entries != [] {
      var init := entries[..|entries| - 1];
      BoundPartsMarks(init);
      assert BoundParts(entries)[..|entries| - 1] == BoundParts(init);
      BoundMarks(entries[|entries| - 1].key);
    }
  }

  /** With marker-free names, the scan has one marker per value it binds. */
  lemma SelectMarksMatchValues<V>(table: string, conditions: seq<Entry<V>>)
    requires '?' !in table && KeysWithoutMarks(conditions)
    ensures Marks(SelectText(table, conditions)) == |Values(conditions)|
  {
    var head := "SELECT * FROM `" + table + "`";
    NoMarks(head);
    MarksConcat(head, WhereClause(conditions));
    if conditions != [] {
      JoinMarks(BoundParts(conditions), STR_SPACE_AND);
      BoundPartsMarks(conditions);
      NoMarks(STR_SPACE_WHERE);
      MarksConcat(STR_SPACE_WHERE, Join(BoundParts(conditions), STR_SPACE_AND));
    }
  }

  // ---------------------------------------------------------------- update

  /** A condition compares with a placeholder, or tests for NULL when its value is null. */
  function ConditionPart<V>(e: Entry<Option<V>>): string {
    if e.value.Some? then e.key + KEY_EQUALS_VALUE_TO_BE_SET else e.key + IS_NULL
  }

  function ConditionParts<V>(conditions: seq<Entry<Option<V>>>): (parts: seq<string>)
    ensures |parts| == |conditions|
  {
    seq(|conditions|, k requires 0 <= k < |conditions| => ConditionPart(conditions[k]))
  }

  /** The non-null condition values, in iteration order. */
  function BoundConditionValues<V>(conditions: seq<Entry<Option<V>>>): seq<Option<V>> {
    if conditions == [] then []
    else
      var e := conditions[|conditions| - 1];
      BoundConditionValues(conditions[..|conditions| - 1]) + (if e.value.Some? then [e.value] else [])
  }

  /** The update's statement; the WHERE keyword is written even without conditions. */
  function UpdateText<V>(table: string, updates: seq<Entry<Option<V>>>, conditions: seq<Entry<Option<V>>>): string {
    "UPDATE " + table + " SET " + Join(BoundParts(updates), SET_SEPARATOR) +
    STR_SPACE_WHERE + Join(ConditionParts(conditions), STR_SPACE_AND)
  }

  /** The update's values: every update value (null included), then the non-null condition values. */
  function UpdateValues<V>(updates: seq<Entry<Option<V>>>, conditions: seq<Entry<Option<V>>>): seq<Option<V>> {
    Values(updates) + BoundConditionValues(conditions)
  }

  /** One more bound entry: its comparison is appended, after the separator unless it is the first. */
  lemma BoundStep<V>(entries: seq<Entry<V>>, i: nat, sep: string)
    requires i < |entries|
    ensures Join(BoundParts(entries[..i + 1]), sep) ==
            (if i == 0 then "" else Join(BoundParts(entries[..i]), sep) + sep) + (entries[i].key + KEY_EQUALS_VALUE_TO_BE_SET)
    ensures Values(entries[..i + 1]) == Values(entries[..i]) + [entries[i].value]
  {
    assert BoundParts(entries[..i + 1]) == BoundParts(entries[..i]) + [entries[i].key + KEY_EQUALS_VALUE_TO_BE_SET];
    JoinSnoc(BoundParts(entries[..i]), entries[i].key + KEY_EQUALS_VALUE_TO_BE_SET, sep);
    assert Values(entries[..i + 1]) == Values(entries[..i]) + [entries[i].value];
  }

  /** One more condition: its part is appended after AND unless it is the first, and its value bound unless null. */
  lemma ConditionStep<V>(conditions: seq<Entry<Option<V>>>, j: nat)
    requires j < |conditions|
    ensures Join(ConditionParts(conditions[..j + 1]), STR_SPACE_AND) ==
            (if j == 0 then "" else Join(ConditionParts(conditions[..j]), STR_SPACE_AND) + STR_SPACE_AND) +
            ConditionPart(conditions[j])
    ensures BoundConditionValues(conditions[..j + 1]) ==
            BoundConditionValues(conditions[..j]) + (if conditions[j].value.Some? then [conditions[j].value] else [])
  {
    assert ConditionParts(conditions[..j + 1]) == ConditionParts(conditions[..j]) + [ConditionPart(conditions[j])];
    JoinSnoc(ConditionParts(conditions[..j]), ConditionPart(conditions[j]), STR_SPACE_AND);
    assert conditions[..j + 1][..j] == conditions[..j];
  }

  /** The SET part and the update values: every entry as `key = (?)`, separated by commas. */
  method SetClause<V>(updates: seq<Entry<Option<V>>>) returns (updateSB: string, values: seq<Option<V>>)
    ensures updateSB == Join(BoundParts(updates), SET_SEPARATOR) && values == Values(updates)
  {
    updateSB := "";
    values := [];
    var i := 0;
    while i < |updates|
      invariant i <= |updates|
      invariant updateSB == Join(BoundParts(updates[..i]), SET_SEPARATOR) && values == Values(updates[..i])
      invariant |updateSB| > 0 <==> i > 0
    {
      BoundStep(updates, i, SET_SEPARATOR);
      if |updateSB| > 0 {
        updateSB := updateSB + SET_SEPARATOR;
      }
      updateSB := updateSB + (updates[i].key + KEY_EQUALS_VALUE_TO_BE_SET);
      values := values + [updates[i].value];
      i := i + 1;
    }
    assert updates[..i] == updates;
  }

  /**
    * The condition part, appending the bound condition values to `values0`:
    * a null value is tested with IS NULL and binds nothing.
    */
  method ConditionClause<V>(conditions: seq<Entry<Option<V>>>, values0: seq<Option<V>>)
    returns (conditionSB: string, values: seq<Option<V>>)
    ensures conditionSB == Join(ConditionParts(conditions), STR_SPACE_AND)
    ensures values == values0 + BoundConditionValues(conditions)
  {
    conditionSB := "";
    values := values0;
    var j := 0;
    while j < |conditions|
      invariant j <= |conditions|
      invariant conditionSB == Join(ConditionParts(conditions[..j]), STR_SPACE_AND)
      invariant values == values0 + BoundConditionValues(conditions[..j])
      invariant |conditionSB| > 0 <==> j > 0
    {
      ConditionStep(conditions, j);
      if |conditionSB| > 0 {
        conditionSB := conditionSB + STR_SPACE_AND;
      }
      if conditions[j].value.Some? {
        conditionSB := conditionSB + (conditions[j].key + KEY_EQUALS_VALUE_TO_BE_SET);
        values := values + [conditions[j].value];
      } else {
        ghost var joined := conditionSB;
        conditionSB := conditionSB + conditions[j].key;
        conditionSB := conditionSB + IS_NULL;
        assert conditionSB == joined + (conditions[j].key + IS_NULL);
      }
      j := j + 1;
    }
    assert conditions[..j] == conditions;
  }

  /** Builds the update's statement and its values, as `update(table, updateValues, conditions)` does. */
  method Update<V>(table: string, updates: seq<Entry<Option<V>>>, conditions: seq<Entry<Option<V>>>)
    returns (sql: string, values: seq<Option<V>>)
    ensures sql == UpdateText(table, updates, conditions) && values == UpdateValues(updates, conditions)
  {
    var updateSB, setValues := SetClause(updates);
    var conditionSB;
    conditionSB, values := ConditionClause(conditions, setValues);
    sql := "UPDATE " + table + " SET " + updateSB + STR_SPACE_WHERE + conditionSB;
  }

  lemma {:induction false} ConditionPartsMarks<V>(conditions: seq<Entry<Option<V>>>)
    requires KeysWithoutMarks(conditions)
    ensures SumMarks(ConditionParts(conditions)) == |BoundConditionValues(conditions)|
  {
    if conditions != [] {
      var init := conditions[..|conditions| - 1];
      var e := conditions[|conditions| - 1];
      ConditionPartsMarks(init);
      assert ConditionParts(conditions)[..|conditions| - 1] == ConditionParts(init);
      if e.value.Some? {
        BoundMarks(e.key);
      } else {
        NullMarks(e.key);
      }
    }
  }

  /**
    * With marker-free names, the update has exactly one marker per value it
    * binds: a null condition adds `IS NULL` and no value.
    */
  lemma UpdateMarksMatchValues<V>(table: string, updates: seq<Entry<Option<V>>>, conditions: seq<Entry<Option<V>>>)
    requires '?' !in table && KeysWithoutMarks(updates) && KeysWithoutMarks(conditions)
    ensures Marks(UpdateText(table, updates, conditions)) == |UpdateValues(updates, conditions)|
  {
    var head := "UPDATE " + table + " SET ";
    var setPart := Join(BoundParts(updates), SET_SEPARATOR);
    var cond := Join(ConditionParts(conditions), STR_SPACE_AND);
    NoMarks(head);
    NoMarks(STR_SPACE_WHERE);
    JoinMarks(BoundParts(updates), SET_SEPARATOR);
    BoundPartsMarks(updates);
    JoinMarks(ConditionParts(conditions), STR_SPACE_AND);
    ConditionPartsMarks(conditions);
    MarksConcat(head, setPart);
    MarksConcat(head + setPart, STR_SPACE_WHERE);
    MarksConcat(head + setPart + STR_SPACE_WHERE, cond);
  }

  /** Without conditions the update statement ends in a bare WHERE. */
  lemma UpdateWithoutConditions<V>(table: string, updates: seq<Entry<Option<V>>>)
    ensures var text := UpdateText(table, updates, []);
            |text| >= |STR_SPACE_WHERE| && text[|text| - |STR_SPACE_WHERE|..] == STR_SPACE_WHERE
  {
    var text := UpdateText(table, updates, []);
    assert Join(ConditionParts<V>([]), STR_SPACE_AND) == "";
    assert text == "UPDATE " + table + " SET " + Join(BoundParts(updates), SET_SEPARATOR) + STR_SPACE_WHERE;
  }

  // ---------------------------------------------------------------- binding

  /** Binds parameter `i` to `values[i - 1]` for `i` from 1 to the number of values. */
  method BindParameters<V>(values: seq<V>) returns (bound: map<int, V>)
    ensures forall i :: i in bound <==> 1 <= i <= |values|
    ensures forall i :: 1 <= i <= |values| ==> bound[i] == values[i - 1]
  {
    bound := map[];
    var i := 1;
    while i <= |values|
      invariant 1 <= i <= |values| + 1
      invariant forall j :: j in bound <==> 1 <= j < i
      invariant forall j :: 1 <= j < i ==> bound[j] == values[j - 1]
    {
      bound := bound[i := values[i - 1]];
      i := i + 1;
    }
  }

  // ---------------------------------------------------------------- multi-row insert

  /**
    * The number of chunks, `ceil(n / chunkSize)`: the floating-point quotient
    * is exact enough at int range, and a negative chunk size gives a
    * non-positive quotient, hence no chunk at all.
    */
  function ChunkCount(n: nat, chunkSize: int): nat {
    if chunkSize <= 0 then 0 else (n + chunkSize - 1) / chunkSize
  }

  /** The chunks cover the rows and no more: the last one starts before the end and reaches it. */
  lemma ChunkCountBounds(n: nat, chunkSize: int)
    requires chunkSize > 0
    ensures var count := ChunkCount(n, chunkSize);
            (n == 0 <==> count == 0) && (count > 0 ==> (count - 1) * chunkSize < n <= count * chunkSize)
  {
    var x := n + chunkSize - 1;
    var q, r := x / chunkSize, x % chunkSize;
    assert x == q * chunkSize + r && 0 <= r < chunkSize;
    assert q >= 0;
    assert q == ChunkCount(n, chunkSize);
    assert (q - 1) * chunkSize == q * chunkSize - chunkSize;
    assert q * chunkSize == n + chunkSize - 1 - r;
    if q >= 1 {
      MulAtLeast(q, chunkSize);
    }
  }

  lemma MulAtLeast(t: int, size: int)
    requires t >= 1 && size > 0
    ensures t * size >= size
  {
    assert t * size == (t - 1) * size + size;
    assert (t - 1) * size >= 0;
  }

  /** Chunk `i`'s start grows by the chunk size, and every chunk before the count starts inside the rows. */
  lemma ChunkStart(i: nat, count: nat, n: nat, chunkSize: int)
    requires chunkSize > 0 && i < count && (count - 1) * chunkSize < n
    ensures (i + 1) * chunkSize == i * chunkSize + chunkSize && i * chunkSize < n
  {
    assert (count - 1) * chunkSize == i * chunkSize + (count - 1 - i) * chunkSize;
    assert (count - 1 - i) * chunkSize >= 0;
  }

  function Min(a: int, b: int): int {
    if a < b then a else b
  }

  /** The concatenation of the chunks. */
  function Flatten<T>(chunks: seq<seq<T>>): seq<T> {
    if chunks == [] then [] else Flatten(chunks[..|chunks| - 1]) + chunks[|chunks| - 1]
  }

  /** Chunk `i`: rows `[i * chunkSize, min((i + 1) * chunkSize, n))`, never empty and never over the chunk size. */
  function Chunk<T>(rows: seq<T>, chunkSize: int, i: nat): (chunk: seq<T>)
    requires chunkSize > 0 && i < ChunkCount(|rows|, chunkSize)
    ensures 0 < |chunk| <= chunkSize
  {
    ChunkCountBounds(|rows|, chunkSize);
    ChunkStart(i, ChunkCount(|rows|, chunkSize), |rows|, chunkSize);
    rows[i * chunkSize..Min((i + 1) * chunkSize, |rows|)]
  }

  /**
    * The row ranges of a multi-row insert, one per batched statement.  A
    * chunk size of zero with rows to insert never terminates
    * (`ZeroChunkSizeNeverStops`) and is excluded, as is 32-bit overflow of
    * the largest bound computed, `count * chunkSize`.
    */
  method InsertMultipleChunks<T>(rows: seq<T>, chunkSize: int) returns (chunks: seq<seq<T>>)
    requires chunkSize != 0 || |rows| == 0
    requires chunkSize > 0 ==> ChunkCount(|rows|, chunkSize) * chunkSize <= INT_MAX
    ensures |chunks| == ChunkCount(|rows|, chunkSize)
    ensures forall i :: 0 <= i < |chunks| ==> chunkSize > 0 && chunks[i] == Chunk(rows, chunkSize, i)
    ensures Flatten(chunks) == if chunkSize > 0 then rows else []
  {
    var n := |rows|;
    var count := ChunkCount(n, chunkSize);
    if chunkSize > 0 {
      ChunkCountBounds(n, chunkSize);
    }
    chunks := [];
    var i := 0;
    while i < count
      invariant i <= count && |chunks| == i
      invariant forall k :: 0 <= k < i ==> chunkSize > 0 && chunks[k] == Chunk(rows, chunkSize, k)
      invariant Flatten(chunks) == rows[..Min(i * chunkSize, n)]
    {
      ChunkStart(i, count, n, chunkSize);
      var startIndex := i * chunkSize;
      var endIndex := Min((i + 1) * chunkSize, n);
      var chunk := rows[startIndex..endIndex];
      assert chunk == Chunk(rows, chunkSize, i);
      assert rows[..endIndex] == rows[..startIndex] + chunk;
      chunks := chunks + [chunk];
      assert chunks[..i] == chunks[..|chunks| - 1];
      i := i + 1;
    }
    if chunkSize > 0 && count > 0 {
      assert rows[..Min(count * chunkSize, n)] == rows;
    }
  }

  /**
    * The loop test `i < Math.ceil(n * 1.0 / chunkSize)` as written, in
    * floating point: a zero chunk size divides the row count into +Infinity
    * when there are rows, and into NaN, which compares false, when there are none.
    */
  predicate ChunkLoopContinuesAsWritten(n: nat, chunkSize: int, i: nat) {
    if chunkSize == 0 then n > 0 else i < ChunkCount(n, chunkSize)
  }

  /** For a non-zero chunk size the loop test is the chunk count. */
  lemma ChunkLoopTest(n: nat, chunkSize: int, i: nat)
    requires chunkSize != 0
    ensures ChunkLoopContinuesAsWritten(n, chunkSize, i) <==> chunkSize > 0 && i < ChunkCount(n, chunkSize)
  {
  }

  /**
    * Counterexample: with a chunk size of 0 and one or more rows the loop test
    * holds for every `i`, and every chunk `[i * 0, min((i + 1) * 0, n))` is
    * empty: the loop test never fails and no pass covers a row.
    */
  lemma ZeroChunkSizeNeverStops(n: nat, i: nat)
    requires n > 0
    ensures ChunkLoopContinuesAsWritten(n, 0, i)
    ensures i * 0 == Min((i + 1) * 0, n) == 0
  {
  }

  const CHUNK_SIZE_NOT_POSITIVE := "The chunk size must be positive"

  /**
    * The chunking with the chunk size checked first: a chunk size below 1 with
    * rows to insert is refused, and every accepted call puts every row into
    * exactly one chunk, in order, with no chunk empty or over the chunk size.
    */
  method InsertMultipleChecked<T>(rows: seq<T>, chunkSize: int) returns (r: Result<seq<seq<T>>>)
    requires chunkSize > 0 ==> ChunkCount(|rows|, chunkSize) * chunkSize <= INT_MAX
    ensures r.Err? <==> chunkSize <= 0 && |rows| > 0
    ensures r.Err? ==> r.error == IllegalArgument(CHUNK_SIZE_NOT_POSITIVE)
    ensures r.Ok? ==> Flatten(r.value) == rows
    ensures r.Ok? ==> forall i :: 0 <= i < |r.value| ==> 0 < |r.value[i]| <= chunkSize
  {
    if chunkSize <= 0 && |rows| > 0 {
      return Err(IllegalArgument(CHUNK_SIZE_NOT_POSITIVE));
    }
    var chunks := InsertMultipleChunks(rows, chunkSize);
    r := Ok(chunks);
  }

  // ---------------------------------------------------------------- create table

  /** `types.get(key)` concatenated into a string: a missing type prints as `null`. */
  function TypeName(types: map<string, string>, key: string): string {
    if key in types then types[key] else "null"
  }

  function ColumnDef(types: map<string, string>, key: string): string {
    "`" + key + "` " + TypeName(types, key) + " NOT NULL,"
  }

  /** The parts written one after another. */
  function Concat(parts: seq<string>): string {
    if parts == [] then "" else Concat(parts[..|parts| - 1]) + parts[|parts| - 1]
  }

  /** One column definition per field name, in order. */
  function ColumnDefs(types: map<string, string>, fieldnames: seq<string>): (defs: seq<string>)
    ensures |defs| == |fieldnames|
  {
    seq(|fieldnames|, k requires 0 <= k < |fieldnames| => ColumnDef(types, fieldnames[k]))
  }

  function Columns(types: map<string, string>, fieldnames: seq<string>): string {
    Concat(ColumnDefs(types, fieldnames))
  }

  function CreateTableHead(tablename: string, primary: string, types: map<string, string>): string {
    "CREATE TABLE IF NOT EXISTS `" + tablename + "` (" +
    "`" + primary + "` " + TypeName(types, primary) + " NOT NULL AUTO_INCREMENT,"
  }

  function CreateTableTail(primary: string): string {
    "PRIMARY KEY (`" + primary + "`)" + ") ENGINE=InnoDB DEFAULT CHARSET=utf8 COLLATE=utf8_bin"
  }

  function CreateTableText(tablename: string, primary: string, fieldnames: seq<string>, types: map<string, string>): string {
    CreateTableHead(tablename, primary, types) + Columns(types, fieldnames) + CreateTableTail(primary)
  }

  /** Builds the CREATE TABLE statement: the primary field, one column per field name, the key and engine clauses. */
  method CreateTable(tablename: string, nameOfPrimaryField: string, fieldnames: seq<string>, types: map<string, string>)
    returns (sql: string)
    ensures sql == CreateTableText(tablename, nameOfPrimaryField, fieldnames, types)
  {
    var head := "CREATE TABLE IF NOT EXISTS `" + tablename + "` (";
    head := head + ("`" + nameOfPrimaryField + "` " + TypeName(types, nameOfPrimaryField) + " NOT NULL AUTO_INCREMENT,");
    assert head == CreateTableHead(tablename, nameOfPrimaryField, types);
    var columns := ColumnsOf(types, fieldnames);
    var tail := "PRIMARY KEY (`" + nameOfPrimaryField + "`)";
    tail := tail + ") ENGINE=InnoDB DEFAULT CHARSET=utf8 COLLATE=utf8_bin";
    assert tail == CreateTableTail(nameOfPrimaryField);
    sql := head + columns;
    sql := sql + tail;
  }

  /** The column definitions, one per field name in order; the unused key list is not modelled. */
  method ColumnsOf(types: map<string, string>, fieldnames: seq<string>) returns (columns: string)
    ensures columns == Columns(types, fieldnames)
  {
    ghost var defs := ColumnDefs(types, fieldnames);
    columns := "";
    var i := 0;
    while i < |fieldnames|
      invariant i <= |fieldnames|
      invariant columns == Concat(defs[..i])
    {
      assert defs[..i + 1][..i] == defs[..i];
      var key := fieldnames[i];
      var column := "`" + key + "` " + TypeName(types, key) + " NOT NULL,";
      assert column == defs[i];
      columns := columns + column;
      i := i + 1;
    }
    assert defs[..i] == defs;
  }

  /** Where the column of field `k` starts among the columns. */
  function ColumnOffset(types: map<string, string>, fieldnames: seq<string>, k: nat): nat
    requires k <= |fieldnames|
  {
    |Concat(ColumnDefs(types, fieldnames)[..k])|
  }

  lemma {:induction false} ConcatPrefix(parts: seq<string>, k: nat)
    requires k <= |parts|
    ensures Concat(parts[..k]) <= Concat(parts)
  {
    if k < |parts| {
      ConcatPrefix(parts[..|parts| - 1], k);
      assert parts[..|parts| - 1][..k] == parts[..k];
    } else {
      assert parts[..k] == parts;
    }
  }

  /** Part `k` sits in the concatenation right after the parts before it. */
  lemma ConcatAt(parts: seq<string>, k: nat)
    requires k < |parts|
    ensures var at := |Concat(parts[..k])|;
            at + |parts[k]| <= |Concat(parts)| && Concat(parts)[at..at + |parts[k]|] == parts[k]
  {
    var whole := Concat(parts);
    ConcatPrefix(parts, k + 1);
    assert parts[..k + 1][..k] == parts[..k];
    assert Concat(parts[..k + 1]) == Concat(parts[..k]) + parts[k];
    assert whole[..|Concat(parts[..k])| + |parts[k]|] == Concat(parts[..k]) + parts[k];
  }

  /** The column of field `k` sits among the columns at its offset. */
  lemma ColumnAt(types: map<string, string>, fieldnames: seq<string>, k: nat)
    requires k < |fieldnames|
    ensures var cols := Columns(types, fieldnames);
            var at := ColumnOffset(types, fieldnames, k);
            at + |ColumnDef(types, fieldnames[k])| <= |cols| &&
            cols[at..at + |ColumnDef(types, fieldnames[k])|] == ColumnDef(types, fieldnames[k])
  {
    ConcatAt(ColumnDefs(types, fieldnames), k);
  }
}
