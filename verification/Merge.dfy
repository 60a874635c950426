/**
 The bounded-batch merge: every source is read in batches of at most `batchRows` rows, each
 batch is reordered by symbol and the time columns it has, and the batches are written one
 after the other.
 */
module Merge {
  import opened Numbers
  import opened Sequences
  import opened Wrappers
  import opened Rows
  import Text

  // ---------------------------------------------------------------------------------------
  // The order of rows

  /** Nulls first, then values in their own order. A column holds one type, so the order
      between types does not matter. */
  predicate CellLeq(a: Cell, b: Cell) {
    match (a, b)
    case (Null, _) => true
    case (_, Null) => false
    case (Int(x), Int(y)) => x <= y
    case (Int(_), _) => true
    case (_, Int(_)) => false
    case (Text(x), Text(y)) => !Text.Less(y, x)
    case (Text(_), _) => true
    case (_, Text(_)) => false
    case (Flag(x), Flag(y)) => x ==> y
  }

  /** Every key names a cell of the row. */
  predicate Fits(keys: seq<nat>, row: Row) {
    forall i :: 0 <= i < |keys| ==> keys[i] < |row|
  }

  /** Lexicographic order on the cells at `keys`. */
  predicate RowLeq(keys: seq<nat>, a: Row, b: Row)
    requires Fits(keys, a) && Fits(keys, b)
  {
    keys == [] ||
    (CellLeq(a[keys[0]], b[keys[0]]) && (CellLeq(b[keys[0]], a[keys[0]]) ==> RowLeq(keys[1..], a, b)))
  }

  lemma CellOrder(a: Cell, b: Cell, c: Cell)
    ensures CellLeq(a, b) || CellLeq(b, a)
    ensures CellLeq(a, b) && CellLeq(b, c) ==> CellLeq(a, c)
  {
    if a.Text? && b.Text? {
      Text.LessOrder(a.text, b.text, if c.Text? then c.text else "");
    }
  }

  /** The row order is total and transitive. */
  lemma {:induction false} RowOrder(keys: seq<nat>, a: Row, b: Row, c: Row)
    requires Fits(keys, a) && Fits(keys, b) && Fits(keys, c)
    ensures RowLeq(keys, a, b) || RowLeq(keys, b, a)
    ensures RowLeq(keys, a, b) && RowLeq(keys, b, c) ==> RowLeq(keys, a, c)
  {
    if keys != [] {
      var k := keys[0];
      CellOrder(a[k], b[k], c[k]);
      CellOrder(b[k], c[k], a[k]);
      CellOrder(c[k], a[k], b[k]);
      RowOrder(keys[1..], a, b, c);
    }
  }

  function IndexOf(schema: seq<string>, name: string): (r: Option<nat>)
    ensures r.Some? ==> r.value < |schema| && schema[r.value] == name
    ensures r.None? <==> name !in schema
  {
    if schema == [] then None
    else if schema[0] == name then Some(0)
    else
      match IndexOf(schema[1..], name)
      case Some(i) => Some(i + 1)
      case None => None
  }

  const TIME_COLUMNS := ["event_time", "observed_at", "received_at"]

  function Present(schema: seq<string>, names: seq<string>): (r: seq<nat>)
    ensures forall i :: 0 <= i < |r| ==> r[i] < |schema|
  {
    if names == [] then []
    else
      (match IndexOf(schema, names[0]) case Some(i) => [i] case None => []) + Present(schema, names[1..])
  }

  /** The columns to sort by, or none when there is no symbol column. */
  function SortKeys(schema: seq<string>): (r: seq<nat>)
    ensures forall i :: 0 <= i < |r| ==> r[i] < |schema|
  {
    match IndexOf(schema, "symbol")
    case Some(i) => [i] + Present(schema, TIME_COLUMNS)
    case None => []
  }

  // ---------------------------------------------------------------------------------------
  // Record batches

  /** A batch is stored column by column. */
  datatype Batch = Batch(schema: seq<string>, columns: seq<seq<Cell>>, count: nat)

  predicate BatchValid(b: Batch) {
    |b.columns| == |b.schema| && forall column <- b.columns :: |column| == b.count
  }

  function RowAt(b: Batch, i: nat): Row
    requires BatchValid(b) && i < b.count
  {
    seq(|b.columns|, j requires 0 <= j < |b.columns| => b.columns[j][i])
  }

  function BatchRows(b: Batch): (r: seq<Row>)
    requires BatchValid(b)
    ensures |r| == b.count
  {
    seq(b.count, i requires 0 <= i < b.count => RowAt(b, i))
  }

  predicate Rectangular(schema: seq<string>, rows: seq<Row>) {
    forall row <- rows :: |row| == |schema|
  }

  function FromRows(schema: seq<string>, rows: seq<Row>): Batch
    requires Rectangular(schema, rows)
  {
    Batch(schema,
      seq(|schema|, j requires 0 <= j < |schema| => seq(|rows|, i requires 0 <= i < |rows| => rows[i][j])),
      |rows|)
  }

  lemma FromRowsKeeps(schema: seq<string>, rows: seq<Row>)
    requires Rectangular(schema, rows)
    ensures BatchValid(FromRows(schema, rows)) && BatchRows(FromRows(schema, rows)) == rows
  {
    var b := FromRows(schema, rows);
    forall i | 0 <= i < |rows|
      ensures RowAt(b, i) == rows[i]
    {
    }
  }

  predicate InRange(indices: seq<nat>, n: nat) {
    forall i :: 0 <= i < |indices| ==> indices[i] < n
  }

  /** The elements at `indices`, in that order. */
  function Gather<T>(items: seq<T>, indices: seq<nat>): (r: seq<T>)
    requires InRange(indices, |items|)
    ensures |r| == |indices|
    ensures forall k :: 0 <= k < |r| ==> r[k] == items[indices[k]]
  {
    seq(|indices|, k requires 0 <= k < |indices| => items[indices[k]])
  }

  function Range(n: nat): (r: seq<nat>)
    ensures |r| == n && forall i :: 0 <= i < n ==> r[i] == i
  {
    if n == 0 then [] else Range(n - 1) + [n - 1]
  }

  predicate Permutes(indices: seq<nat>, n: nat) {
    multiset(indices) == multiset(Range(n))
  }

  lemma PermutesInRange(indices: seq<nat>, n: nat)
    requires Permutes(indices, n)
    ensures |indices| == n && InRange(indices, n)
  {
    assert |multiset(indices)| == |multiset(Range(n))|;
    forall i | 0 <= i < |indices|
      ensures indices[i] < n
    {
      assert indices[i] in multiset(indices);
      assert indices[i] in Range(n);
    }
  }

  lemma Cancel<T>(x: T, a: multiset<T>, b: multiset<T>)
    requires multiset{x} + a == multiset{x} + b
    ensures a == b
  {
    assert a == (multiset{x} + a) - multiset{x};
    assert b == (multiset{x} + b) - multiset{x};
  }

  lemma GatherWithout<T>(items: seq<T>, indices: seq<nat>, k: nat)
    requires InRange(indices, |items|) && k < |indices|
    ensures InRange(Without(indices, k), |items|)
    ensures multiset(Gather(items, indices))
         == multiset{items[indices[k]]} + multiset(Gather(items, Without(indices, k)))
  {
    hide Gather;
    WithoutKeeps(Gather(items, indices), k);
    assert Without(Gather(items, indices), k) == Gather(items, Without(indices, k));
  }

  lemma {:induction false} GatherSame<T>(items: seq<T>, a: seq<nat>, b: seq<nat>)
    requires multiset(a) == multiset(b) && InRange(a, |items|) && InRange(b, |items|)
    ensures multiset(Gather(items, a)) == multiset(Gather(items, b))
    decreases |a|
  {
    hide Gather;
    if a == [] {
      assert |multiset(b)| == 0;
    } else {
      assert a[0] in multiset(b);
      var k :| 0 <= k < |b| && b[k] == a[0];
      WithoutKeeps(a, 0);
      WithoutKeeps(b, k);
      Cancel(a[0], multiset(Without(a, 0)), multiset(Without(b, k)));
      GatherWithout(items, a, 0);
      GatherWithout(items, b, k);
      hide Without, InRange;
      GatherSame(items, Without(a, 0), Without(b, k));
    }
  }

  /** A permutation of the row numbers keeps every row as often as it occurs. */
  lemma PermutationKeeps<T>(items: seq<T>, indices: seq<nat>)
    requires Permutes(indices, |items|) && InRange(indices, |items|)
    ensures multiset(Gather(items, indices)) == multiset(items)
  {
    GatherSame(items, indices, Range(|items|));
    assert Gather(items, Range(|items|)) == items;
  }

  predicate AllFit(keys: seq<nat>, rows: seq<Row>) {
    forall i :: 0 <= i < |rows| ==> Fits(keys, rows[i])
  }

  // ---------------------------------------------------------------------------------------
  // Reordering one batch

  /** Where row `row` goes among row numbers that are already in order. */
  function Insert(keys: seq<nat>, rows: seq<Row>, sorted: seq<nat>, row: nat): (r: seq<nat>)
    requires AllFit(keys, rows) && InRange(sorted, |rows|) && row < |rows|
    ensures multiset(r) == multiset(sorted) + multiset{row} && InRange(r, |rows|)
  {
    if sorted == [] then [row]
    else if RowLeq(keys, rows[row], rows[sorted[0]]) then [row] + sorted
    else
      assert sorted == [sorted[0]] + sorted[1..];
      [sorted[0]] + Insert(keys, rows, sorted[1..], row)
  }

  ghost predicate InOrder(keys: seq<nat>, rows: seq<Row>, indices: seq<nat>)
    requires AllFit(keys, rows) && InRange(indices, |rows|)
  {
    forall i, j :: 0 <= i < j < |indices| ==> RowLeq(keys, rows[indices[i]], rows[indices[j]])
  }

  lemma {:induction false} InsertInOrder(keys: seq<nat>, rows: seq<Row>, sorted: seq<nat>, row: nat)
    requires AllFit(keys, rows) && InRange(sorted, |rows|) && row < |rows|
    requires InOrder(keys, rows, sorted)
    ensures InOrder(keys, rows, Insert(keys, rows, sorted, row))
  {
    if sorted != [] {
      var head := sorted[0];
      RowOrder(keys, rows[row], rows[head], rows[head]);
      if RowLeq(keys, rows[row], rows[head]) {
        forall j | 0 <= j < |sorted|
          ensures RowLeq(keys, rows[row], rows[sorted[j]])
        {
          RowOrder(keys, rows[row], rows[head], rows[sorted[j]]);
        }
      } else {
        InsertInOrder(keys, rows, sorted[1..], row);
        var rest := Insert(keys, rows, sorted[1..], row);
        forall j | 0 <= j < |rest|
          ensures RowLeq(keys, rows[head], rows[rest[j]])
        {
          assert rest[j] in multiset(rest);
          assert rest[j] in sorted[1..] || rest[j] == row;
        }
      }
    }
  }

  /** Some order of the row numbers that sorts the rows; which one among equal rows is left open. */
  method LexsortToIndices(keys: seq<nat>, rows: seq<Row>) returns (indices: seq<nat>)
    requires AllFit(keys, rows)
    ensures Permutes(indices, |rows|) && InRange(indices, |rows|) && InOrder(keys, rows, indices)
  {
    indices := [];
    for i := 0 to |rows|
      invariant multiset(indices) == multiset(Range(i)) && InRange(indices, |rows|)
      invariant InOrder(keys, rows, indices)
    {
      InsertInOrder(keys, rows, indices, i);
      indices := Insert(keys, rows, indices, i);
    }
  }

  /** `block` is `chunk` reordered: sorted by the keys when the schema has a symbol column,
      untouched otherwise. */
  ghost predicate Reordered(schema: seq<string>, chunk: seq<Row>, block: seq<Row>) {
    && multiset(block) == multiset(chunk)
    && |block| == |chunk|
    && (if "symbol" in schema then
          AllFit(SortKeys(schema), block)
          && forall i, j :: 0 <= i < j < |block| ==> RowLeq(SortKeys(schema), block[i], block[j])
        else
          block == chunk)
  }

  /** The columns of `batch` gathered at `indices`. */
  function Take(batch: Batch, indices: seq<nat>): Batch
    requires BatchValid(batch) && InRange(indices, batch.count) && |indices| == batch.count
  {
    Batch(batch.schema,
      seq(|batch.columns|, j requires 0 <= j < |batch.columns| => Gather(batch.columns[j], indices)),
      batch.count)
  }

  /** Gathering every column gathers the rows. */
  lemma TakeRows(batch: Batch, indices: seq<nat>)
    requires BatchValid(batch) && InRange(indices, batch.count) && |indices| == batch.count
    ensures BatchValid(Take(batch, indices))
    ensures BatchRows(Take(batch, indices)) == Gather(BatchRows(batch), indices)
  {
    var t := Take(batch, indices);
    forall i | 0 <= i < t.count
      ensures RowAt(t, i) == RowAt(batch, indices[i])
    {
    }
  }

  /** The row numbers in order give the rows in order. */
  lemma TakeReorders(batch: Batch, indices: seq<nat>)
    requires BatchValid(batch) && "symbol" in batch.schema && AllFit(SortKeys(batch.schema), BatchRows(batch))
    requires Permutes(indices, batch.count) && InRange(indices, batch.count) && |indices| == batch.count
    requires InOrder(SortKeys(batch.schema), BatchRows(batch), indices)
    ensures BatchValid(Take(batch, indices))
    ensures Reordered(batch.schema, BatchRows(batch), BatchRows(Take(batch, indices)))
  {
    hide SortKeys, BatchRows, Take, RowLeq, Permutes;
    TakeRows(batch, indices);
    PermutationKeeps(BatchRows(batch), indices);
  }

  /** Takes the rows column by column. */
  method TakeColumns(batch: Batch, indices: seq<nat>) returns (r: Batch)
    requires BatchValid(batch) && InRange(indices, batch.count) && |indices| == batch.count
    ensures r == Take(batch, indices)
  {
    var columns := [];
    for j := 0 to |batch.columns|
      invariant |columns| == j
      invariant forall c :: 0 <= c < j ==> columns[c] == Gather(batch.columns[c], indices)
    {
      columns := columns + [Gather(batch.columns[j], indices)];
    }
    r := Batch(batch.schema, columns, batch.count);
  }

  method ReorderBatch(batch: Batch) returns (r: Batch)
    requires BatchValid(batch)
    ensures BatchValid(r) && r.schema == batch.schema
    ensures Reordered(batch.schema, BatchRows(batch), BatchRows(r))
  {
    if "symbol" !in batch.schema {
      return batch;
    }
    var indices := LexsortToIndices(SortKeys(batch.schema), BatchRows(batch));
    hide SortKeys, Reordered, InOrder, AllFit, RowLeq;
    PermutesInRange(indices, batch.count);
    TakeReorders(batch, indices);
    r := TakeColumns(batch, indices);
  }

  // ---------------------------------------------------------------------------------------
  // What the order is

  /** The columns that decide, in this order. */
  const KEY_COLUMNS := ["symbol", "event_time", "observed_at", "received_at"]

  /** The row's cell in the first column of that name. */
  function CellIn(schema: seq<string>, row: Row, name: string): Cell
    requires name in schema && |row| == |schema|
  {
    row[IndexOf(schema, name).value]
  }

  /** Neither cell comes before the other. */
  predicate Level(a: Cell, b: Cell) {
    CellLeq(a, b) && CellLeq(b, a)
  }

  /** Nulls come first, numbers grow, texts are in lexicographic order. */
  lemma CellOrderMeans(a: Cell, b: Cell)
    ensures a.Null? ==> CellLeq(a, b) && (CellLeq(b, a) <==> b.Null?)
    ensures a.Int? && b.Int? ==> (CellLeq(a, b) <==> a.number <= b.number)
    ensures a.Text? && b.Text? && Text.Less(a.text, b.text) ==> CellLeq(a, b) && !CellLeq(b, a)
    ensures a.Text? && b.Text? && a.text == b.text ==> Level(a, b)
    ensures a == Flag(false) && b == Flag(true) ==> CellLeq(a, b) && !CellLeq(b, a)
  {
    if a.Text? && b.Text? {
      Text.LessOrder(a.text, b.text, b.text);
    }
  }

  /** The rows agree in the key columns before number `n` that there are. */
  ghost predicate AgreeBefore(schema: seq<string>, a: Row, b: Row, n: nat)
    requires n <= 4 && |a| == |b| == |schema|
  {
    forall m :: 0 <= m < n && KEY_COLUMNS[m] in schema ==>
      Level(CellIn(schema, a, KEY_COLUMNS[m]), CellIn(schema, b, KEY_COLUMNS[m]))
  }

  /** The indices of the key columns from number `k` on that there are. */
  function KeyPart(schema: seq<string>, k: nat): (r: seq<nat>)
    requires k <= 4
    ensures forall i :: 0 <= i < |r| ==> r[i] < |schema|
    decreases 4 - k
  {
    if k == 4 then []
    else
      (match IndexOf(schema, KEY_COLUMNS[k]) case Some(i) => [i] case None => []) + KeyPart(schema, k + 1)
  }

  lemma KeysInOrder(schema: seq<string>)
    requires "symbol" in schema
    ensures SortKeys(schema) == KeyPart(schema, 0)
  {
    assert TIME_COLUMNS[1..] == ["observed_at", "received_at"] && TIME_COLUMNS[1..][1..] == ["received_at"];
    assert |TIME_COLUMNS[1..][1..][1..]| == 0;
    assert Present(schema, TIME_COLUMNS[1..][1..]) == KeyPart(schema, 3);
    assert Present(schema, TIME_COLUMNS[1..]) == KeyPart(schema, 2);
    assert Present(schema, TIME_COLUMNS) == KeyPart(schema, 1);
  }

  lemma {:induction false} KeyDecides(schema: seq<string>, a: Row, b: Row, k: nat, n: nat)
    requires k <= n < 4 && |a| == |b| == |schema| && KEY_COLUMNS[n] in schema
    requires RowLeq(KeyPart(schema, k), a, b) && AgreeBefore(schema, a, b, n)
    ensures CellLeq(CellIn(schema, a, KEY_COLUMNS[n]), CellIn(schema, b, KEY_COLUMNS[n]))
    decreases n - k
  {
    hide CellLeq;
    var rest := KeyPart(schema, k + 1);
    match IndexOf(schema, KEY_COLUMNS[k])
    case Some(index) =>
      assert KeyPart(schema, k)[1..] == rest && KeyPart(schema, k)[0] == index;
      if k < n {
        assert Level(CellIn(schema, a, KEY_COLUMNS[k]), CellIn(schema, b, KEY_COLUMNS[k]));
        KeyDecides(schema, a, b, k + 1, n);
      }
    case None =>
      assert KeyPart(schema, k) == rest;
      KeyDecides(schema, a, b, k + 1, n);
  }

  /** Of two rows of a reordered batch the earlier one has the smaller cell in the first of the key
      columns in which they differ. */
  lemma OrderMeans(schema: seq<string>, chunk: seq<Row>, block: seq<Row>, i: nat, j: nat, n: nat)
    requires Reordered(schema, chunk, block) && "symbol" in schema && Rectangular(schema, block)
    requires i < j < |block| && n < 4 && KEY_COLUMNS[n] in schema && AgreeBefore(schema, block[i], block[j], n)
    ensures CellLeq(CellIn(schema, block[i], KEY_COLUMNS[n]), CellIn(schema, block[j], KEY_COLUMNS[n]))
  {
    var a, b := block[i], block[j];
    var keys := SortKeys(schema);
    assert RowLeq(keys, a, b);
    KeysInOrder(schema);
    hide Reordered, SortKeys, CellLeq;
    assert keys == KeyPart(schema, 0);
    KeyDecides(schema, a, b, 0, n);
  }

  // ---------------------------------------------------------------------------------------
  // Merging the sources of a partition

  /** The reader's batches: full ones, then what is left. */
  function Chunks(rows: seq<Row>, size: nat): (r: seq<seq<Row>>)
    requires size > 0
    decreases |rows|
  {
    if |rows| <= size then (if rows == [] then [] else [rows])
    else [rows[..size]] + Chunks(rows[size..], size)
  }

  function AllChunks(files: seq<File>, size: nat): seq<seq<Row>>
    requires size > 0
  {
    if files == [] then [] else Chunks(files[0].rows, size) + AllChunks(files[1..], size)
  }

  function AllRows(files: seq<File>): seq<Row> {
    if files == [] then [] else files[0].rows + AllRows(files[1..])
  }

  /** `out` is the given chunks, each reordered, one after the other. */
  ghost predicate Blockwise(schema: seq<string>, chunks: seq<seq<Row>>, out: seq<Row>) {
    if chunks == [] then out == []
    else
      && |chunks[0]| <= |out|
      && Reordered(schema, chunks[0], out[..|chunks[0]|])
      && Blockwise(schema, chunks[1..], out[|chunks[0]|..])
  }

  function Joined(chunks: seq<seq<Row>>): seq<Row> {
    if chunks == [] then [] else chunks[0] + Joined(chunks[1..])
  }

  lemma {:induction false} JoinedAppend(a: seq<seq<Row>>, b: seq<seq<Row>>)
    ensures Joined(a + b) == Joined(a) + Joined(b)
  {
    if a == [] {
      assert a + b == b;
    } else {
      JoinedAppend(a[1..], b);
      assert (a + b)[1..] == a[1..] + b;
    }
  }

  lemma {:induction false} ChunksJoin(rows: seq<Row>, size: nat)
    requires size > 0
    ensures Joined(Chunks(rows, size)) == rows
    ensures forall chunk <- Chunks(rows, size) :: 0 < |chunk| <= size
    ensures forall k :: 0 <= k < |Chunks(rows, size)| - 1 ==> |Chunks(rows, size)[k]| == size
    decreases |rows|
  {
    if |rows| <= size {
      assert Joined([]) == [];
    } else {
      var first, rest := rows[..size], rows[size..];
      ChunksJoin(rest, size);
      var more := Chunks(rest, size);
      assert Chunks(rows, size) == [first] + more;
      hide Chunks;
      assert ([first] + more)[1..] == more;
      assert Joined([first] + more) == first + Joined(more);
    }
  }

  lemma {:induction false} AllChunksJoin(files: seq<File>, size: nat)
    requires size > 0
    ensures Joined(AllChunks(files, size)) == AllRows(files)
  {
    if files != [] {
      AllChunksJoin(files[1..], size);
      ChunksJoin(files[0].rows, size);
      JoinedAppend(Chunks(files[0].rows, size), AllChunks(files[1..], size));
    }
  }

  lemma BlockwiseCons(schema: seq<string>, first: seq<Row>, more: seq<seq<Row>>, head: seq<Row>, tail: seq<Row>)
    requires Reordered(schema, first, head) && |first| == |head| && Blockwise(schema, more, tail)
    ensures Blockwise(schema, [first] + more, head + tail)
  {
    hide Reordered;
    var chunks, out := [first] + more, head + tail;
    assert chunks[1..] == more && out[..|first|] == head && out[|first|..] == tail;
  }

  lemma ReorderedLength(schema: seq<string>, chunk: seq<Row>, block: seq<Row>)
    requires Reordered(schema, chunk, block)
    ensures |chunk| == |block|
  {
    assert |multiset(chunk)| == |multiset(block)|;
  }

  lemma BlockwiseParts(schema: seq<string>, chunks: seq<seq<Row>>, out: seq<Row>)
    requires Blockwise(schema, chunks, out)
    ensures chunks == [] ==> out == []
    ensures chunks != [] ==>
      && |chunks[0]| <= |out|
      && Reordered(schema, chunks[0], out[..|chunks[0]|])
      && Blockwise(schema, chunks[1..], out[|chunks[0]|..])
  {
    hide Reordered;
  }

  lemma BlockwiseNone(schema: seq<string>)
    ensures Blockwise(schema, [], [])
  {
  }

  lemma {:induction false} BlockwiseAppend(schema: seq<string>, chunks: seq<seq<Row>>, out: seq<Row>,
                                             chunk: seq<Row>, block: seq<Row>)
    requires Blockwise(schema, chunks, out) && Reordered(schema, chunk, block)
    ensures Blockwise(schema, chunks + [chunk], out + block)
  {
    hide Blockwise, Reordered;
    BlockwiseParts(schema, chunks, out);
    if chunks == [] {
      ReorderedLength(schema, chunk, block);
      BlockwiseNone(schema);
      BlockwiseCons(schema, chunk, [], block, []);
      assert [chunk] + [] == chunks + [chunk] && block + [] == out + block;
    } else {
      var n := |chunks[0]|;
      var more, head, tail := chunks[1..], out[..n], out[n..];
      BlockwiseAppend(schema, more, tail, chunk, block);
      BlockwiseCons(schema, chunks[0], more + [chunk], head, tail + block);
      assert [chunks[0]] + (more + [chunk]) == chunks + [chunk] && head + (tail + block) == out + block;
    }
  }

  lemma {:induction false} BlockwiseJoin(schema: seq<string>, a: seq<seq<Row>>, front: seq<Row>,
                                           b: seq<seq<Row>>, back: seq<Row>)
    requires Blockwise(schema, a, front) && Blockwise(schema, b, back)
    ensures Blockwise(schema, a + b, front + back)
  {
    hide Blockwise, Reordered;
    BlockwiseParts(schema, a, front);
    if a == [] {
      assert a + b == b && front + back == back;
    } else {
      var n := |a[0]|;
      BlockwiseJoin(schema, a[1..], front[n..], b, back);
      ReorderedLength(schema, a[0], front[..n]);
      BlockwiseCons(schema, a[0], a[1..] + b, front[..n], front[n..] + back);
      assert [a[0]] + (a[1..] + b) == a + b && front[..n] + (front[n..] + back) == front + back;
    }
  }

  /** The merged file has exactly the rows of its sources, with their multiplicities. */
  lemma {:induction false} BlockwiseKeeps(schema: seq<string>, chunks: seq<seq<Row>>, out: seq<Row>)
    requires Blockwise(schema, chunks, out)
    ensures multiset(out) == multiset(Joined(chunks)) && |out| == |Joined(chunks)|
  {
    if chunks != [] {
      var n := |chunks[0]|;
      BlockwiseKeeps(schema, chunks[1..], out[n..]);
      assert out == out[..n] + out[n..];
    }
  }

  datatype MergeError = DownloadFailed(index: nat) | SchemaMismatch(index: nat) | NoSources

  datatype Merged = Merged(schema: seq<string>, rows: seq<Row>, count: nat)

  predicate Arrived(downloads: seq<Option<File>>, n: nat)
    requires n <= |downloads|
  {
    forall i :: 0 <= i < n ==> downloads[i].Some?
  }

  /** The first `n` downloads. */
  function Files(downloads: seq<Option<File>>, n: nat): seq<File>
    requires n <= |downloads| && Arrived(downloads, n)
  {
    seq(n, i requires 0 <= i < n => downloads[i].value)
  }

  /** Download `i` arrived and has the schema of the first one. */
  predicate Usable(downloads: seq<Option<File>>, i: nat)
    requires i < |downloads|
  {
    downloads[i].Some? && downloads[0].Some? && downloads[i].value.schema == downloads[0].value.schema
  }

  lemma {:induction false} AllChunksAppend(files: seq<File>, file: File, size: nat)
    requires size > 0
    ensures AllChunks(files + [file], size) == AllChunks(files, size) + Chunks(file.rows, size)
    ensures AllRows(files + [file]) == AllRows(files) + file.rows
  {
    hide Chunks;
    if files == [] {
      assert (files + [file])[1..] == [];
    } else {
      AllChunksAppend(files[1..], file, size);
      assert (files + [file])[1..] == files[1..] + [file];
    }
  }

  /** One batch: read as columns, reordered, and written as rows. */
  method ReorderChunk(schema: seq<string>, chunk: seq<Row>) returns (block: seq<Row>)
    requires Rectangular(schema, chunk)
    ensures Reordered(schema, chunk, block)
  {
    FromRowsKeeps(schema, chunk);
    var batch := ReorderBatch(FromRows(schema, chunk));
    block := BatchRows(batch);
  }

  lemma NextChunk(schema: seq<string>, before: seq<seq<Row>>, chunks: seq<seq<Row>>, i: nat,
                  out: seq<Row>, block: seq<Row>)
    requires i < |chunks| && Blockwise(schema, before + chunks[..i], out) && Reordered(schema, chunks[i], block)
    ensures Blockwise(schema, before + chunks[..i + 1], out + block)
  {
    hide Blockwise, Reordered;
    BlockwiseAppend(schema, before + chunks[..i], out, chunks[i], block);
    assert before + chunks[..i] + [chunks[i]] == before + chunks[..i + 1];
  }

  lemma {:induction false} ChunkRectangular(schema: seq<string>, rows: seq<Row>, size: nat, i: nat)
    requires size > 0 && Rectangular(schema, rows) && i < |Chunks(rows, size)|
    ensures Rectangular(schema, Chunks(rows, size)[i])
    decreases |rows|
  {
    if |rows| > size && i > 0 {
      ChunkRectangular(schema, rows[size..], size, i - 1);
    }
  }

  /** One source: its batches are reordered and written in turn. */
  method WriteSource(schema: seq<string>, file: File, batchRows: nat, ghost done: seq<File>, out: seq<Row>, count: nat)
    returns (out': seq<Row>, count': nat)
    requires batchRows > 0 && file.schema == schema && Rectangular(schema, file.rows)
    requires Blockwise(schema, AllChunks(done, batchRows), out) && count == Capped(|out|)
    ensures Blockwise(schema, AllChunks(done + [file], batchRows), out')
    ensures count' == Capped(|out'|)
  {
    hide Reordered, Blockwise, AllChunks, Chunks, Rectangular;
    out', count' := out, count;
    ghost var before := AllChunks(done, batchRows);
    AllChunksAppend(done, file, batchRows);
    var chunks := Chunks(file.rows, batchRows);
    assert before + chunks[..0] == before;
    for i := 0 to |chunks|
      invariant Blockwise(schema, before + chunks[..i], out') && count' == Capped(|out'|)
    {
      ChunkRectangular(schema, file.rows, batchRows, i);
      var block := ReorderChunk(schema, chunks[i]);
      NextChunk(schema, before, chunks, i, out', block);
      count' := SaturatingAdd(count', |block|);
      out' := out' + block;
    }
    assert chunks[..|chunks|] == chunks;
  }

  /** The merge after `index` sources. */
  ghost predicate Progress(downloads: seq<Option<File>>, index: nat, batchRows: nat, m: Merged)
    requires batchRows > 0 && index <= |downloads|
  {
    && (forall i :: 0 <= i < index ==> Usable(downloads, i))
    && Arrived(downloads, index)
    && Blockwise(m.schema, AllChunks(Files(downloads, index), batchRows), m.rows)
    && m.count == Capped(|m.rows|)
    && (index > 0 ==> m.schema == downloads[0].value.schema)
  }

  lemma FilesStep(downloads: seq<Option<File>>, n: nat)
    requires n < |downloads| && Arrived(downloads, n) && downloads[n].Some?
    ensures Arrived(downloads, n + 1) && Files(downloads, n + 1) == Files(downloads, n) + [downloads[n].value]
  {
  }

  /** One turn of the merge loop. */
  method MergeSource(downloads: seq<Option<File>>, index: nat, batchRows: nat, m: Merged)
    returns (r: Result<Merged, MergeError>)
    requires batchRows > 0 && index < |downloads| && Progress(downloads, index, batchRows, m)
    requires downloads[index].Some? ==> Rectangular(downloads[index].value.schema, downloads[index].value.rows)
    ensures r.Ok? <==> Usable(downloads, index)
    ensures r.Ok? ==> Progress(downloads, index + 1, batchRows, r.value)
    ensures r.Err? ==> r.error == if downloads[index].None? then DownloadFailed(index) else SchemaMismatch(index)
  {
    if downloads[index].None? {
      return Err(DownloadFailed(index));
    }
    var file := downloads[index].value;
    if index > 0 && m.schema != file.schema {
      return Err(SchemaMismatch(index));
    }
    ghost var done := Files(downloads, index);
    assert index == 0 ==> done == [] && Blockwise(file.schema, [], []);
    var rows, count := WriteSource(file.schema, file, batchRows, done, m.rows, m.count);
    FilesStep(downloads, index);
    return Ok(Merged(file.schema, rows, count));
  }

  /** Merges the downloaded sources in order. Succeeds exactly when there is at least one,
      every one arrived and all have the first one's schema; reports the first that does not. */
  method Merge(downloads: seq<Option<File>>, batchRows: nat) returns (r: Result<Merged, MergeError>)
    requires batchRows > 0
    requires forall i :: 0 <= i < |downloads| && downloads[i].Some? ==>
      Rectangular(downloads[i].value.schema, downloads[i].value.rows)
    ensures r.Ok? <==> downloads != [] && forall i :: 0 <= i < |downloads| ==> Usable(downloads, i)
    ensures r.Ok? ==>
      && Arrived(downloads, |downloads|)
      && r.value.schema == downloads[0].value.schema
      && Blockwise(r.value.schema, AllChunks(Files(downloads, |downloads|), batchRows), r.value.rows)
      && r.value.count == Capped(|AllRows(Files(downloads, |downloads|))|)
    ensures r == Err(NoSources) <==> downloads == []
    ensures r.Err? && r.error != NoSources ==>
      && r.error.index < |downloads|
      && !Usable(downloads, r.error.index)
      && (r.error.DownloadFailed? <==> downloads[r.error.index].None?)
      && forall i :: 0 <= i < r.error.index ==> Usable(downloads, i)
  {
    var m := Merged([], [], 0);
    for index := 0 to |downloads|
      invariant Progress(downloads, index, batchRows, m)
    {
      var next := MergeSource(downloads, index, batchRows, m);
      if next.Err? {
        return next;
      }
      m := next.value;
    }
    if downloads == [] {
      return Err(NoSources);
    }
    AllChunksJoin(Files(downloads, |downloads|), batchRows);
    BlockwiseKeeps(m.schema, AllChunks(Files(downloads, |downloads|), batchRows), m.rows);
    return Ok(m);
  }

  /** Whether the row count read back from the output passes the check. */
  predicate OutputVerified(rowsInFile: nat, expected: nat) {
    rowsInFile == expected
  }

  /** A merged file has the rows of its sources with their multiplicities, and its count check
      passes exactly when the row count fits the counter. */
  lemma MergedRows(schema: seq<string>, files: seq<File>, batchRows: nat, out: seq<Row>)
    requires batchRows > 0 && Blockwise(schema, AllChunks(files, batchRows), out)
    ensures multiset(out) == multiset(AllRows(files))
    ensures OutputVerified(|out|, Capped(|AllRows(files)|)) <==> |AllRows(files)| < U64
  {
    AllChunksJoin(files, batchRows);
    BlockwiseKeeps(schema, AllChunks(files, batchRows), out);
  }
}
