/**
 The compaction of one partition as the program that runs it: probe for the success marker,
 merge, upload, retain and check every source, put the marker, delete the sources in chunks.
 Around every request the producer may put new segments and S3 may expire retained copies,
 and every request may fail, with or without effect. The program follows the attempts of
 module `Compaction` step by step, so it inherits their accounting of rows.
 */
module CompactionTask {
  import opened Compaction
  import opened Rows
  import opened Wrappers
  import Merge
  import Text

  /** What happens before a request reaches S3. */
  datatype Foreign = Arrives(name: string, file: File) | Expires(name: string)

  /** How S3 answers it: `lost` are the objects that a failed deletion has deleted all the same. */
  datatype Answer = Granted | Denied(applied: bool, lost: set<string>)

  /** Why a merge fails: a request was refused, an input is not there or has another schema than
      the ones before it, or there is nothing to merge. */
  datatype MergeError = Refused | Missing(input: nat) | Mismatch(input: nat) | NoInput

  datatype Turn = Turn(between: seq<Foreign>, answer: Answer)

  /** Segment names are fresh: a name put before is not put again. */
  function Meanwhile(p: Part, f: Foreign): Part {
    match f
    case Arrives(name, file) => if name in p.uploaded then p else Put(p, name, file)
    case Expires(name) => Expire(p, name)
  }

  // ---------------------------------------------------------------------------------------
  // The invariant for all rows at once

  /** The attempt `a` is under way, every row with its debt, and what it deleted stays deleted. */
  ghost predicate Sound(p: Part, a: Attempt, debt: Row -> nat) {
    Removed(a) !! p.segments.Keys && forall row: Row :: Underway(p, a, debt(row), row)
  }

  ghost predicate AllSettled(p: Part, debt: Row -> nat) {
    forall row: Row :: Settled(p, debt(row), row)
  }

  lemma SoundShaped(p: Part, a: Attempt, debt: Row -> nat)
    requires Sound(p, a, debt)
    ensures Shaped(p, a)
  {
    assert Underway(p, a, debt([]), []);
  }

  lemma SoundStart(p: Part, sources: seq<Source>, debt: Row -> nat)
    requires AllSettled(p, debt) && Distinct(sources) && Names(sources) <= p.segments.Keys
    ensures Sound(p, Attempt(sources, false, Probing), debt)
  {
    forall row: Row ensures Underway(p, Attempt(sources, false, Probing), debt(row), row) {
      Start(p, sources, debt(row), row);
    }
  }

  lemma SoundAdvance(p: Part, a: Attempt, c: Choice, debt: Row -> nat)
    requires Sound(p, a, debt) && CanAdvance(p, a, c)
    ensures Sound(Advance(p, a, c).0, Advance(p, a, c).1, debt)
  {
    RemovedAdvances(p, a, c);
    forall row: Row ensures Underway(Advance(p, a, c).0, Advance(p, a, c).1, debt(row), row) {
      AdvanceKeeps(p, a, c, debt(row), row);
    }
  }

  lemma SoundMeanwhile(p: Part, a: Attempt, f: Foreign, debt: Row -> nat)
    requires Sound(p, a, debt)
    ensures Sound(Meanwhile(p, f), a, debt)
  {
    SoundShaped(p, a, debt);
    RemovedWasPut(p, a);
    forall row: Row ensures Underway(Meanwhile(p, f), a, debt(row), row) {
      if f.Expires? {
        ExpireKeeps(p, a, f.name, debt(row), row);
      } else if f.name !in p.uploaded {
        PutKeeps(p, a, f.name, f.file, debt(row), row);
      }
    }
  }

  /** An attempt that failed before its output became visible costs nothing. */
  lemma EarlyFailure(p: Part, a: Attempt, applied: bool, lost: set<string>, debt: Row -> nat)
    requires Sound(p, a, debt) && !Committed(a) && !CommitsLate(a, applied)
    ensures AllSettled(Failed(p, a, applied, lost), debt)
  {
    forall row: Row ensures Settled(Failed(p, a, applied, lost), debt(row), row) {
      EndKeeps(p, a, applied, lost, debt(row), row);
      assert Only(p.uploaded, {}) == map[];
    }
  }

  /** A finished attempt costs nothing and has deleted all its sources. */
  lemma Completed(p: Part, a: Attempt, debt: Row -> nat)
    requires Sound(p, a, debt) && a.phase.Finished?
    ensures AllSettled(p, debt) && p.marked
    ensures Names(a.sources) !! p.segments.Keys && Names(a.sources) <= p.checked
  {
    SoundShaped(p, a, debt);
    forall row: Row ensures Settled(p, debt(row), row) {
      EndKeeps(p, a, false, {}, debt(row), row);
      assert Names(a.sources) * p.segments.Keys == {};
      assert Only(p.uploaded, {}) == map[];
    }
  }

  // ---------------------------------------------------------------------------------------
  // What the merge is to write

  /** The file that was put under the name. */
  function FileOf(p: Part, name: string): File {
    if name in p.uploaded then p.uploaded[name] else File([], [], 0)
  }

  /** What a merge reads: the old output if the marker exists, then every source in turn. */
  function Expected(p: Part, sources: seq<Source>): seq<File> {
    (if p.marked && p.output.Some? then [p.output.value] else [])
      + seq(|sources|, k requires 0 <= k < |sources| => FileOf(p, sources[k].name))
  }

  /** The files in batches of `batchRows` rows, each batch reordered, one after the other. A Parquet
      file is rectangular. */
  ghost predicate InBatches(schema: seq<string>, files: seq<File>, batchRows: nat, rows: seq<Row>)
    requires batchRows > 0
  {
    (forall file <- files :: Merge.Rectangular(file.schema, file.rows)) ==>
      Merge.Blockwise(schema, Merge.AllChunks(files, batchRows), rows)
  }

  lemma InBatchesNext(schema: seq<string>, files: seq<File>, batchRows: nat, rows: seq<Row>,
                      file: File, block: seq<Row>)
    requires batchRows > 0 && InBatches(schema, files, batchRows, rows)
    requires Merge.Rectangular(file.schema, file.rows) ==>
      Merge.Blockwise(schema, Merge.Chunks(file.rows, batchRows), block)
    ensures InBatches(schema, files + [file], batchRows, rows + block)
  {
    hide Merge.Rectangular, Merge.Blockwise, Merge.AllChunks, Merge.Chunks;
    if forall each <- files + [file] :: Merge.Rectangular(each.schema, each.rows) {
      assert forall each <- files :: each in files + [file];
      assert file in files + [file];
      Merge.AllChunksAppend(files, file, batchRows);
      Merge.BlockwiseJoin(schema, Merge.AllChunks(files, batchRows), rows, Merge.Chunks(file.rows, batchRows), block);
    }
  }

  /** Nothing that was put before has another content now, and the output and the marker are as before. */
  ghost predicate Steady(before: Part, after: Part) {
    && after.output == before.output && after.marked == before.marked
    && forall name <- before.uploaded :: name in after.uploaded && after.uploaded[name] == before.uploaded[name]
  }

  lemma ExpectedSteady(before: Part, after: Part, sources: seq<Source>)
    requires Steady(before, after) && Names(sources) <= before.uploaded.Keys
    ensures Expected(after, sources) == Expected(before, sources)
  {
    forall k | 0 <= k < |sources| ensures FileOf(after, sources[k].name) == FileOf(before, sources[k].name) {
      assert sources[k].name in Names(sources);
    }
  }

  /** The pending merge input is the next of the expected files. */
  lemma InputExpected(before: Part, p: Part, a: Attempt, i: nat)
    requires Shaped(p, a) && a.phase.Merging? && i < Inputs(a) && Steady(before, p)
    requires Names(a.sources) <= before.uploaded.Keys
    ensures Input(p, a, i).Some? && |Expected(before, a.sources)| == Inputs(a)
    ensures Input(p, a, i).value == Expected(before, a.sources)[i]
  {
    var k := if a.remerge then i - 1 else i;
    if k >= 0 {
      assert a.sources[k].name in Names(a.sources);
    }
  }

  /** The sources by name. */
  predicate ByName(sources: seq<Source>) {
    forall i, j :: 0 <= i < j < |sources| ==> !Text.Less(sources[j].name, sources[i].name)
  }

  function InsertByName(source: Source, sources: seq<Source>): seq<Source> {
    if sources == [] || !Text.Less(sources[0].name, source.name) then [source] + sources
    else [sources[0]] + InsertByName(source, sources[1..])
  }

  lemma {:induction false} InsertByNameKeeps(source: Source, sources: seq<Source>)
    requires ByName(sources)
    ensures ByName(InsertByName(source, sources))
    ensures multiset(InsertByName(source, sources)) == multiset{source} + multiset(sources)
  {
    var r := InsertByName(source, sources);
    if sources != [] {
      var head, rest := sources[0], sources[1..];
      assert sources == [head] + rest;
      if Text.Less(head.name, source.name) {
        InsertByNameKeeps(source, rest);
        var more := InsertByName(source, rest);
        Text.LessOrder(head.name, source.name, source.name);
        forall j | 0 <= j < |more| ensures !Text.Less(more[j].name, head.name) {
          assert more[j] in multiset(more);
          assert more[j] == source || more[j] in rest;
        }
      } else {
        forall j | 0 <= j < |sources| ensures !Text.Less(sources[j].name, source.name) {
          Text.LessOrder(source.name, head.name, sources[j].name);
        }
      }
    }
  }

  method SortByName(sources: seq<Source>) returns (sorted: seq<Source>)
    ensures ByName(sorted) && multiset(sorted) == multiset(sources)
  {
    sorted := [];
    for i := 0 to |sources|
      invariant ByName(sorted) && multiset(sorted) == multiset(sources[..i])
    {
      InsertByNameKeeps(sources[i], sorted);
      sorted := InsertByName(sources[i], sorted);
      assert sources[..i + 1] == sources[..i] + [sources[i]];
    }
    assert sources[..|sources|] == sources;
  }

  lemma {:induction false} NamesCount(sources: seq<Source>)
    ensures |Names(sources)| <= |sources|
    ensures Distinct(sources) <==> |Names(sources)| == |sources|
  {
    if sources != [] {
      var n := |sources| - 1;
      var front, last := sources[..n], sources[n];
      NamesCount(front);
      assert sources == front + [last];
      assert Names(sources) == Names(front) + {last.name};
      if last.name in Names(front) {
        assert Names(sources) == Names(front);
      }
    }
  }

  lemma SameNames(a: seq<Source>, b: seq<Source>)
    requires multiset(a) == multiset(b)
    ensures Names(a) == Names(b) && (Distinct(a) ==> Distinct(b))
  {
    assert forall x :: x in a <==> x in multiset(a);
    assert forall x :: x in b <==> x in multiset(b);
    assert |multiset(a)| == |multiset(b)|;
    NamesCount(a);
    NamesCount(b);
  }

  // ---------------------------------------------------------------------------------------
  // The program

  /** The rows of one source, batch by batch in merge order. A Parquet file is rectangular. */
  method ReadSource(file: File, batchRows: nat) returns (block: seq<Row>)
    requires batchRows > 0
    ensures multiset(block) == multiset(file.rows)
    ensures Merge.Rectangular(file.schema, file.rows) ==>
      Merge.Blockwise(file.schema, Merge.Chunks(file.rows, batchRows), block)
  {
    if !Merge.Rectangular(file.schema, file.rows) {
      return file.rows;
    }
    var count;
    Merge.AllChunksAppend([], file, batchRows);
    assert [] + [file] == [file];
    block, count := Merge.WriteSource(file.schema, file, batchRows, [], [], 0);
    Merge.ChunksJoin(file.rows, batchRows);
    assert Merge.AllChunks([], batchRows) + Merge.Chunks(file.rows, batchRows) == Merge.Chunks(file.rows, batchRows);
    Merge.BlockwiseKeeps(file.schema, Merge.Chunks(file.rows, batchRows), block);
  }

  class Compactor {
    const batchRows: nat
    /** The surplus copies of each row when the program starts. */
    ghost const debt: Row -> nat
    var p: Part
    var script: seq<Turn>
    ghost var a: Attempt
    ghost var last: Part
    ghost var applied: bool
    ghost var lost: set<string>
    /** How S3 answered the latest request. */
    ghost var reply: Answer

    constructor (batchRows: nat, p: Part, script: seq<Turn>, ghost debt: Row -> nat)
      ensures this.batchRows == batchRows && this.p == p && this.script == script && this.debt == debt
    {
      this.batchRows, this.p, this.script, this.debt := batchRows, p, script, debt;
    }

    /** The pending request of the attempt failed, and the partition is as that leaves it. */
    ghost predicate Stopped()
      reads this
    {
      Sound(last, a, debt) && p == Failed(last, a, applied, lost)
    }

    ghost predicate Goes(phase: Phase, was: Attempt)
      reads this
    {
      Sound(p, a, debt) && a == was.(phase := phase)
    }

    /** The only causes of a failure: the latest request was refused, an input has another schema
        than those before it, there is nothing to merge, or a copy has expired or has another size
        than the source was listed with. */
    ghost predicate Obstructed()
      reads this
    {
      || reply.Denied?
      || (match a.phase
          case Merging(i, schema, _) =>
            if i < Inputs(a) then
              schema.Some? && Input(last, a, i).Some? && Input(last, a, i).value.schema != schema.value
            else
              a.sources == [] && !a.remerge
          case Verifying(i) =>
            i < |a.sources| && (a.sources[i].name in last.retained ==>
              last.retained[a.sources[i].name].bytes != a.sources[i].bytes)
          case _ => false)
    }

    /** The world moves on until S3 answers the next request; a script that has run out refuses. */
    method Await() returns (answer: Answer)
      requires Sound(p, a, debt)
      modifies this`p, this`script, this`reply
      ensures Sound(p, a, debt) && Steady(old(p), p) && answer == reply
      ensures answer == if old(script) == [] then Denied(false, {}) else old(script)[0].answer
      ensures script == if old(script) == [] then [] else old(script)[1..]
    {
      if script == [] {
        reply := Denied(false, {});
        return Denied(false, {});
      }
      var turn := script[0];
      script := script[1..];
      for k := 0 to |turn.between|
        invariant Sound(p, a, debt) && Steady(old(p), p) && script == old(script)[1..]
      {
        SoundMeanwhile(p, a, turn.between[k], debt);
        p := Meanwhile(p, turn.between[k]);
      }
      reply := turn.answer;
      return turn.answer;
    }

    /** Gives up for a reason other than a failed write. */
    ghost method GiveUp()
      requires Sound(p, a, debt)
      modifies this`last, this`applied, this`lost
      ensures Stopped() && !applied && last == p
    {
      last, applied, lost := p, false, {};
    }

    method Exists() returns (found: Option<bool>)
      requires Sound(p, a, debt) && a.phase.Probing?
      modifies this
      ensures Steady(old(p), p)
      ensures found.None? ==> a == old(a) && Stopped() && reply.Denied?
      ensures found.Some? ==> Sound(p, a, debt) && p.marked == found.value && |script| + 1 == |old(script)|
      ensures found.Some? ==>
        a == old(a).(remerge := found.value, phase := if found.value then Heading else Merging(0, None, []))
    {
      var answer := Await();
      if answer.Denied? {
        GiveUp();
        return None;
      }
      SoundAdvance(p, a, NO_CHOICE, debt);
      a := Advance(p, a, NO_CHOICE).1;
      return Some(p.marked);
    }

    method HeadOutput() returns (ok: bool)
      requires Sound(p, a, debt) && a.phase.Heading?
      modifies this
      ensures Steady(old(p), p)
      ensures if ok then Goes(Merging(0, None, []), old(a)) else a == old(a) && Stopped() && reply.Denied?
      ensures ok ==> |script| + 1 == |old(script)|
    {
      var answer := Await();
      SoundShaped(p, a, debt);
      if answer.Denied? || p.output.None? {
        GiveUp();
        return false;
      }
      SoundAdvance(p, a, NO_CHOICE, debt);
      a := Advance(p, a, NO_CHOICE).1;
      return true;
    }

    /** The merge has written the files, all of one schema, batch by batch. */
    ghost predicate Along(files: seq<File>, schema: seq<string>, rows: seq<Row>)
      requires batchRows > 0
    {
      (forall file <- files :: file.schema == schema) && InBatches(schema, files, batchRows, rows)
    }

    lemma AlongNext(files: seq<File>, i: nat, schema: Option<seq<string>>, rows: seq<Row>,
                    schema': seq<string>, rows': seq<Row>)
      requires batchRows > 0 && i < |files| && files[i].schema == schema' && rows <= rows'
      requires if i > 0 then schema == Some(schema') && Along(files[..i], schema', rows) else rows == []
      requires Merge.Rectangular(schema', files[i].rows) ==>
        Merge.Blockwise(schema', Merge.Chunks(files[i].rows, batchRows), rows'[|rows|..])
      ensures Along(files[..i + 1], schema', rows')
    {
      assert files[..i + 1] == files[..i] + [files[i]] && rows' == rows + rows'[|rows|..];
      InBatchesNext(schema', files[..i], batchRows, rows, files[i], rows'[|rows|..]);
    }

    /** The output holds the batches of the old output and of the sources, in this order. */
    ghost predicate Written(before: Part, sources: seq<Source>, encoded: nat, after: Part)
      requires batchRows > 0
    {
      && after.output.Some? && after.output.value.bytes == encoded
      && Along(Expected(before, sources), after.output.value.schema, after.output.value.rows)
    }

    /** The requests of a successful compaction: the probe, the head and the read of an old output,
        a read, a copy and a check for every source, the upload, the marker and the deletions. */
    function Requests(remerge: bool, sources: nat): nat {
      (if remerge then 2 else 0) + 3 * sources + 3 + (sources + 999) / 1000
    }

    /** What is wrong with the input at which the merge has stopped. */
    ghost predicate FailsAt(error: MergeError)
      requires a.phase.Merging? && a.phase.next < Inputs(a)
      reads this
    {
      var Merging(i, schema, _) := a.phase;
      match error
      case Refused => reply.Denied?
      case Missing(input) => input == i && reply.Granted? && Input(p, a, i).None?
      case Mismatch(input) =>
        && input == i && reply.Granted? && schema.Some? && Input(p, a, i).Some?
        && Input(p, a, i).value.schema != schema.value
      case NoInput => false
    }

    /** Reads one merge input and appends its rows, batch by batch, each batch reordered. */
    method MergeNext(sources: seq<Source>, remerge: bool, i: nat, schema: Option<seq<string>>, rows: seq<Row>)
      returns (r: Result<(seq<string>, seq<Row>), MergeError>)
      requires batchRows > 0 && Sound(p, a, debt) && a.phase == Merging(i, schema, rows)
      requires a.sources == sources && a.remerge == remerge && i < |sources| + (if remerge then 1 else 0)
      modifies this
      ensures Steady(old(p), p)
      ensures r.Err? ==> a == old(a) && Stopped() && last == p
      ensures r.Ok? ==> Goes(Merging(i + 1, Some(r.value.0), r.value.1), old(a)) && |script| + 1 == |old(script)|
      ensures Inputs(a) == Inputs(old(a)) && (r == Err(Refused) <==> reply.Denied?)
      ensures reply.Granted? ==>
        match Input(p, a, i)
        case None => r == Err(Missing(i))
        case Some(file) =>
          if schema.Some? && schema.value != file.schema then r == Err(Mismatch(i))
          else
            && r.Ok? && r.value.0 == file.schema
            && rows <= r.value.1 && multiset(r.value.1[|rows|..]) == multiset(file.rows)
            && (Merge.Rectangular(file.schema, file.rows) ==>
                  Merge.Blockwise(file.schema, Merge.Chunks(file.rows, batchRows), r.value.1[|rows|..]))
    {
      var answer := Await();
      if answer.Denied? {
        GiveUp();
        return Err(Refused);
      }
      var input: Option<File>;
      if remerge && i == 0 {
        input := p.output;
      } else {
        var name := sources[if remerge then i - 1 else i].name;
        input := if name in p.segments then Some(p.segments[name]) else None;
      }
      if input.None? {
        GiveUp();
        return Err(Missing(i));
      }
      if schema.Some? && schema.value != input.value.schema {
        GiveUp();
        return Err(Mismatch(i));
      }
      var block := ReadSource(input.value, batchRows);
      ghost var c := Choice(block, 0);
      SoundAdvance(p, a, c, debt);
      a := Advance(p, a, c).1;
      r := Ok((input.value.schema, rows + block));
      assert r.value.1[|rows|..] == block;
    }

    /** Merges all inputs in their order. On a failure `a` is the attempt at the input that failed,
        and says which schema it had to have. */
    method MergeAll(sources: seq<Source>, remerge: bool, encoded: nat) returns (r: Result<File, MergeError>)
      requires batchRows > 0 && Sound(p, a, debt) && a.phase == Merging(0, None, [])
      requires a.sources == sources && a.remerge == remerge
      modifies this
      ensures Steady(old(p), p)
      ensures r.Err? ==> a.sources == sources && a.remerge == remerge && a.phase.Merging? && Stopped() && last == p
      ensures r.Ok? ==> Goes(Uploading(r.value), old(a)) && |script| + Inputs(a) == |old(script)|
      ensures r.Ok? ==>
        var files := Expected(old(p), sources);
        && r.value.bytes == encoded && (forall file <- files :: file.schema == r.value.schema)
        && InBatches(r.value.schema, files, batchRows, r.value.rows)
      ensures r == Err(NoInput) <==> sources == [] && !remerge
      ensures r.Err? && r.error != NoInput ==>
        Inputs(a) == Inputs(old(a)) && a.phase.next < Inputs(a) && FailsAt(r.error)
      ensures r.Err? ==> Obstructed()
    {
      var schema: Option<seq<string>>, rows: seq<Row> := None, [];
      var n := |sources| + if remerge then 1 else 0;
      ghost var before, expected := p, Expected(p, sources);
      SoundShaped(p, a, debt);
      for i := 0 to n
        invariant Goes(Merging(i, schema, rows), old(a)) && Steady(before, p)
        invariant |expected| == n && |script| + i == |old(script)|
        invariant if i > 0 then schema.Some? && Along(expected[..i], schema.value, rows) else schema.None? && rows == []
      {
        var next := MergeNext(sources, remerge, i, schema, rows);
        SoundShaped(p, a, debt);
        InputExpected(before, p, a, i);
        if next.Err? {
          return Err(next.error);
        }
        AlongNext(expected, i, schema, rows, next.value.0, next.value.1);
        schema, rows := Some(next.value.0), next.value.1;
      }
      assert expected[..n] == expected;
      if schema.None? {
        GiveUp();
        return Err(NoInput);
      }
      ghost var c := Choice([], encoded);
      SoundAdvance(p, a, c, debt);
      a := Advance(p, a, c).1;
      return Ok(File(schema.value, rows, encoded));
    }

    method Upload(file: File) returns (ok: bool)
      requires Sound(p, a, debt) && a.phase == Uploading(file)
      modifies this
      ensures if ok then Goes(Retaining(0), old(a)) else a == old(a) && Stopped() && reply.Denied?
      ensures ok ==> |script| + 1 == |old(script)| && Steady(old(p).(output := Some(file)), p)
    {
      var answer := Await();
      if answer.Denied? {
        last, applied, lost := p, answer.applied, answer.lost;
        if answer.applied {
          p := p.(output := Some(file));
        }
        return false;
      }
      SoundAdvance(p, a, NO_CHOICE, debt);
      p := p.(output := Some(file));
      a := a.(phase := Retaining(0));
      return true;
    }

    /** Copies one source to the retention prefix. */
    method CopySource(sources: seq<Source>, i: nat) returns (ok: bool)
      requires Sound(p, a, debt) && a.sources == sources && i < |sources| && a.phase == Retaining(i)
      modifies this
      ensures if ok then Goes(Verifying(i), old(a)) else a == old(a) && Stopped() && reply.Denied?
      ensures ok ==> |script| + 1 == |old(script)| && Steady(old(p), p)
    {
      var answer := Await();
      SoundShaped(p, a, debt);
      var name := sources[i].name;
      assert name in Names(a.sources);
      if answer.Denied? {
        last, applied, lost := p, answer.applied, answer.lost;
        if answer.applied {
          p := p.(retained := p.retained[name := p.segments[name]]);
        }
        return false;
      }
      SoundAdvance(p, a, NO_CHOICE, debt);
      p := p.(retained := p.retained[name := p.segments[name]]);
      a := a.(phase := Verifying(i));
      return true;
    }

    /** Compares the size of the copy with the listed size of the source. */
    method VerifyCopy(sources: seq<Source>, i: nat) returns (ok: bool)
      requires Sound(p, a, debt) && a.sources == sources && i < |sources| && a.phase == Verifying(i)
      modifies this
      ensures if ok then Goes(Retaining(i + 1), old(a)) else a == old(a) && Stopped() && Obstructed()
      ensures ok ==> |script| + 1 == |old(script)| && Steady(old(p), p)
    {
      hide Sound, Input, Inputs;
      var answer := Await();
      var name := sources[i].name;
      if answer.Denied? || name !in p.retained || p.retained[name].bytes != sources[i].bytes {
        GiveUp();
        return false;
      }
      SoundAdvance(p, a, NO_CHOICE, debt);
      p := p.(checked := p.checked + {name});
      a := a.(phase := Retaining(i + 1));
      return true;
    }

    method RetainSources(sources: seq<Source>) returns (ok: bool)
      requires Sound(p, a, debt) && a.sources == sources && a.phase == Retaining(0)
      modifies this
      ensures if ok then Goes(Retaining(|sources|), old(a))
        else
          && Stopped() && a.sources == sources && a.remerge == old(a).remerge && Obstructed()
          && (a.phase.Verifying? || (a.phase.Retaining? && a.phase.next < |sources|))
      ensures ok ==> |script| + 2 * |sources| == |old(script)| && Steady(old(p), p)
    {
      for i := 0 to |sources|
        invariant Goes(Retaining(i), old(a)) && |script| + 2 * i == |old(script)| && Steady(old(p), p)
      {
        ok := CopySource(sources, i);
        if !ok {
          return false;
        }
        ok := VerifyCopy(sources, i);
        if !ok {
          return false;
        }
      }
      return true;
    }

    method PutMarker(sources: seq<Source>) returns (ok: bool)
      requires Sound(p, a, debt) && a.sources == sources && a.phase == Retaining(|sources|)
      modifies this
      ensures if ok then Goes(Deleting(0), old(a)) else a == old(a) && Stopped() && reply.Denied?
      ensures ok ==> |script| + 1 == |old(script)| && Steady(old(p).(marked := true), p)
    {
      var answer := Await();
      if answer.Denied? {
        last, applied, lost := p, answer.applied, answer.lost;
        if answer.applied {
          p := p.(marked := true);
        }
        return false;
      }
      SoundAdvance(p, a, NO_CHOICE, debt);
      p := p.(marked := true);
      a := a.(phase := Deleting(0));
      return true;
    }

    method DeleteChunk(sources: seq<Source>, i: nat, end: nat) returns (ok: bool)
      requires Sound(p, a, debt) && a.sources == sources && i < |sources| && a.phase == Deleting(i)
      requires end == ChunkEnd(a, i)
      modifies this
      ensures if ok then Goes(Deleting(end), old(a)) else a == old(a) && Stopped() && reply.Denied?
      ensures ok ==> |script| + 1 == |old(script)| && Steady(old(p), p)
    {
      var answer := Await();
      var names := Names(sources[i..end]);
      if answer.Denied? {
        last, applied, lost := p, answer.applied, answer.lost;
        if answer.applied {
          p := p.(segments := p.segments - (answer.lost * names));
        }
        return false;
      }
      SoundAdvance(p, a, NO_CHOICE, debt);
      p := p.(segments := p.segments - names);
      a := a.(phase := Deleting(end));
      return true;
    }

    /** Deletes the sources by as few requests of at most 1000 names as it takes. */
    method DeleteSources(sources: seq<Source>) returns (ok: bool)
      requires Sound(p, a, debt) && a.sources == sources && a.phase == Deleting(0)
      modifies this
      ensures if ok then Goes(Finished, old(a))
        else Stopped() && a.sources == sources && a.remerge == old(a).remerge && a.phase.Deleting? && reply.Denied?
      ensures ok ==> |script| + (|sources| + 999) / 1000 == |old(script)| && Steady(old(p), p)
    {
      var i := 0;
      ghost var k := 0;
      while i < |sources|
        invariant i <= |sources| && Goes(Deleting(i), old(a)) && Steady(old(p), p)
        invariant |script| + k == |old(script)| && (i == 1000 * k || (i == |sources| && 1000 * (k - 1) < i <= 1000 * k))
        decreases |sources| - i
      {
        var end := if i + DELETE_CHUNK < |sources| then i + DELETE_CHUNK else |sources|;
        ok := DeleteChunk(sources, i, end);
        if !ok {
          return false;
        }
        i, k := end, k + 1;
      }
      SoundAdvance(p, a, NO_CHOICE, debt);
      a := a.(phase := Finished);
      return true;
    }

    /** Probes, merges and uploads. */
    method Produce(sources: seq<Source>, encoded: nat) returns (ok: bool)
      requires batchRows > 0 && Sound(p, a, debt) && a == Attempt(sources, false, Probing)
      modifies this
      ensures a.sources == sources
      ensures if ok then Sound(p, a, debt) && a.phase == Retaining(0) else Stopped() && Obstructed()
      ensures ok ==> Written(old(p), sources, encoded, p)
      ensures ok ==> |script| + (if old(p).marked then 2 else 0) + |sources| + 2 == |old(script)|
    {
      SoundShaped(p, a, debt);
      hide InBatches, Sound, Merge.Rectangular;
      var remerge := Exists();
      if remerge.None? {
        return false;
      }
      if remerge.value {
        ok := HeadOutput();
        if !ok {
          return false;
        }
      }
      ghost var before := p;
      var merged := MergeAll(sources, remerge.value, encoded);
      if merged.Err? {
        return false;
      }
      ExpectedSteady(old(p), before, sources);
      ok := Upload(merged.value);
    }

    /** Retains and checks the sources, puts the marker and deletes the sources. */
    method Secure(sources: seq<Source>) returns (ok: bool)
      requires Sound(p, a, debt) && a.sources == sources && a.phase == Retaining(0)
      modifies this
      ensures a.sources == sources
      ensures if ok then Sound(p, a, debt) && a.phase.Finished? else Stopped() && Obstructed()
      ensures ok ==> p.output == old(p).output
      ensures ok ==> |script| + 2 * |sources| + 1 + (|sources| + 999) / 1000 == |old(script)|
    {
      hide Sound;
      ok := RetainSources(sources);
      if !ok {
        return false;
      }
      ok := PutMarker(sources);
      if !ok {
        return false;
      }
      ok := DeleteSources(sources);
    }

    /** Compacts one partition, its sources in the order of their names. On success every row is as
        visible as before, the sources are checked and gone, the marker is in place, and the output
        holds the batches of the old output and of the sources in their order, each batch reordered.
        A failure has one of the causes of `Obstructed`. Before the output becomes visible it changes
        no visibility either; a later one leaves the sources still live doubled. */
    method Compact(listed: seq<Source>, encoded: nat) returns (ok: bool)
      requires batchRows > 0 && Distinct(listed) && Names(listed) <= p.segments.Keys && AllSettled(p, debt)
      modifies this
      ensures ByName(a.sources) && multiset(a.sources) == multiset(listed)
      ensures ok ==> AllSettled(p, debt) && p.marked && Names(listed) !! p.segments.Keys && Names(listed) <= p.checked
      ensures ok ==> Written(old(p), a.sources, encoded, p)
      ensures ok ==> |script| + Requests(old(p).marked, |listed|) == |old(script)|
      ensures !ok ==> Stopped() && Obstructed()
      ensures !ok && !Committed(a) && !CommitsLate(a, applied) ==> AllSettled(p, debt)
    {
      var sources := SortByName(listed);
      SameNames(listed, sources);
      a := Attempt(sources, false, Probing);
      SoundStart(p, sources, debt);
      ok := Produce(sources, encoded);
      if ok {
        ok := Secure(sources);
      }
      assert |multiset(sources)| == |multiset(listed)|;
      if ok {
        Completed(p, a, debt);
      } else if !Committed(a) && !CommitsLate(a, applied) {
        EarlyFailure(last, a, applied, lost, debt);
      }
    }

  }
}
