/**
 One compaction attempt on one hourly partition, as the sequence of S3 requests that
 `Compactor::compact` issues. Between any two requests the producer may put segments
 and S3 may expire retained copies; any request may fail, and a failed write may or may
 not have taken effect.
 */
module Compaction {
  import opened Wrappers
  import opened Rows

  /** The S3 objects of one partition. The last two fields are history variables: every
      segment ever put, and the names whose retained copy passed the size check. */
  datatype Part = Part(
    segments: map<string, File>,
    output: Option<File>,
    marked: bool,
    retained: map<string, File>,
    uploaded: map<string, File>,
    checked: set<string>)

  const EMPTY_PART := Part(map[], None, false, map[], map[], {})

  /** A listed source object: its name and the size the listing reported. */
  datatype Source = Source(name: string, bytes: nat)

  /** The request about to be issued. `Retaining(|sources|)` is the success-marker put. */
  datatype Phase =
    | Probing
    | Heading
    | Merging(next: nat, schema: Option<seq<string>>, merged: seq<Row>)
    | Uploading(file: File)
    | Retaining(next: nat)
    | Verifying(next: nat)
    | Deleting(next: nat)
    | Finished

  /** `remerge` records whether the success marker existed when the attempt looked. */
  datatype Attempt = Attempt(sources: seq<Source>, remerge: bool, phase: Phase)

  /** What a request leaves open: the order in which the merge writes the rows of the input
      it just read, and the size of the encoded output file. */
  datatype Choice = Choice(block: seq<Row>, bytes: nat)

  const DELETE_CHUNK := 1_000

  function Names(sources: seq<Source>): set<string> {
    set source | source in sources :: source.name
  }

  predicate Distinct(sources: seq<Source>) {
    forall i, j :: 0 <= i < j < |sources| ==> sources[i].name != sources[j].name
  }

  function Inputs(a: Attempt): nat {
    |a.sources| + if a.remerge then 1 else 0
  }

  /** The object that merge input `i` reads: the existing output first when re-merging. */
  function Input(p: Part, a: Attempt, i: nat): Option<File>
    requires i < Inputs(a)
  {
    if a.remerge && i == 0 then p.output
    else
      var name := a.sources[if a.remerge then i - 1 else i].name;
      if name in p.segments then Some(p.segments[name]) else None
  }

  function Chunk(a: Attempt, i: nat): seq<Source>
    requires i <= |a.sources|
  {
    a.sources[i..ChunkEnd(a, i)]
  }

  function ChunkEnd(a: Attempt, i: nat): (end: nat)
    requires i <= |a.sources|
    ensures i <= end <= |a.sources|
  {
    if i + DELETE_CHUNK < |a.sources| then i + DELETE_CHUNK else |a.sources|
  }

  /** Whether the pending request can succeed with its checks passing. */
  predicate CanAdvance(p: Part, a: Attempt, c: Choice) {
    match a.phase
    case Probing => true
    case Heading => p.output.Some?
    case Merging(i, schema, merged) =>
      if i < Inputs(a) then
        && Input(p, a, i).Some?
        && (schema.Some? ==> schema.value == Input(p, a, i).value.schema)
        && multiset(c.block) == multiset(Input(p, a, i).value.rows)
      else
        schema.Some?
    case Uploading(_) => true
    case Retaining(i) => i <= |a.sources| && (i < |a.sources| ==> a.sources[i].name in p.segments)
    case Verifying(i) =>
      && i < |a.sources|
      && a.sources[i].name in p.retained
      && p.retained[a.sources[i].name].bytes == a.sources[i].bytes
    case Deleting(i) => i <= |a.sources|
    case Finished => false
  }

  /** The pending request succeeds. */
  function Advance(p: Part, a: Attempt, c: Choice): (Part, Attempt)
    requires CanAdvance(p, a, c)
  {
    match a.phase
    case Probing =>
      (p, a.(remerge := p.marked, phase := if p.marked then Heading else Merging(0, None, [])))
    case Heading => (p, a.(phase := Merging(0, None, [])))
    case Merging(i, schema, merged) =>
      if i < Inputs(a) then
        (p, a.(phase := Merging(i + 1, Some(Input(p, a, i).value.schema), merged + c.block)))
      else
        (p, a.(phase := Uploading(File(schema.value, merged, c.bytes))))
    case Uploading(file) => (p.(output := Some(file)), a.(phase := Retaining(0)))
    case Retaining(i) =>
      if i < |a.sources| then
        var name := a.sources[i].name;
        (p.(retained := p.retained[name := p.segments[name]]), a.(phase := Verifying(i)))
      else
        (p.(marked := true), a.(phase := Deleting(0)))
    case Verifying(i) =>
      (p.(checked := p.checked + {a.sources[i].name}), a.(phase := Retaining(i + 1)))
    case Deleting(i) =>
      if i < |a.sources| then
        (p.(segments := p.segments - Names(Chunk(a, i))), a.(phase := Deleting(ChunkEnd(a, i))))
      else
        (p, a.(phase := Finished))
  }

  lemma AdvanceUploadsNothing(p: Part, a: Attempt, c: Choice)
    requires CanAdvance(p, a, c)
    ensures Advance(p, a, c).0.uploaded == p.uploaded
  {
  }

  /** What a write that reports failure may still have done to the partition: a put or a
      copy took effect, or the members `lost` of the pending delete chunk are gone. */
  function Spill(p: Part, a: Attempt, lost: set<string>): Part {
    match a.phase
    case Uploading(file) => p.(output := Some(file))
    case Retaining(i) =>
      if i < |a.sources| then
        var name := a.sources[i].name;
        if name in p.segments then p.(retained := p.retained[name := p.segments[name]]) else p
      else
        p.(marked := true)
    case Deleting(i) =>
      if i <= |a.sources| then p.(segments := p.segments - (lost * Names(Chunk(a, i)))) else p
    case _ => p
  }

  /** An unanswered write may have done just what a granted one does; an unanswered deletion may
      have removed any part of what a granted one removes. */
  lemma SpillCovers(p: Part, a: Attempt, c: Choice, lost: set<string>)
    requires CanAdvance(p, a, c) && (a.phase.Uploading? || a.phase.Retaining? || a.phase.Deleting?)
    ensures Spill(p, a, p.segments.Keys) == Advance(p, a, c).0
    ensures a.phase.Deleting? ==>
      Spill(p, a, lost).segments.Keys == p.segments.Keys - lost * (p.segments.Keys - Advance(p, a, c).0.segments.Keys)
  {
    if a.phase.Deleting? && a.phase.next == |a.sources| {
      assert a.sources[a.phase.next..] == [];
    }
  }

  /** The producer puts a segment. */
  function Put(p: Part, name: string, file: File): Part {
    p.(segments := p.segments[name := file], uploaded := p.uploaded[name := file])
  }

  /** A segment name stands for one file: putting it again puts the same file. */
  predicate PutAllowed(p: Part, name: string, file: File) {
    name in p.uploaded ==> p.uploaded[name] == file
  }

  /** The S3 lifecycle rule removes a retained copy. */
  function Expire(p: Part, name: string): Part {
    p.(retained := p.retained - {name})
  }

  // ---------------------------------------------------------------------------------------
  // What a reader of the partition sees, and the invariants. Each is stated for one row.

  /** The copies of `row` in the compacted output, which counts only once the marker exists. */
  function InOutput(p: Part, row: Row): nat {
    if p.output.Some? then Copies(p.output.value.rows, row) else 0
  }

  /** The copies of `row` that a reader finds: the marked output plus the live segments. */
  ghost function Visible(p: Part, row: Row): nat {
    (if p.marked then InOutput(p, row) else 0) + Count(p.segments, row)
  }

  /** Segments that were put and are no longer live. */
  function Hidden(p: Part): set<string> {
    p.uploaded.Keys - p.segments.Keys
  }

  predicate Deletes(a: Attempt) {
    a.phase.Deleting? || a.phase.Finished?
  }

  predicate Retains(a: Attempt) {
    a.phase.Retaining? || a.phase.Verifying?
  }

  /** The attempt has made its merged output visible. */
  predicate Committed(a: Attempt) {
    Deletes(a) || (a.remerge && Retains(a))
  }

  /** The names a committed attempt's output accounts for. */
  function Absorbed(a: Attempt): set<string> {
    if Committed(a) then Names(a.sources) else {}
  }

  /** Live and retained objects hold what was put under their name; nothing is gone from the
      partition unless its copy was checked and the marker and the output exist. */
  ghost predicate Consistent(p: Part) {
    && (forall name <- p.segments :: name in p.uploaded && p.segments[name] == p.uploaded[name])
    && (forall name <- p.retained :: name in p.uploaded && p.retained[name] == p.uploaded[name])
    && Hidden(p) <= p.checked
    && (p.marked ==> p.output.Some?)
    && (!p.marked ==> Hidden(p) == {})
  }

  /** The marked output holds the hidden segments, those of `extra`, and `debt` more copies. */
  ghost predicate Accounts(p: Part, extra: set<string>, debt: nat, row: Row) {
    if p.marked then InOutput(p, row) == Count(Only(p.uploaded, Hidden(p) + extra), row) + debt
    else debt == 0
  }

  /** No attempt is under way. */
  ghost predicate Settled(p: Part, debt: nat, row: Row) {
    Consistent(p) && Accounts(p, {}, debt, row)
  }

  /** The copies of `row` in the first `k` sources. */
  function Gathered(files: map<string, File>, sources: seq<Source>, k: nat, row: Row): nat
    requires k <= |sources|
  {
    if k == 0 then 0
    else
      var name := sources[k - 1].name;
      Gathered(files, sources, k - 1, row) + if name in files then Copies(files[name].rows, row) else 0
  }

  /** The copies of `row` in the first `i` merge inputs. */
  function Merged(p: Part, a: Attempt, i: nat, row: Row): nat
    requires i <= Inputs(a)
  {
    if !a.remerge then Gathered(p.uploaded, a.sources, i, row)
    else if i == 0 then 0
    else
      InOutput(p, row) + Gathered(p.uploaded, a.sources, i - 1, row)
  }

  function Bounded(a: Attempt, i: nat): nat {
    if i <= |a.sources| then i else 0
  }

  /** The sources whose retained copy has been checked so far. */
  function Secured(a: Attempt): set<string> {
    match a.phase
    case Retaining(i) => Names(a.sources[..Bounded(a, i)])
    case Verifying(i) => Names(a.sources[..Bounded(a, i)])
    case Deleting(_) => Names(a.sources)
    case Finished => Names(a.sources)
    case _ => {}
  }

  /** The part of the invariant that does not count rows. */
  ghost predicate Shaped(p: Part, a: Attempt) {
    && Consistent(p)
    && Distinct(a.sources)
    && Names(a.sources) <= p.uploaded.Keys
    && (!Deletes(a) ==> Names(a.sources) <= p.segments.Keys)
    && Secured(a) <= p.checked
    && (!a.phase.Probing? ==> p.marked == (a.remerge || Deletes(a)))
    && (match a.phase
        case Heading => a.remerge
        case Merging(i, _, _) => i <= Inputs(a)
        case Retaining(i) => i <= |a.sources| && p.output.Some?
        case Verifying(i) => i < |a.sources| && p.output.Some?
        case Deleting(i) => i <= |a.sources|
        case _ => true)
  }

  /** The part that counts rows. */
  ghost predicate Counted(p: Part, a: Attempt, debt: nat, row: Row)
    requires a.phase.Merging? ==> a.phase.next <= Inputs(a)
  {
    && Accounts(p, Absorbed(a), debt, row)
    && (match a.phase
        case Merging(i, _, merged) => Copies(merged, row) == Merged(p, a, i, row)
        case Uploading(file) => Copies(file.rows, row) == Merged(p, a, Inputs(a), row)
        case _ => !a.remerge && Retains(a) ==> InOutput(p, row) == Count(Only(p.uploaded, Names(a.sources)), row))
  }

  /** The inductive invariant of an attempt. */
  ghost predicate Underway(p: Part, a: Attempt, debt: nat, row: Row) {
    Shaped(p, a) && Counted(p, a, debt, row)
  }

  // ---------------------------------------------------------------------------------------
  // Facts about names and totals

  lemma NamesPrefix(sources: seq<Source>, i: nat)
    requires i < |sources| && Distinct(sources)
    ensures Names(sources[..i + 1]) == Names(sources[..i]) + {sources[i].name}
    ensures sources[i].name !in Names(sources[..i])
  {
    assert sources[..i + 1] == sources[..i] + [sources[i]];
  }

  lemma NamesCut(sources: seq<Source>, i: nat, j: nat)
    requires i <= j <= |sources|
    ensures Names(sources[..j]) == Names(sources[..i]) + Names(sources[i..j])
    ensures Names(sources[i..j]) <= Names(sources)
  {
    assert sources[..j] == sources[..i] + sources[i..j];
  }

  /** What is visible, counted against what was put: one copy per copy put, another for the
      live part of `extra`, and the debt. */
  lemma VisibleAccount(p: Part, extra: set<string>, debt: nat, row: Row)
    requires Consistent(p) && extra <= p.uploaded.Keys && (!p.marked ==> extra == {})
    requires Accounts(p, extra, debt, row)
    ensures Visible(p, row) == Count(p.uploaded, row) + Count(Only(p.uploaded, extra * p.segments.Keys), row) + debt
  {
    CountSplit(p.uploaded, p.segments.Keys, row);
    assert Only(p.uploaded, p.segments.Keys) == p.segments;
    assert p.uploaded - p.segments.Keys == Only(p.uploaded, Hidden(p));
    CountUnion(p.uploaded, Hidden(p), extra * p.segments.Keys, row);
    assert Hidden(p) + extra * p.segments.Keys == Hidden(p) + extra;
    if !p.marked {
      assert Only(p.uploaded, Hidden(p)) == map[];
      assert Only(p.uploaded, extra * p.segments.Keys) == map[];
    }
  }

  // ---------------------------------------------------------------------------------------
  // Preservation

  /** Starting an attempt on live sources. */
  lemma Start(p: Part, sources: seq<Source>, debt: nat, row: Row)
    requires Settled(p, debt, row) && Distinct(sources) && Names(sources) <= p.segments.Keys
    ensures Underway(p, Attempt(sources, false, Probing), debt, row)
  {
  }

  /** Reading every source once gathers exactly the rows stored under their names. */
  lemma {:induction false} GatheredAll(files: map<string, File>, sources: seq<Source>, k: nat, row: Row)
    requires k <= |sources| && Distinct(sources) && Names(sources) <= files.Keys
    ensures Gathered(files, sources, k, row) == Count(Only(files, Names(sources[..k])), row)
  {
    if k == 0 {
      assert Only(files, Names(sources[..0])) == map[];
    } else {
      GatheredAll(files, sources, k - 1, row);
      NamesPrefix(sources, k - 1);
      CountStep(files, Names(sources[..k - 1]), sources[k - 1].name, row);
    }
  }

  lemma AdvanceFetching(p: Part, a: Attempt, c: Choice, debt: nat, row: Row)
    requires Underway(p, a, debt, row) && CanAdvance(p, a, c) && a.phase.Merging? && a.phase.next < Inputs(a)
    ensures Underway(p, Advance(p, a, c).1, debt, row)
  {
    hide Count, Hidden, Only, Names, Chunk, Distinct;
    assert Copies(a.phase.merged + c.block, row) == Copies(a.phase.merged, row) + Copies(c.block, row);
  }

  lemma AdvanceClosing(p: Part, a: Attempt, c: Choice, debt: nat, row: Row)
    requires Underway(p, a, debt, row) && CanAdvance(p, a, c) && a.phase.Merging? && a.phase.next == Inputs(a)
    ensures Underway(p, Advance(p, a, c).1, debt, row)
  {
  }

  /** What the finished merge holds. */
  lemma MergedAll(p: Part, a: Attempt, row: Row)
    requires Distinct(a.sources) && Names(a.sources) <= p.segments.Keys && p.segments.Keys <= p.uploaded.Keys
    ensures Merged(p, a, Inputs(a), row)
         == (if a.remerge then InOutput(p, row) else 0) + Count(Only(p.uploaded, Names(a.sources)), row)
    ensures Count(Only(p.uploaded, Hidden(p) + Names(a.sources)), row)
         == Count(Only(p.uploaded, Hidden(p)), row) + Count(Only(p.uploaded, Names(a.sources)), row)
  {
    assert a.sources[..|a.sources|] == a.sources;
    GatheredAll(p.uploaded, a.sources, |a.sources|, row);
    CountUnion(p.uploaded, Hidden(p), Names(a.sources), row);
  }

  lemma AdvanceUploading(p: Part, a: Attempt, c: Choice, debt: nat, row: Row)
    requires Underway(p, a, debt, row) && a.phase.Uploading?
    ensures Underway(Advance(p, a, c).0, Advance(p, a, c).1, debt, row)
  {
    MergedAll(p, a, row);
    assert Hidden(p) + {} == Hidden(p);
  }

  lemma AdvanceRetaining(p: Part, a: Attempt, c: Choice, debt: nat, row: Row)
    requires Underway(p, a, debt, row) && CanAdvance(p, a, c) && a.phase.Retaining?
    ensures Underway(Advance(p, a, c).0, Advance(p, a, c).1, debt, row)
  {
    if a.phase.next == |a.sources| {
      assert a.sources[..|a.sources|] == a.sources;
      assert !a.remerge ==> Hidden(p) + Names(a.sources) == Names(a.sources);
    }
  }

  lemma AdvanceVerifying(p: Part, a: Attempt, c: Choice, debt: nat, row: Row)
    requires Underway(p, a, debt, row) && CanAdvance(p, a, c) && a.phase.Verifying?
    ensures Underway(Advance(p, a, c).0, Advance(p, a, c).1, debt, row)
  {
    NamesPrefix(a.sources, a.phase.next);
  }

  lemma AdvanceDeleting(p: Part, a: Attempt, c: Choice, debt: nat, row: Row)
    requires Underway(p, a, debt, row) && a.phase.Deleting?
    ensures Underway(Advance(p, a, c).0, Advance(p, a, c).1, debt, row)
  {
    assert a.sources[..|a.sources|] == a.sources;
    var i := a.phase.next;
    NamesCut(a.sources, i, ChunkEnd(a, i));
    var q := Advance(p, a, c).0;
    assert Hidden(q) + Names(a.sources) == Hidden(p) + Names(a.sources);
  }

  /** Every successful request keeps the invariant. */
  lemma AdvanceKeeps(p: Part, a: Attempt, c: Choice, debt: nat, row: Row)
    requires Underway(p, a, debt, row) && CanAdvance(p, a, c)
    ensures Underway(Advance(p, a, c).0, Advance(p, a, c).1, debt, row)
  {
    match a.phase
    case Probing =>
    case Heading =>
    case Merging(i, _, _) =>
      if i < Inputs(a) { AdvanceFetching(p, a, c, debt, row); } else { AdvanceClosing(p, a, c, debt, row); }
    case Uploading(_) => AdvanceUploading(p, a, c, debt, row);
    case Retaining(_) => AdvanceRetaining(p, a, c, debt, row);
    case Verifying(_) => AdvanceVerifying(p, a, c, debt, row);
    case Deleting(_) => AdvanceDeleting(p, a, c, debt, row);
  }

  lemma {:induction false} GatheredFrame(
    before: map<string, File>, after: map<string, File>, sources: seq<Source>, k: nat, row: Row)
    requires k <= |sources| && Names(sources) <= before.Keys
    requires forall name <- before :: name in after && after[name] == before[name]
    ensures Gathered(before, sources, k, row) == Gathered(after, sources, k, row)
  {
    if k > 0 {
      GatheredFrame(before, after, sources, k - 1, row);
      assert sources[k - 1].name in Names(sources);
    }
  }

  lemma PutNewMerged(p: Part, a: Attempt, i: nat, name: string, file: File, row: Row)
    requires i <= Inputs(a) && Names(a.sources) <= p.uploaded.Keys && name !in p.uploaded
    ensures Merged(Put(p, name, file), a, i, row) == Merged(p, a, i, row)
  {
    if 0 < i {
      GatheredFrame(p.uploaded, Put(p, name, file).uploaded, a.sources, if a.remerge then i - 1 else i, row);
    }
  }

  /** The copies that a put adds beyond those it accounts for: putting back a segment whose
      rows already are in the visible output, outside the running attempt. */
  function PutCost(p: Part, absorbed: set<string>, name: string, row: Row): nat {
    if name in p.uploaded && name !in p.segments && name !in absorbed then Copies(p.uploaded[name].rows, row) else 0
  }

  lemma PutAccounts(p: Part, extra: set<string>, name: string, file: File, debt: nat, row: Row)
    requires Consistent(p) && Accounts(p, extra, debt, row) && extra <= p.uploaded.Keys
    requires PutAllowed(p, name, file)
    ensures Consistent(Put(p, name, file))
    ensures Accounts(Put(p, name, file), extra, debt + PutCost(p, extra, name, row), row)
  {
    hide Count, Copies;
    var q := Put(p, name, file);
    if name !in p.uploaded {
      assert Hidden(q) == Hidden(p);
      assert Only(q.uploaded, Hidden(q) + extra) == Only(p.uploaded, Hidden(p) + extra);
    } else {
      assert q.uploaded == p.uploaded;
      if name in Hidden(p) && name !in extra {
        CountStep(p.uploaded, Hidden(q) + extra, name, row);
        assert Hidden(q) + extra + {name} == Hidden(p) + extra;
      } else {
        assert Hidden(q) + extra == Hidden(p) + extra;
      }
    }
  }

  lemma PutNewCounted(p: Part, a: Attempt, name: string, file: File, debt: nat, row: Row)
    requires Underway(p, a, debt, row) && name !in p.uploaded
    ensures Counted(Put(p, name, file), a, debt, row)
  {
    PutAccounts(p, Absorbed(a), name, file, debt, row);
    if a.phase.Merging? {
      PutNewMerged(p, a, a.phase.next, name, file, row);
    } else if a.phase.Uploading? {
      PutNewMerged(p, a, Inputs(a), name, file, row);
    } else {
      assert Only(Put(p, name, file).uploaded, Names(a.sources)) == Only(p.uploaded, Names(a.sources));
    }
  }

  /** A segment put keeps the invariant, at its cost. */
  lemma PutKeeps(p: Part, a: Attempt, name: string, file: File, debt: nat, row: Row)
    requires Underway(p, a, debt, row) && PutAllowed(p, name, file)
    ensures Underway(Put(p, name, file), a, debt + PutCost(p, Absorbed(a), name, row), row)
  {
    PutAccounts(p, Absorbed(a), name, file, debt, row);
    if name in p.uploaded {
      assert Put(p, name, file).uploaded == p.uploaded;
    } else {
      PutNewCounted(p, a, name, file, debt, row);
    }
  }

  /** The expiry of a retained copy keeps the invariant. */
  lemma ExpireKeeps(p: Part, a: Attempt, name: string, debt: nat, row: Row)
    requires Underway(p, a, debt, row)
    ensures Underway(Expire(p, name), a, debt, row)
  {
  }

  // ---------------------------------------------------------------------------------------
  // The end of an attempt

  /** The failing request was the one that makes the merged output visible, and it took effect. */
  predicate CommitsLate(a: Attempt, applied: bool) {
    applied && (if a.remerge then a.phase.Uploading? else a.phase == Retaining(|a.sources|))
  }

  /** The partition after the pending request reports failure. */
  function Failed(p: Part, a: Attempt, applied: bool, lost: set<string>): Part {
    if applied then Spill(p, a, lost) else p
  }

  lemma FailUploading(p: Part, a: Attempt, lost: set<string>, debt: nat, row: Row)
    requires Underway(p, a, debt, row) && a.phase.Uploading?
    ensures var q := Failed(p, a, true, lost);
      Consistent(q) && Accounts(q, if a.remerge then Names(a.sources) else {}, debt, row)
  {
    AdvanceUploading(p, a, Choice([], 0), debt, row);
  }

  lemma FailDeleting(p: Part, a: Attempt, lost: set<string>, debt: nat, row: Row)
    requires Underway(p, a, debt, row) && a.phase.Deleting?
    ensures var q := Failed(p, a, true, lost);
      Consistent(q) && Accounts(q, Names(a.sources), debt, row)
  {
    var q := Failed(p, a, true, lost);
    NamesCut(a.sources, a.phase.next, ChunkEnd(a, a.phase.next));
    assert Hidden(q) + Names(a.sources) == Hidden(p) + Names(a.sources);
  }

  /** However an attempt fails, the marked output still accounts for every hidden segment, and
      for the sources too when the merged output had become visible. */
  lemma FailAccounts(p: Part, a: Attempt, applied: bool, lost: set<string>, debt: nat, row: Row)
    requires Underway(p, a, debt, row)
    ensures var q := Failed(p, a, applied, lost);
      && Consistent(q)
      && q.uploaded == p.uploaded
      && Accounts(q, if Committed(a) || CommitsLate(a, applied) then Names(a.sources) else {}, debt, row)
  {
    if applied {
      match a.phase
      case Uploading(_) => FailUploading(p, a, lost, debt, row);
      case Deleting(_) => FailDeleting(p, a, lost, debt, row);
      case Retaining(i) =>
        if i == |a.sources| {
          AdvanceRetaining(p, a, Choice([], 0), debt, row);
        }
      case _ =>
    }
  }

  /** The sources that the end of an attempt leaves both in the visible output and live. */
  function LeftDoubled(p: Part, a: Attempt, applied: bool, lost: set<string>): set<string> {
    if Committed(a) || CommitsLate(a, applied) then Names(a.sources) * Failed(p, a, applied, lost).segments.Keys else {}
  }

  ghost function EndCost(p: Part, a: Attempt, applied: bool, lost: set<string>, row: Row): nat {
    Count(Only(p.uploaded, LeftDoubled(p, a, applied, lost)), row)
  }

  /** An attempt may end at any request, failed or finished; the debt grows by exactly the
      copies held by the sources left doubled. */
  lemma EndKeeps(p: Part, a: Attempt, applied: bool, lost: set<string>, debt: nat, row: Row)
    requires Underway(p, a, debt, row)
    ensures Settled(Failed(p, a, applied, lost), debt + EndCost(p, a, applied, lost, row), row)
  {
    FailAccounts(p, a, applied, lost, debt, row);
    var q := Failed(p, a, applied, lost);
    if Committed(a) || CommitsLate(a, applied) {
      CountUnion(p.uploaded, Hidden(q), LeftDoubled(p, a, applied, lost), row);
      assert Hidden(q) + LeftDoubled(p, a, applied, lost) == Hidden(q) + Names(a.sources);
    } else {
      assert Only(p.uploaded, {}) == map[];
    }
    assert Hidden(q) + {} == Hidden(q);
  }

  // ---------------------------------------------------------------------------------------
  // The undisturbed attempt

  /** The sources an attempt has deleted so far. */
  function Removed(a: Attempt): set<string> {
    match a.phase
    case Deleting(i) => Names(a.sources[..Bounded(a, i)])
    case Finished => Names(a.sources)
    case _ => {}
  }

  lemma RemovedAdvances(p: Part, a: Attempt, c: Choice)
    requires CanAdvance(p, a, c) && Removed(a) !! p.segments.Keys
    ensures Removed(Advance(p, a, c).1) !! Advance(p, a, c).0.segments.Keys
  {
    if a.phase.Deleting? {
      assert a.sources[..|a.sources|] == a.sources;
      NamesCut(a.sources, a.phase.next, ChunkEnd(a, a.phase.next));
    }
  }

  lemma RemovedWasPut(p: Part, a: Attempt)
    requires Names(a.sources) <= p.uploaded.Keys
    ensures Removed(a) <= p.uploaded.Keys
  {
    if a.phase.Deleting? {
      NamesCut(a.sources, Bounded(a, a.phase.next), |a.sources|);
      assert a.sources[..|a.sources|] == a.sources;
    }
  }

  // ---------------------------------------------------------------------------------------
  // A late failure doubles rows

  /** The first requests of an attempt succeed, as far as they can. */
  function Drive(p: Part, a: Attempt, choices: seq<Choice>): (Part, Attempt)
    decreases |choices|
  {
    if choices == [] || !CanAdvance(p, a, choices[0]) then (p, a)
    else Drive(Advance(p, a, choices[0]).0, Advance(p, a, choices[0]).1, choices[1..])
  }

  lemma DriveStep(p: Part, a: Attempt, c: Choice, rest: seq<Choice>)
    requires CanAdvance(p, a, c)
    ensures Drive(p, a, [c] + rest) == Drive(Advance(p, a, c).0, Advance(p, a, c).1, rest)
  {
    assert ([c] + rest)[1..] == rest;
  }

  const NO_CHOICE := Choice([], 0)

  function OneRow(row: Row): File {
    File([], [row], 0)
  }

  /** A partition with one segment of one row. */
  function OneSegment(row: Row): Part {
    Put(EMPTY_PART, "segment", OneRow(row))
  }

  function OneAttempt(phase: Phase): Attempt {
    Attempt([Source("segment", 0)], false, phase)
  }

  /** The partition after the output, the checked copy and the marker are in place. */
  function OneMarked(row: Row): Part {
    Part(map["segment" := OneRow(row)], Some(OneRow(row)), true, map["segment" := OneRow(row)],
         map["segment" := OneRow(row)], {"segment"})
  }

  lemma DriveMerges(row: Row, rest: seq<Choice>)
    ensures Drive(OneSegment(row), OneAttempt(Probing), [NO_CHOICE] + ([Choice([row], 0)] + ([NO_CHOICE] + rest)))
         == Drive(OneSegment(row), OneAttempt(Uploading(OneRow(row))), rest)
  {
    var p := OneSegment(row);
    DriveStep(p, OneAttempt(Probing), NO_CHOICE, [Choice([row], 0)] + ([NO_CHOICE] + rest));
    DriveStep(p, OneAttempt(Merging(0, None, [])), Choice([row], 0), [NO_CHOICE] + rest);
    assert [] + [row] == [row];
    DriveStep(p, OneAttempt(Merging(1, Some([]), [row])), NO_CHOICE, rest);
  }

  lemma DriveMarks(row: Row)
    ensures Drive(OneSegment(row), OneAttempt(Uploading(OneRow(row))),
                  [NO_CHOICE] + ([NO_CHOICE] + ([NO_CHOICE] + ([NO_CHOICE] + []))))
         == (OneMarked(row), OneAttempt(Deleting(0)))
  {
    var p := OneSegment(row);
    DriveStep(p, OneAttempt(Uploading(OneRow(row))), NO_CHOICE, [NO_CHOICE] + ([NO_CHOICE] + ([NO_CHOICE] + [])));
    var q := p.(output := Some(OneRow(row)));
    DriveStep(q, OneAttempt(Retaining(0)), NO_CHOICE, [NO_CHOICE] + ([NO_CHOICE] + []));
    var r := q.(retained := map["segment" := OneRow(row)]);
    DriveStep(r, OneAttempt(Verifying(0)), NO_CHOICE, [NO_CHOICE] + []);
    var checked := r.(checked := {"segment"});
    assert p.retained["segment" := OneRow(row)] == r.retained && p.checked + {"segment"} == checked.checked;
    DriveStep(checked, OneAttempt(Retaining(1)), NO_CHOICE, []);
    assert p.segments == map["segment" := OneRow(row)] == p.uploaded;
    assert checked.(marked := true) == OneMarked(row);
  }

  lemma OneFile(file: File, row: Row)
    requires file.rows == [row]
    ensures Count(map["segment" := file], row) == 1
  {
    CountRemove(map["segment" := file], "segment", row);
    assert map["segment" := file] - {"segment"} == map[];
  }

  /** Exactly-once fails when the deletion after the marker put fails: a partition with one
      segment of one row, seven successful requests, and a reader finds that row twice. */
  lemma LateFailureDoubles(row: Row) returns (choices: seq<Choice>)
    ensures |choices| == 7
    ensures var (p, a) := Drive(OneSegment(row), OneAttempt(Probing), choices);
      a.phase == Deleting(0) && Visible(OneSegment(row), row) == 1 && Visible(Failed(p, a, false, {}), row) == 2
  {
    var marks := [NO_CHOICE] + ([NO_CHOICE] + ([NO_CHOICE] + ([NO_CHOICE] + [])));
    choices := [NO_CHOICE] + ([Choice([row], 0)] + ([NO_CHOICE] + marks));
    DriveMerges(row, marks);
    DriveMarks(row);
    OneFile(OneRow(row), row);
  }
}
