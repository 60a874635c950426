/**
 From a published local segment to S3 and through compaction. The archiver uploads one
 segment at a time (put, then marker, then a clean-up that deletes marked files); the
 process may die at any point and start again. Composed with the bucket, this shows that
 every row of a published segment stays in its local file, in a live S3 segment or in the
 marked compacted output.
 */
module Durability {
  import opened Rows
  import opened Compaction
  import Bucket
  import BucketRows

  /** A segment file: its hourly directory, which is also its S3 partition, and its name. */
  datatype Path = Path(part: string, name: string)

  /** What the archiver, which holds the upload lock, is about to do. */
  datatype Station =
    | Idle
    | Sending(path: Path)
    | Marking(path: Path)
    | Cleaning
    | Unmarking(path: Path)

  /** `published` is a history variable: every segment ever renamed into place. */
  datatype World = World(
    files: map<Path, File>,
    markers: set<Path>,
    station: Station,
    published: map<Path, File>,
    bucket: Bucket.State)

  datatype Event =
    | Publish(path: Path, file: File)
    | Begin(path: Path, force: bool)
    | Send(reply: Bucket.Reply)
    | Mark(written: bool, ok: bool)
    | RemoveFile(path: Path)
    | RemoveMarker(ok: bool)
    | CleanUpEnds
    | Restart(applied: bool)
    | Remote(event: Bucket.Event)

  predicate Enabled(w: World, e: Event) {
    match e
    case Publish(path, _) => path !in w.published
    case Begin(path, _) => w.station.Idle? && path in w.files
    case Send(_) => w.station.Sending? && w.station.path in w.files
    case Mark(written, ok) => w.station.Marking? && (ok ==> written)
    case RemoveFile(path) => w.station.Cleaning? && path in w.files && path in w.markers
    case RemoveMarker(_) => w.station.Unmarking?
    case CleanUpEnds => w.station.Cleaning?
    case Restart(_) => true
    case Remote(event) => !event.Upload? && Bucket.Enabled(w.bucket, event)
  }

  /** The put request in flight reaches S3. */
  predicate Puts(w: World, e: Event) {
    || (e.Send? && (e.reply.Success? || e.reply.applied))
    || (e.Restart? && e.applied && w.station.Sending? && w.station.path in w.files)
  }

  /** What the event is to the bucket: a put, a foreign event, or nothing. */
  function BucketEvent(w: World, e: Event): Bucket.Event
    requires Puts(w, e) ==> w.station.Sending? && w.station.path in w.files
  {
    if Puts(w, e) then Bucket.Upload(w.station.path.part, w.station.path.name, w.files[w.station.path])
    else if e.Remote? then e.event
    else Bucket.Tick(w.bucket.now)
  }

  function Local(w: World, e: Event): World
    requires Enabled(w, e)
  {
    match e
    case Publish(path, file) => w.(files := w.files[path := file], published := w.published[path := file])
    case Begin(path, force) => if path in w.markers && !force then w else w.(station := Sending(path))
    case Send(reply) => w.(station := if reply.Success? then Marking(w.station.path) else Idle)
    case Mark(written, ok) =>
      w.(markers := if written then w.markers + {w.station.path} else w.markers,
         station := if ok then Cleaning else Idle)
    case RemoveFile(path) => w.(files := w.files - {path}, station := Unmarking(path))
    case RemoveMarker(ok) =>
      w.(markers := if ok then w.markers - {w.station.path} else w.markers, station := if ok then Cleaning else Idle)
    case CleanUpEnds => w.(station := Idle)
    case Restart(_) => w.(station := Idle)
    case Remote(_) => w
  }

  function Apply(w: World, e: Event): World
    requires Enabled(w, e)
  {
    var b := BucketEvent(w, e);
    Local(w, e).(bucket := if Bucket.Enabled(w.bucket, b) then Bucket.Apply(w.bucket, b) else w.bucket)
  }

  predicate Initial(w: World) {
    w.files == map[] && w.markers == {} && w.station.Idle? && w.published == map[] && Bucket.Initial(w.bucket)
  }

  /** Event `i` was possible and led to the next state. */
  predicate StepAt(ws: seq<World>, es: seq<Event>, i: nat)
    requires |ws| == |es| + 1 && i < |es|
  {
    Enabled(ws[i], es[i]) && ws[i + 1] == Apply(ws[i], es[i])
  }

  ghost predicate IsRun(ws: seq<World>, es: seq<Event>) {
    && |ws| == |es| + 1
    && Initial(ws[0])
    && forall i :: 0 <= i < |es| ==> StepAt(ws, es, i)
  }

  // ---------------------------------------------------------------------------------------
  // The invariant of the archiver

  predicate InS3(w: World, path: Path) {
    path.name in Bucket.Objects(w.bucket, path.part).uploaded
  }

  /** Files are as published, and what left the disk, is marked or was just put is in S3. */
  ghost predicate Covered(w: World) {
    && (forall path <- w.files :: path in w.published && w.files[path] == w.published[path])
    && (forall path <- w.published :: path in w.files || InS3(w, path))
    && (forall path <- w.markers :: InS3(w, path))
    && (w.station.Sending? ==> w.station.path in w.files)
    && (w.station.Marking? || w.station.Unmarking? ==> InS3(w, w.station.path))
  }

  /** S3 holds nothing but published segments. */
  ghost predicate Genuine(w: World) {
    forall path :: InS3(w, path) ==>
      path in w.published && Bucket.Objects(w.bucket, path.part).uploaded[path.name] == w.published[path]
  }

  ghost predicate Inv(w: World) {
    Covered(w) && Genuine(w)
  }

  /** The segments ever put to a partition only change by puts. */
  lemma UploadedKept(s: Bucket.State, e: Bucket.Event, part: string)
    requires Bucket.Enabled(s, e)
    ensures var before, after := Bucket.Objects(s, part).uploaded, Bucket.Objects(Bucket.Apply(s, e), part).uploaded;
      after == if e.Upload? && e.part == part then before[e.name := e.file] else before
  {
    if e.Request? {
      AdvanceUploadsNothing(Bucket.Objects(s, s.procs[e.pid].part), s.procs[e.pid].attempt, e.choice);
    }
    hide Advance, CanAdvance;
  }

  /** S3 accepts every put: a name is only ever put with the file first published under it. */
  lemma PutsAllowed(w: World, e: Event)
    requires Inv(w) && Enabled(w, e)
    ensures Bucket.Enabled(w.bucket, BucketEvent(w, e))
  {
    if Puts(w, e) {
      assert InS3(w, w.station.path) ==> w.station.path in w.published;
    }
  }

  lemma S3Kept(w: World, e: Event, path: Path)
    requires Inv(w) && Enabled(w, e)
    ensures InS3(Apply(w, e), path) <==> InS3(w, path) || (Puts(w, e) && path == w.station.path)
    ensures InS3(Apply(w, e), path) ==>
      Bucket.Objects(Apply(w, e).bucket, path.part).uploaded[path.name]
      == if Puts(w, e) && path == w.station.path then w.files[path]
         else Bucket.Objects(w.bucket, path.part).uploaded[path.name]
  {
    PutsAllowed(w, e);
    UploadedKept(w.bucket, BucketEvent(w, e), path.part);
  }

  lemma CoveredKept(w: World, e: Event)
    requires Inv(w) && Enabled(w, e)
    ensures Covered(Apply(w, e))
  {
    forall path
      ensures InS3(Apply(w, e), path) <==> InS3(w, path) || (Puts(w, e) && path == w.station.path)
    {
      S3Kept(w, e, path);
    }
    hide InS3;
  }

  lemma GenuineKept(w: World, e: Event)
    requires Inv(w) && Enabled(w, e)
    ensures Genuine(Apply(w, e))
  {
    forall path | InS3(Apply(w, e), path)
      ensures path in Apply(w, e).published
      ensures Bucket.Objects(Apply(w, e).bucket, path.part).uploaded[path.name] == Apply(w, e).published[path]
    {
      S3Kept(w, e, path);
    }
  }

  lemma InvKept(w: World, e: Event)
    requires Inv(w) && Enabled(w, e)
    ensures Inv(Apply(w, e))
  {
    CoveredKept(w, e);
    GenuineKept(w, e);
  }

  lemma {:induction false} InvHolds(ws: seq<World>, es: seq<Event>, i: nat)
    requires IsRun(ws, es) && i < |ws|
    ensures Inv(ws[i])
  {
    if i > 0 {
      assert StepAt(ws, es, i - 1);
      InvHolds(ws, es, i - 1);
      InvKept(ws[i - 1], es[i - 1]);
    }
  }

  // ---------------------------------------------------------------------------------------
  // The bucket's view of a run

  function Buckets(ws: seq<World>): (r: seq<Bucket.State>)
    ensures |r| == |ws|
  {
    seq(|ws|, i requires 0 <= i < |ws| => ws[i].bucket)
  }

  ghost function BucketEvents(ws: seq<World>, es: seq<Event>): (r: seq<Bucket.Event>)
    requires IsRun(ws, es)
    ensures |r| == |es|
  {
    seq(|es|, i requires 0 <= i < |es| => assert StepAt(ws, es, i); BucketEvent(ws[i], es[i]))
  }

  /** Seen from S3, a run of the whole pipeline is a run of the bucket. */
  lemma BucketRun(ws: seq<World>, es: seq<Event>)
    requires IsRun(ws, es)
    ensures Bucket.IsRun(Buckets(ws), BucketEvents(ws, es))
  {
    forall i | 0 <= i < |es|
      ensures Bucket.StepAt(Buckets(ws), BucketEvents(ws, es), i)
    {
      assert StepAt(ws, es, i);
      InvHolds(ws, es, i);
      PutsAllowed(ws[i], es[i]);
    }
  }

  ghost predicate SafeTakeovers(ws: seq<World>, es: seq<Event>)
    requires IsRun(ws, es)
  {
    Bucket.SafeTakeovers(Buckets(ws), BucketEvents(ws, es))
  }

  // ---------------------------------------------------------------------------------------
  // Durability

  /** The clean-up removes a local file only after its put to S3 had completed. */
  lemma RemovedOnlyWhenUploaded(ws: seq<World>, es: seq<Event>, i: nat, path: Path)
    requires IsRun(ws, es) && i < |es|
    requires path in ws[i].files && path !in ws[i + 1].files
    ensures path in ws[i].markers && InS3(ws[i], path)
    ensures Bucket.Objects(ws[i].bucket, path.part).uploaded[path.name] == ws[i].files[path]
  {
    InvHolds(ws, es, i);
    assert StepAt(ws, es, i);
    assert es[i] == RemoveFile(path);
  }

  /** An upload whose requests are granted: from any state with an idle archiver these four steps are
      possible one after the other, and then the segment is live in S3 with what the disk holds, and
      marked. */
  lemma UploadCompletes(w: World, path: Path, force: bool) returns (ws: seq<World>, es: seq<Event>)
    requires Inv(w) && w.station.Idle? && path in w.files && (path !in w.markers || force)
    ensures es == [Begin(path, force), Send(Bucket.Success), Mark(true, true), CleanUpEnds]
    ensures |ws| == 5 && ws[0] == w && forall i :: 0 <= i < 4 ==> StepAt(ws, es, i)
    ensures var v, p := ws[4], Bucket.Objects(ws[4].bucket, path.part);
      && v.station.Idle? && v.markers == w.markers + {path} && v.files == w.files
      && path.name in p.segments && p.segments[path.name] == w.files[path]
      && path.name in p.uploaded && p.uploaded[path.name] == w.files[path]
  {
    var w1 := Apply(w, Begin(path, force));
    InvKept(w, Begin(path, force));
    PutsAllowed(w1, Send(Bucket.Success));
    var w2 := Apply(w1, Send(Bucket.Success));
    var w3 := Apply(w2, Mark(true, true));
    ws := [w, w1, w2, w3, Apply(w3, CleanUpEnds)];
    es := [Begin(path, force), Send(Bucket.Success), Mark(true, true), CleanUpEnds];
    hide Inv;
  }

  /** Where the row of a published segment is found. */
  ghost predicate Kept(w: World, path: Path, row: Row) {
    var p := Bucket.Objects(w.bucket, path.part);
    || (path in w.files && row in w.files[path].rows)
    || (exists live :: live in p.segments && row in p.segments[live].rows)
    || (p.marked && p.output.Some? && row in p.output.value.rows)
  }

  /** Every row of every published segment stays in its local file, in a live S3 segment of
      its partition, or in the marked compacted output. */
  lemma EndToEnd(ws: seq<World>, es: seq<Event>, i: nat, path: Path, row: Row)
    requires IsRun(ws, es) && SafeTakeovers(ws, es) && i <= |es|
    requires path in ws[i].published && row in ws[i].published[path].rows
    ensures Kept(ws[i], path, row)
  {
    InvHolds(ws, es, i);
    BucketRun(ws, es);
    if path !in ws[i].files {
      assert InS3(ws[i], path);
      BucketRows.NoRowLost(Buckets(ws), BucketEvents(ws, es), i, path.part, path.name, row);
    }
  }

  /** The published segments of one partition. */
  function PublishedIn(w: World, part: string): map<string, File> {
    map path | path in w.published && path.part == part :: path.name := w.published[path]
  }

  /** What was published in a partition is what never reached S3, all of it still in local files,
      and what S3 was ever given. */
  lemma PublishedSplit(w: World, part: string, row: Row)
    requires Inv(w)
    ensures var p := Bucket.Objects(w.bucket, part);
      var pending := PublishedIn(w, part) - p.uploaded.Keys;
      && (forall name <- pending :: Path(part, name) in w.files && w.files[Path(part, name)] == pending[name])
      && Count(PublishedIn(w, part), row) == Count(pending, row) + Count(p.uploaded, row)
  {
    var p := Bucket.Objects(w.bucket, part);
    var all := PublishedIn(w, part);
    forall name | name in p.uploaded
      ensures name in all && all[name] == p.uploaded[name]
    {
      assert InS3(w, Path(part, name));
      assert Path(part, name) in w.published;
    }
    CountSplit(all, p.uploaded.Keys, row);
    assert Only(all, p.uploaded.Keys) == p.uploaded;
    forall name | name in all && name !in p.uploaded
      ensures Path(part, name) in w.files && w.files[Path(part, name)] == all[name]
    {
      assert Path(part, name) in w.published && !InS3(w, Path(part, name));
    }
  }

  /** Counting copies: the published segments of a partition that never reached S3 are all in
      their local files, and together with what a reader of the partition finds they account
      for every published row. */
  lemma EndToEndCount(ws: seq<World>, es: seq<Event>, i: nat, part: string, row: Row)
    requires IsRun(ws, es) && SafeTakeovers(ws, es) && i <= |es|
    ensures var p := Bucket.Objects(ws[i].bucket, part);
      var pending := PublishedIn(ws[i], part) - p.uploaded.Keys;
      && (forall name <- pending :: Path(part, name) in ws[i].files && ws[i].files[Path(part, name)] == pending[name])
      && Count(PublishedIn(ws[i], part), row) <= Count(pending, row) + Visible(p, row)
  {
    InvHolds(ws, es, i);
    BucketRun(ws, es);
    BucketRows.Accounting(Buckets(ws), BucketEvents(ws, es), i, part, row);
    PublishedSplit(ws[i], part, row);
  }

  /** Every published copy is either pending on disk or visible to a reader of the partition. */
  ghost predicate ExactlyOnce(w: World, part: string, row: Row) {
    var p := Bucket.Objects(w.bucket, part);
    Count(PublishedIn(w, part), row) == Count(PublishedIn(w, part) - p.uploaded.Keys, row) + Visible(p, row)
  }

  /** Exactly once from end to end: while no attempt is under way on a partition, pending and
      visible copies together are the published ones, for every row, if and only if every
      request so far was tidy. */
  lemma EndToEndExactly(ws: seq<World>, es: seq<Event>, i: nat, part: string)
    requires IsRun(ws, es) && SafeTakeovers(ws, es) && i <= |es|
    requires BucketRows.Current(ws[i].bucket, part).None?
    ensures (forall row: Row :: ExactlyOnce(ws[i], part, row))
      <==> forall j :: 0 <= j < i ==> BucketRows.TidyEvent(ws[j].bucket, BucketEvents(ws, es)[j], part)
  {
    InvHolds(ws, es, i);
    BucketRun(ws, es);
    BucketRows.ExactlyTheTidyRuns(Buckets(ws), BucketEvents(ws, es), i, part);
    hide Inv, IsRun, SafeTakeovers, BucketRows.TidyEvent, Visible, Count, PublishedIn;
    var p := Bucket.Objects(ws[i].bucket, part);
    forall row: Row
      ensures ExactlyOnce(ws[i], part, row) <==> Visible(p, row) == Count(p.uploaded, row)
    {
      PublishedSplit(ws[i], part, row);
    }
  }
}
