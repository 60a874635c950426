/**
 The writer joined to the rest of the pipeline: a successful write renames a segment file into
 place, and from there the archiver and the compactor take over. The join shows that no write
 replaces a segment, and that a record submitted before a successful flush stays readable.
 */
module Pipeline {
  import opened Numbers
  import opened Buffering
  import opened Markets
  import opened Rows
  import Bucket
  import Durability
  import FlushBarrier
  import Naming
  import WriterStreams
  import WriterSystem

  /** Where segments are published: the data directory and the calendar. */
  datatype Layout = Layout(root: string, calendar: nat -> Naming.Hour)

  datatype State = State(writer: WriterSystem.State, world: Durability.World)

  /** A step of the writer, with the schema and size of the file it may publish, or of the rest. */
  datatype Event =
    | Writes(step: WriterSystem.Event, schema: seq<string>, bytes: nat)
    | Delivers(event: Durability.Event)

  function PathOf(layout: Layout, job: Job): Durability.Path {
    Durability.Path(
      Naming.Partition(layout.root, job.market, job.table, layout.calendar(job.hour)),
      Naming.SegmentName(job.sequence))
  }

  /** Where each job's segment is published. */
  type Placement = Job -> Durability.Path

  function Placing(layout: Layout): Placement {
    (job: Job) => PathOf(layout, job)
  }

  predicate Apart(place: Placement, a: Job, b: Job) {
    place(a) != place(b)
  }

  /** Jobs of different markets or with different numbers are published under different paths. */
  ghost predicate Separates(place: Placement) {
    forall a: Job, b: Job :: (a.market == b.market ==> a.sequence != b.sequence) ==> Apart(place, a, b)
  }

  lemma LayoutSeparates(layout: Layout)
    ensures Separates(Placing(layout))
  {
    forall a: Job, b: Job | a.market == b.market ==> a.sequence != b.sequence
      ensures Apart(Placing(layout), a, b)
    {
      Naming.NeverOverwritten(layout.root, a, b, layout.calendar);
    }
  }

  function Values(records: seq<Record>): seq<Row> {
    seq(|records|, i requires 0 <= i < |records| => records[i].values)
  }

  /** The event publishes the job in the encoder's hand. */
  predicate Publishes(e: Event) {
    e.Writes? && e.step.Encode? && e.step.ok
  }

  predicate Enabled(s: State, e: Event) {
    match e
    case Writes(step, _, _) => WriterSystem.Enabled(s.writer, step)
    case Delivers(event) => !event.Publish? && Durability.Enabled(s.world, event)
  }

  function Published(s: State, e: Event): File
    requires Enabled(s, e) && Publishes(e)
  {
    File(e.schema, Values(s.writer.hand.command.job.records), e.bytes)
  }

  /** The rename into place, which would replace a file of the same name. */
  function Rename(w: Durability.World, path: Durability.Path, file: File): Durability.World {
    w.(files := w.files[path := file], published := w.published[path := file])
  }

  function Apply(place: Placement, s: State, e: Event): State
    requires Enabled(s, e)
  {
    match e
    case Writes(step, _, _) =>
      State(WriterSystem.Apply(s.writer, step),
            if Publishes(e) then Rename(s.world, place(s.writer.hand.command.job), Published(s, e)) else s.world)
    case Delivers(event) => s.(world := Durability.Apply(s.world, event))
  }

  predicate StepAt(place: Placement, ss: seq<State>, es: seq<Event>, i: nat)
    requires |ss| == |es| + 1 && i < |es|
  {
    Enabled(ss[i], es[i]) && ss[i + 1] == Apply(place, ss[i], es[i])
  }

  ghost predicate IsRun(place: Placement, ss: seq<State>, es: seq<Event>) {
    && |ss| == |es| + 1
    && WriterSystem.Initial(ss[0].writer) && Durability.Initial(ss[0].world)
    && forall i :: 0 <= i < |es| ==> StepAt(place, ss, es, i)
  }

  // ---------------------------------------------------------------------------------------
  // Sequence numbers

  function JobsOfMarket(jobs: seq<Job>, m: Market): nat {
    if jobs == [] then 0
    else JobsOfMarket(jobs[..|jobs| - 1], m) + if jobs[|jobs| - 1].market == m then 1 else 0
  }

  predicate NumberedAt(first: WriterSystem.PerMarket<nat>, jobs: seq<Job>, b: nat)
    requires b < |jobs|
  {
    var m := jobs[b].market;
    jobs[b].sequence == Wrapped(first.At(m) + JobsOfMarket(jobs[..b + 1], m))
  }

  /** Every worker numbers its jobs consecutively from its first number on, wrapping around. */
  ghost predicate Numbered(first: WriterSystem.PerMarket<nat>, s: WriterSystem.State) {
    var jobs := WriterStreams.AllJobs(s);
    && (forall m: Market ::
          s.lanes.At(m).worker.market == m
          && s.lanes.At(m).worker.sequence == Wrapped(first.At(m) + JobsOfMarket(jobs, m)))
    && (forall b :: 0 <= b < |jobs| ==> NumberedAt(first, jobs, b))
  }

  lemma CountAppend(jobs: seq<Job>, job: Job, m: Market)
    ensures JobsOfMarket(jobs + [job], m) == JobsOfMarket(jobs, m) + if job.market == m then 1 else 0
  {
    assert (jobs + [job])[..|jobs|] == jobs;
  }

  lemma {:induction false} CountGrows(jobs: seq<Job>, m: Market, a: nat, b: nat)
    requires a <= b <= |jobs|
    ensures JobsOfMarket(jobs[..a], m) <= JobsOfMarket(jobs[..b], m) <= JobsOfMarket(jobs[..a], m) + b - a
    decreases b
  {
    if a < b {
      assert jobs[..b] == jobs[..b - 1] + [jobs[b - 1]];
      CountAppend(jobs[..b - 1], jobs[b - 1], m);
      CountGrows(jobs, m, a, b - 1);
    }
  }

  lemma NumbersDistinct(first: WriterSystem.PerMarket<nat>, jobs: seq<Job>, a: nat, b: nat)
    requires a < b < |jobs| && |jobs| <= U64 && jobs[a].market == jobs[b].market
    requires NumberedAt(first, jobs, a) && NumberedAt(first, jobs, b)
    ensures jobs[a].sequence != jobs[b].sequence
  {
    var m := jobs[b].market;
    assert jobs[..b + 1] == jobs[..b] + [jobs[b]];
    CountAppend(jobs[..b], jobs[b], m);
    CountGrows(jobs, m, a + 1, b);
    Naming.SequencesDistinct(first.At(m), JobsOfMarket(jobs[..a + 1], m), JobsOfMarket(jobs[..b + 1], m));
  }

  lemma NextNumber(first: nat, n: nat)
    ensures NextSequence(Wrapped(first + n)) == Wrapped(first + (n + 1))
  {
  }

  lemma NumberedPrefix(first: WriterSystem.PerMarket<nat>, jobs: seq<Job>, job: Job, b: nat)
    requires b < |jobs|
    ensures NumberedAt(first, jobs + [job], b) == NumberedAt(first, jobs, b)
  {
    hide Wrapped, JobsOfMarket;
    assert (jobs + [job])[..b + 1] == jobs[..b + 1];
  }

  lemma NumberedLast(first: WriterSystem.PerMarket<nat>, jobs: seq<Job>, job: Job)
    requires job.sequence == Wrapped(first.At(job.market) + (JobsOfMarket(jobs, job.market) + 1))
    ensures NumberedAt(first, jobs + [job], |jobs|)
  {
    hide Wrapped, JobsOfMarket;
    assert (jobs + [job])[..|jobs| + 1] == jobs + [job];
    CountAppend(jobs, job, job.market);
  }

  lemma HandOverNumbered(first: WriterSystem.PerMarket<nat>, s: WriterSystem.State, m: Market, table: string)
    requires Numbered(first, s)
    ensures var made := HandOver(s.lanes.At(m).worker, table).1;
      var jobs := WriterStreams.AllJobs(s) + made;
      && (forall b :: 0 <= b < |jobs| ==> NumberedAt(first, jobs, b))
      && HandOver(s.lanes.At(m).worker, table).0.market == m
      && HandOver(s.lanes.At(m).worker, table).0.sequence == Wrapped(first.At(m) + JobsOfMarket(jobs, m))
      && (forall other: Market :: other != m ==>
            JobsOfMarket(jobs, other) == JobsOfMarket(WriterStreams.AllJobs(s), other))
  {
    hide HandOver, Wrapped, NextSequence, NumberedAt, JobsOfMarket, WriterStreams.AllJobs;
    var w := s.lanes.At(m).worker;
    var jobs, made := WriterStreams.AllJobs(s), HandOver(w, table).1;
    HandOverShape(w, table);
    if made == [] {
      assert jobs + made == jobs;
    } else {
      var job := made[0];
      assert made == [job];
      NextNumber(first.At(m), JobsOfMarket(jobs, m));
      NumberedLast(first, jobs, job);
      forall b | 0 <= b < |jobs| ensures NumberedAt(first, jobs + [job], b) {
        NumberedPrefix(first, jobs, job, b);
      }
      forall other: Market
        ensures JobsOfMarket(jobs + [job], other) == JobsOfMarket(jobs, other) + if m == other then 1 else 0
      {
        CountAppend(jobs, job, other);
      }
    }
  }

  lemma WorkerSteady(s: WriterSystem.State, e: WriterSystem.Event, m: Market)
    requires WriterSystem.Enabled(s, e) && !e.HandOverTable?
    ensures var before, after := s.lanes.At(m).worker, WriterSystem.Apply(s, e).lanes.At(m).worker;
      after.sequence == before.sequence && after.market == before.market
  {
  }

  lemma NumberedKept(first: WriterSystem.PerMarket<nat>, s: WriterSystem.State, e: WriterSystem.Event)
    requires Numbered(first, s) && WriterSystem.Enabled(s, e)
    ensures Numbered(first, WriterSystem.Apply(s, e))
  {
    hide HandOver, NumberedAt, JobsOfMarket, Wrapped;
    WriterStreams.AllJobsStep(s, e);
    if e.HandOverTable? {
      HandOverNumbered(first, s, e.market, e.table);
    } else {
      assert WriterStreams.AllJobs(WriterSystem.Apply(s, e)) == WriterStreams.AllJobs(s);
      forall m: Market { WorkerSteady(s, e, m); }
    }
  }

  // ---------------------------------------------------------------------------------------
  // What the writer has published

  function Written(s: State): seq<Job> {
    WriterStreams.LogJobs(s.writer.log)
  }

  predicate Stored(place: Placement, s: State, k: nat)
    requires k < |s.writer.log|
  {
    var entry := s.writer.log[k];
    entry.Wrote? && entry.ok ==>
      var path := place(entry.job);
      path in s.world.published && s.world.published[path].rows == Values(entry.job.records)
  }

  /** A published path is that of a job written, and every successful write is published. */
  ghost predicate Faithful(place: Placement, s: State) {
    && (forall path <- s.world.published :: exists a :: 0 <= a < |Written(s)| && path == place(Written(s)[a]))
    && (forall k :: 0 <= k < |s.writer.log| ==> Stored(place, s, k))
  }

  ghost predicate Inv(place: Placement, first: WriterSystem.PerMarket<nat>, s: State) {
    Separates(place) && Numbered(first, s.writer) && Faithful(place, s) && Durability.Inv(s.world)
  }

  /** Fewer than 2 to the 64 jobs so far. */
  predicate FewJobs(s: State) {
    |WriterStreams.AllJobs(s.writer)| <= U64
  }

  /** The job in the encoder's hand comes right after those written. */
  lemma HandFollows(s: WriterSystem.State)
    requires s.hand.Fresh? && s.hand.command.Write?
    ensures var jobs, n := WriterStreams.AllJobs(s), |WriterStreams.LogJobs(s.log)|;
      && n < |jobs| && jobs[n] == s.hand.command.job
      && forall a :: 0 <= a < n ==> jobs[a] == WriterStreams.LogJobs(s.log)[a]
  {
  }

  /** A successful write finds no segment under its path. */
  lemma PathIsFresh(place: Placement, first: WriterSystem.PerMarket<nat>, s: State, e: Event)
    requires Inv(place, first, s) && FewJobs(s) && Enabled(s, e) && Publishes(e)
    ensures place(s.writer.hand.command.job) !in s.world.published
  {
    var job, jobs, n := s.writer.hand.command.job, WriterStreams.AllJobs(s.writer), |Written(s)|;
    HandFollows(s.writer);
    forall a | 0 <= a < n ensures place(Written(s)[a]) != place(job) {
      assert NumberedAt(first, jobs, a) && NumberedAt(first, jobs, n);
      if jobs[a].market == jobs[n].market {
        NumbersDistinct(first, jobs, a, n);
      }
      assert Apart(place, jobs[a], jobs[n]);
    }
  }

  /** What the event is to the rest of the pipeline. */
  function WorldEvent(place: Placement, s: State, e: Event): Durability.Event
    requires Enabled(s, e)
  {
    match e
    case Writes(_, _, _) =>
      if Publishes(e) then Durability.Publish(place(s.writer.hand.command.job), Published(s, e))
      else Durability.Remote(Bucket.Tick(s.world.bucket.now))
    case Delivers(event) => event
  }

  lemma WorldSteps(place: Placement, first: WriterSystem.PerMarket<nat>, s: State, e: Event)
    requires Inv(place, first, s) && FewJobs(s) && Enabled(s, e)
    ensures Durability.Enabled(s.world, WorldEvent(place, s, e))
    ensures Apply(place, s, e).world == Durability.Apply(s.world, WorldEvent(place, s, e))
  {
    if Publishes(e) {
      PathIsFresh(place, first, s, e);
    }
  }

  lemma LogSteps(s: WriterSystem.State, e: WriterSystem.Event)
    requires WriterSystem.Enabled(s, e)
    ensures WriterSystem.Apply(s, e).log
         == s.log + (if e.Encode? then [WriterSystem.Wrote(s.hand.command.job, e.ok)]
                     else if e.AnswerBarrier?
                       then [WriterSystem.Answer(s.hand.command.market, s.hand.command.ticket, !s.pendingError)]
                     else [])
  {
  }

  lemma DeliveryPublishesNothing(w: Durability.World, e: Durability.Event)
    requires Durability.Enabled(w, e) && !e.Publish?
    ensures Durability.Apply(w, e).published == w.published
  {
  }

  /** One more entry that is no successful write. */
  lemma FaithfulLonger(place: Placement, s: State, next: State, extra: seq<WriterSystem.Entry>)
    requires Faithful(place, s) && next.world.published == s.world.published
    requires |extra| <= 1 && next.writer.log == s.writer.log + extra
    requires extra != [] ==> !(extra[0].Wrote? && extra[0].ok)
    ensures Faithful(place, next)
  {
    if extra != [] {
      WriterStreams.LogJobsAppend(s.writer.log, extra[0]);
    } else {
      assert s.writer.log + extra == s.writer.log;
    }
    forall path | path in next.world.published
      ensures exists a :: 0 <= a < |Written(next)| && path == place(Written(next)[a])
    {
      var a :| 0 <= a < |Written(s)| && path == place(Written(s)[a]);
      assert Written(next)[a] == Written(s)[a];
    }
    forall k | 0 <= k < |next.writer.log| ensures Stored(place, next, k) {
      assert k < |s.writer.log| ==> Stored(place, s, k);
    }
  }

  lemma FaithfulPublished(place: Placement, s: State, next: State, job: Job, path: Durability.Path, file: File)
    requires Faithful(place, s) && path == place(job) && path !in s.world.published
    requires next.world.published == s.world.published[path := file] && file.rows == Values(job.records)
    requires next.writer.log == s.writer.log + [WriterSystem.Wrote(job, true)]
    ensures Faithful(place, next)
  {
    WriterStreams.LogJobsAppend(s.writer.log, WriterSystem.Wrote(job, true));
    var n := |Written(s)|;
    assert Written(next)[n] == job;
    forall q | q in next.world.published
      ensures exists a :: 0 <= a < |Written(next)| && q == place(Written(next)[a])
    {
      if q != path {
        var a :| 0 <= a < |Written(s)| && q == place(Written(s)[a]);
        assert Written(next)[a] == Written(s)[a];
      }
    }
    forall k | 0 <= k < |next.writer.log| ensures Stored(place, next, k) {
      assert k < |s.writer.log| ==> Stored(place, s, k);
    }
  }

  lemma FaithfulKept(place: Placement, first: WriterSystem.PerMarket<nat>, s: State, e: Event)
    requires Inv(place, first, s) && FewJobs(s) && Enabled(s, e)
    ensures Faithful(place, Apply(place, s, e))
  {
    var next := Apply(place, s, e);
    if e.Delivers? {
      DeliveryPublishesNothing(s.world, e.event);
      assert s.writer.log + [] == s.writer.log;
      FaithfulLonger(place, s, next, []);
    } else {
      LogSteps(s.writer, e.step);
      if Publishes(e) {
        var job := s.writer.hand.command.job;
        PathIsFresh(place, first, s, e);
        FaithfulPublished(place, s, next, job, place(job), Published(s, e));
      } else {
        FaithfulLonger(place, s, next, next.writer.log[|s.writer.log|..]);
      }
    }
  }

  lemma InvKept(place: Placement, first: WriterSystem.PerMarket<nat>, s: State, e: Event)
    requires Inv(place, first, s) && FewJobs(s) && Enabled(s, e)
    ensures Inv(place, first, Apply(place, s, e))
  {
    if e.Writes? {
      NumberedKept(first, s.writer, e.step);
    }
    FaithfulKept(place, first, s, e);
    WorldSteps(place, first, s, e);
    Durability.InvKept(s.world, WorldEvent(place, s, e));
  }

  function FirstNumbers(s: State): WriterSystem.PerMarket<nat> {
    WriterSystem.PerMarket(
      s.writer.lanes.spot.worker.sequence,
      s.writer.lanes.usdm.worker.sequence,
      s.writer.lanes.coinm.worker.sequence)
  }

  /** Sequence numbers are 64-bit from the start. */
  predicate NumbersFit(s: State) {
    forall m: Market :: s.writer.lanes.At(m).worker.sequence < U64
  }

  /** A run in which paths keep jobs apart, numbers are 64 bits wide and do not run out. */
  ghost predicate Proper(place: Placement, ss: seq<State>, es: seq<Event>) {
    IsRun(place, ss, es) && Separates(place) && NumbersFit(ss[0]) && forall i :: 0 <= i < |ss| ==> FewJobs(ss[i])
  }

  lemma InvStarts(place: Placement, s: State)
    requires Separates(place) && WriterSystem.Initial(s.writer) && Durability.Initial(s.world) && NumbersFit(s)
    ensures Inv(place, FirstNumbers(s), s)
  {
    hide Separates;
    var first := FirstNumbers(s);
    assert WriterStreams.AllJobs(s.writer) == [];
    forall m: Market ensures s.writer.lanes.At(m).worker.sequence == Wrapped(first.At(m) + 0) {
      assert s.writer.lanes.At(m).worker.sequence < U64;
    }
  }

  lemma {:induction false} InvHolds(place: Placement, ss: seq<State>, es: seq<Event>, i: nat)
    requires Proper(place, ss, es) && i < |ss|
    ensures Inv(place, FirstNumbers(ss[0]), ss[i])
  {
    hide Inv, NumbersFit, Separates, WriterSystem.Initial, Durability.Initial, FewJobs;
    if i > 0 {
      assert StepAt(place, ss, es, i - 1);
      hide Apply, Enabled;
      InvHolds(place, ss, es, i - 1);
      InvKept(place, FirstNumbers(ss[0]), ss[i - 1], es[i - 1]);
    } else {
      InvStarts(place, ss[0]);
    }
  }

  // ---------------------------------------------------------------------------------------
  // The two halves of a run

  function Worlds(ss: seq<State>): (r: seq<Durability.World>)
    ensures |r| == |ss|
  {
    seq(|ss|, i requires 0 <= i < |ss| => ss[i].world)
  }

  ghost function WorldEvents(place: Placement, ss: seq<State>, es: seq<Event>): (r: seq<Durability.Event>)
    requires IsRun(place, ss, es)
    ensures |r| == |es|
  {
    seq(|es|, i requires 0 <= i < |es| => assert StepAt(place, ss, es, i); WorldEvent(place, ss[i], es[i]))
  }

  /** No write ever replaces a segment: the rest of the pipeline sees only fresh publications. */
  lemma WorldRun(place: Placement, ss: seq<State>, es: seq<Event>)
    requires Proper(place, ss, es)
    ensures Durability.IsRun(Worlds(ss), WorldEvents(place, ss, es))
  {
    forall i | 0 <= i < |es|
      ensures Durability.StepAt(Worlds(ss), WorldEvents(place, ss, es), i)
    {
      assert StepAt(place, ss, es, i);
      InvHolds(place, ss, es, i);
      WorldSteps(place, FirstNumbers(ss[0]), ss[i], es[i]);
    }
  }

  lemma WriterRunLonger(ws: seq<WriterSystem.State>, xs: seq<WriterSystem.Event>,
                        next: WriterSystem.State, x: WriterSystem.Event)
    requires WriterSystem.IsRun(ws, xs) && WriterSystem.Enabled(ws[|xs|], x) && next == WriterSystem.Apply(ws[|xs|], x)
    ensures WriterSystem.IsRun(ws + [next], xs + [x])
  {
    hide WriterSystem.Apply, WriterSystem.Enabled;
    forall i | 0 <= i < |xs| + 1 ensures WriterSystem.StepAt(ws + [next], xs + [x], i) {
      assert i < |xs| ==> WriterSystem.StepAt(ws, xs, i);
    }
  }

  /** The writer's own steps are a run of the writer. */
  lemma {:induction false} WriterRun(place: Placement, ss: seq<State>, es: seq<Event>, i: nat)
    returns (ws: seq<WriterSystem.State>, xs: seq<WriterSystem.Event>)
    requires IsRun(place, ss, es) && i < |ss|
    ensures WriterSystem.IsRun(ws, xs) && ws[|xs|] == ss[i].writer
  {
    hide WriterSystem.Apply, WriterSystem.Enabled, Rename;
    if i == 0 {
      ws, xs := [ss[0].writer], [];
    } else {
      ws, xs := WriterRun(place, ss, es, i - 1);
      assert StepAt(place, ss, es, i - 1);
      if es[i - 1].Writes? {
        WriterRunLonger(ws, xs, ss[i].writer, es[i - 1].step);
        ws, xs := ws + [ss[i].writer], xs + [es[i - 1].step];
      }
    }
  }

  // ---------------------------------------------------------------------------------------
  // A flushed record is durable

  ghost predicate SafeTakeovers(place: Placement, ss: seq<State>, es: seq<Event>)
    requires Proper(place, ss, es)
  {
    WorldRun(place, ss, es);
    Durability.SafeTakeovers(Worlds(ss), WorldEvents(place, ss, es))
  }

  /** Entry `j` wrote the record. */
  predicate Carries(log: seq<WriterSystem.Entry>, j: nat, m: Market, table: string, record: Record) {
    && j < |log| && log[j].Wrote?
    && log[j].job.market == m && log[j].job.table == table && record in log[j].job.records
  }

  lemma {:induction false} FindWrite(log: seq<WriterSystem.Entry>, m: Market, table: string, record: Record)
    returns (j: nat)
    requires record in WriterStreams.JobRecords(WriterStreams.LogJobs(log), m, table)
    ensures Carries(log, j, m, table, record)
  {
    var front, last := log[..|log| - 1], log[|log| - 1];
    assert log == front + [last];
    WriterStreams.LogJobsAppend(front, last);
    var jobs := WriterStreams.LogJobs(front);
    if last.Wrote? {
      assert WriterStreams.LogJobs(log) == jobs + [last.job];
      assert (jobs + [last.job])[..|jobs|] == jobs;
    } else {
      assert WriterStreams.LogJobs(log) == jobs;
    }
    if last.Wrote? && last.job.market == m && last.job.table == table && record in last.job.records {
      j := |log| - 1;
    } else {
      j := FindWrite(front, m, table, record);
    }
  }

  lemma PublishedRowKept(place: Placement, ss: seq<State>, es: seq<Event>, i: nat, j: nat, record: Record)
    requires Proper(place, ss, es) && SafeTakeovers(place, ss, es) && i < |ss|
    requires var log := ss[i].writer.log; j < |log| && log[j].Wrote? && log[j].ok && record in log[j].job.records
    ensures Durability.Kept(ss[i].world, place(ss[i].writer.log[j].job), record.values)
  {
    var job := ss[i].writer.log[j].job;
    InvHolds(place, ss, es, i);
    assert Stored(place, ss[i], j);
    var k :| 0 <= k < |job.records| && job.records[k] == record;
    assert Values(job.records)[k] == record.values;
    WorldRun(place, ss, es);
    Durability.EndToEnd(Worlds(ss), WorldEvents(place, ss, es), i, place(job), record.values);
  }

  /** Where the record of the flushed table ended up: in a segment that can be read, or in a failed
      write that an answer before place `before` of the log reported. */
  ghost predicate Accounted(place: Placement, s: State, m: Market, table: string, record: Record, before: nat) {
    exists j: nat ::
      && Carries(s.writer.log, j, m, table, record)
      && if s.writer.log[j].ok then Durability.Kept(s.world, place(s.writer.log[j].job), record.values)
         else FlushBarrier.Reported(s.writer.log, j, before)
  }

  /** The flushed record was written, and a failed write was reported before the flush was
      answered; before the flush began, if no other flush was told of an error meanwhile. */
  lemma FlushedRecordWritten(place: Placement, ss: seq<State>, es: seq<Event>, i: nat, c: nat, stage: nat,
                             table: string, record: Record) returns (j: nat)
    requires Proper(place, ss, es)
    requires i < |ss| && stage < |WriterSystem.FLUSH_ORDER| && c in ss[i].writer.calls
    requires ss[i].writer.calls[c].outcome.Succeeded?
    requires record in OfTable(ss[i].writer.calls[c].submitted.At(WriterSystem.FLUSH_ORDER[stage]), table)
    ensures var log, call := ss[i].writer.log, ss[i].writer.calls[c];
      && stage < |call.replies| && call.replies[stage] < |log|
      && Carries(log, j, WriterSystem.FLUSH_ORDER[stage], table, record)
      && (!log[j].ok ==> FlushBarrier.Reported(log, j, call.replies[stage]))
      && (!log[j].ok && FlushBarrier.Undisturbed(log, call.start, call.replies[stage]) ==>
            FlushBarrier.Reported(log, j, call.start))
  {
    var s, call, m := ss[i].writer, ss[i].writer.calls[c], WriterSystem.FLUSH_ORDER[stage];
    var ws, xs := WriterRun(place, ss, es, i);
    FlushBarrier.FlushGuarantee(ws, xs, |xs|, c, stage, table);
    var log := s.log[..call.replies[stage]];
    j := FindWrite(log, m, table, record);
    assert log[j] == s.log[j];
  }

  /** A flush that returned Ok: every record any market had been given before it can be read (from
      its local segment, from a live segment in S3 or from the marked compacted output), or its
      write failed and some flush was told so; an earlier flush, if no other flush was told of an
      error while this one was under way. */
  lemma FlushIsDurable(place: Placement, ss: seq<State>, es: seq<Event>, i: nat, c: nat, stage: nat,
                       table: string, record: Record)
    requires Proper(place, ss, es) && SafeTakeovers(place, ss, es)
    requires i < |ss| && stage < |WriterSystem.FLUSH_ORDER| && c in ss[i].writer.calls
    requires ss[i].writer.calls[c].outcome.Succeeded?
    requires record in OfTable(ss[i].writer.calls[c].submitted.At(WriterSystem.FLUSH_ORDER[stage]), table)
    ensures var log, call, m := ss[i].writer.log, ss[i].writer.calls[c], WriterSystem.FLUSH_ORDER[stage];
      && stage < |call.replies| && call.replies[stage] < |log|
      && Accounted(place, ss[i], m, table, record, call.replies[stage])
      && (FlushBarrier.Undisturbed(log, call.start, call.replies[stage]) ==>
            Accounted(place, ss[i], m, table, record, call.start))
  {
    var j := FlushedRecordWritten(place, ss, es, i, c, stage, table, record);
    if ss[i].writer.log[j].ok {
      PublishedRowKept(place, ss, es, i, j, record);
    }
  }
}
