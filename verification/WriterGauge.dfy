/**
 The shared byte gauge and the record counter, under every interleaving of the three workers
 and the encoder, as long as the byte totals fit the 64-bit counters.
 */
module WriterGauge {
  import opened Numbers
  import opened Markets
  import opened Buffering
  import opened WriterSystem
  import opened WriterStreams

  function JobBytes(jobs: seq<Job>): nat {
    if jobs == [] then 0 else JobBytes(jobs[..|jobs| - 1]) + jobs[|jobs| - 1].bytes
  }

  /** The job in the encoder's hand whose bytes the gauge still shows. */
  function HandBytes(hand: Hand): nat {
    match hand
    case Fresh(command) => if command.Write? then command.job.bytes else 0
    case Written(job, _) => job.bytes
    case _ => 0
  }

  ghost function LaneBytes(lane: Lane): nat {
    TableBytes(lane.worker.tables)
  }

  ghost function BufferedBytes(lanes: PerMarket<Lane>): nat {
    LaneBytes(lanes.spot) + LaneBytes(lanes.usdm) + LaneBytes(lanes.coinm)
  }

  /** The bytes buffered, queued and in the encoder's hand. */
  ghost function Outstanding(s: State): nat {
    BufferedBytes(s.lanes) + JobBytes(JobsOf(s.queue)) + HandBytes(s.hand)
  }

  /** An accepted record keeps the total below the counters' limit. */
  ghost predicate Fits(s: State, e: Event) {
    e.AcceptNext? && Enabled(s, e) ==> Outstanding(s) + s.lanes.At(e.market).pc.command.records[0].weight < U64
  }

  ghost predicate AlwaysFits(ss: seq<State>, es: seq<Event>)
    requires IsRun(ss, es)
  {
    forall i :: 0 <= i < |es| ==> Fits(ss[i], es[i])
  }

  ghost predicate LaneExact(lane: Lane) {
    && (forall table <- lane.worker.tables :: lane.worker.tables[table].records != [])
    && lane.worker.total == TableBytes(lane.worker.tables)
  }

  ghost predicate Exact(s: State) {
    && s.gauge == Outstanding(s) < U64
    && forall m: Market :: LaneExact(s.lanes.At(m))
  }

  /** Accepting a record adds its weight to its worker, as long as nothing saturates. */
  lemma AcceptExact(lane: Lane, record: Record, now: int)
    requires LaneExact(lane) && TableBytes(lane.worker.tables) + record.weight < U64
    ensures LaneExact(lane.(worker := Accept(lane.worker, record, now)))
    ensures TableBytes(Accept(lane.worker, record, now).tables) == TableBytes(lane.worker.tables) + record.weight
  {
    var tables, after := lane.worker.tables, Accept(lane.worker, record, now).tables;
    if record.table in tables {
      TableBytesRemove(tables, record.table);
    } else {
      assert tables - {record.table} == tables;
    }
    TableBytesRemove(after, record.table);
    assert after - {record.table} == tables - {record.table};
  }

  /** Handing a buffer over moves its bytes to the job. */
  lemma HandOverExact(lane: Lane, table: string)
    requires LaneExact(lane) && TableBytes(lane.worker.tables) < U64 && table in lane.worker.tables
    ensures LaneExact(lane.(worker := HandOver(lane.worker, table).0))
    ensures |HandOver(lane.worker, table).1| == 1
    ensures TableBytes(HandOver(lane.worker, table).0.tables) + HandOver(lane.worker, table).1[0].bytes
         == TableBytes(lane.worker.tables)
  {
    TableBytesRemove(lane.worker.tables, table);
  }

  lemma JobBytesAppend(jobs: seq<Job>, job: Job)
    ensures JobBytes(jobs + [job]) == JobBytes(jobs) + job.bytes
  {
    assert (jobs + [job])[..|jobs|] == jobs;
  }

  lemma {:induction false} JobBytesHead(jobs: seq<Job>)
    requires jobs != []
    ensures JobBytes(jobs) == jobs[0].bytes + JobBytes(jobs[1..])
  {
    if |jobs| == 1 {
      assert jobs[1..] == [] && jobs[..0] == [];
    } else {
      var n := |jobs| - 1;
      JobBytesHead(jobs[..n]);
      assert jobs[..n][1..] == jobs[1..][..n - 1];
    }
  }

  lemma BufferedAt(lanes: PerMarket<Lane>, m: Market, lane: Lane)
    ensures LaneBytes(lanes.At(m)) <= BufferedBytes(lanes)
    ensures BufferedBytes(lanes.With(m, lane)) == BufferedBytes(lanes) - LaneBytes(lanes.At(m)) + LaneBytes(lane)
  {
  }

  lemma LanesExact(lanes: PerMarket<Lane>, m: Market, lane: Lane)
    requires LaneExact(lane) && forall other: Market :: LaneExact(lanes.At(other))
    ensures forall other: Market :: LaneExact(lanes.With(m, lane).At(other))
  {
    forall other: Market
      ensures LaneExact(lanes.With(m, lane).At(other))
    {
      assert LaneExact(lanes.At(other));
    }
  }

  lemma ExactAccept(s: State, e: Event)
    requires Exact(s) && Enabled(s, e) && e.AcceptNext? && Fits(s, e)
    ensures Exact(Apply(s, e))
  {
    var lane := s.lanes.At(e.market);
    var after := Advance(lane, e);
    BufferedAt(s.lanes, e.market, after);
    AcceptExact(lane, lane.pc.command.records[0], e.now);
    assert after.worker == Accept(lane.worker, lane.pc.command.records[0], e.now);
    LanesExact(s.lanes, e.market, after);
  }

  lemma ExactHandOver(s: State, e: Event)
    requires Exact(s) && Enabled(s, e) && e.HandOverTable?
    ensures Exact(Apply(s, e))
  {
    var lane := s.lanes.At(e.market);
    var after := Advance(lane, e);
    BufferedAt(s.lanes, e.market, after);
    HandOverExact(lane, e.table);
    LanesExact(s.lanes, e.market, after);
    var jobs := HandOver(lane.worker, e.table).1;
    QueueJobs(s.queue, jobs);
    assert jobs == [jobs[0]];
    JobBytesAppend(JobsOf(s.queue), jobs[0]);
  }

  lemma ExactReceive(s: State, e: Event)
    requires Exact(s) && Enabled(s, e) && e.Receive?
    ensures Exact(Apply(s, e))
  {
    QueueHead(s.queue);
    if s.queue[0].Write? {
      assert JobsOf(s.queue) == [s.queue[0].job] + JobsOf(s.queue[1..]);
      JobBytesHead(JobsOf(s.queue));
      assert JobsOf(s.queue)[1..] == JobsOf(s.queue[1..]);
    } else {
      assert JobsOf(s.queue) == JobsOf(s.queue[1..]);
    }
  }

  lemma LanesOther(s: State, e: Event, m: Market)
    requires Enabled(s, e) && !e.AcceptNext? && !e.HandOverTable?
    ensures var before, after := s.lanes.At(m).worker, Apply(s, e).lanes.At(m).worker;
      after.tables == before.tables && after.total == before.total
  {
  }

  lemma SumLanes(before: PerMarket<Lane>, after: PerMarket<Lane>)
    requires forall m: Market :: LaneBytes(after.At(m)) == LaneBytes(before.At(m))
    ensures BufferedBytes(after) == BufferedBytes(before)
  {
    assert LaneBytes(after.At(Spot)) == LaneBytes(before.At(Spot));
    assert LaneBytes(after.At(Usdm)) == LaneBytes(before.At(Usdm));
    assert LaneBytes(after.At(Coinm)) == LaneBytes(before.At(Coinm));
  }

  lemma ExactOther(s: State, e: Event)
    requires Exact(s) && Enabled(s, e) && !e.AcceptNext? && !e.HandOverTable? && !e.Receive?
    ensures Exact(Apply(s, e))
  {
    forall m: Market
      ensures LaneExact(Apply(s, e).lanes.At(m)) && LaneBytes(Apply(s, e).lanes.At(m)) == LaneBytes(s.lanes.At(m))
    {
      assert LaneExact(s.lanes.At(m));
      LanesOther(s, e, m);
    }
    SumLanes(s.lanes, Apply(s, e).lanes);
    if e.SendBarrier? {
      JobsOfAppend(s.queue, Barrier(e.market, s.lanes.At(e.market).pc.command.ticket));
      assert JobsOf(s.queue) + [] == JobsOf(s.queue);
    }
  }

  lemma ExactKept(s: State, e: Event)
    requires Exact(s) && Enabled(s, e) && Fits(s, e)
    ensures Exact(Apply(s, e))
  {
    match e
    case AcceptNext(_, _) => ExactAccept(s, e);
    case HandOverTable(_, _) => ExactHandOver(s, e);
    case Receive => ExactReceive(s, e);
    case _ => ExactOther(s, e);
  }

  /** The gauge shows exactly the bytes buffered, queued and in the encoder's hand, and every
      worker's own total is the sum of its buffers. */
  lemma {:induction false} GaugeIsExact(ss: seq<State>, es: seq<Event>, i: nat)
    requires IsRun(ss, es) && AlwaysFits(ss, es) && i < |ss|
    ensures Exact(ss[i])
  {
    if i > 0 {
      assert StepAt(ss, es, i - 1);
      GaugeIsExact(ss, es, i - 1);
      ExactKept(ss[i - 1], es[i - 1]);
    } else {
      assert ss[0].lanes.At(Spot).worker.tables == map[];
      assert ss[0].lanes.At(Usdm).worker.tables == map[];
      assert ss[0].lanes.At(Coinm).worker.tables == map[];
    }
  }

  /** The encoder never subtracts more than the gauge shows. */
  lemma GaugeNeverUnderflows(ss: seq<State>, es: seq<Event>, i: nat)
    requires IsRun(ss, es) && AlwaysFits(ss, es) && i < |es| && es[i].Discount?
    ensures ss[i].hand.Written? && ss[i].hand.job.bytes <= ss[i].gauge
    ensures ss[i + 1].gauge == ss[i].gauge - ss[i].hand.job.bytes
  {
    GaugeIsExact(ss, es, i);
    assert StepAt(ss, es, i);
  }

  // ---------------------------------------------------------------------------------------
  // The record counter

  /** The records in published segments. */
  function Published(log: seq<Entry>): nat {
    if log == [] then 0
    else
      var last := log[|log| - 1];
      Published(log[..|log| - 1]) + if last.Wrote? && last.ok then |last.job.records| else 0
  }

  lemma PublishedAppend(log: seq<Entry>, entry: Entry)
    ensures Published(log + [entry]) == Published(log) + if entry.Wrote? && entry.ok then |entry.job.records| else 0
  {
    assert (log + [entry])[..|log|] == log;
  }

  ghost predicate Counts(s: State) {
    AnswerInv(s) && s.written == Published(Noted(s))
  }

  lemma CountsKept(s: State, e: Event)
    requires Counts(s) && Enabled(s, e)
    ensures Counts(Apply(s, e))
  {
    AnswerInvKept(s, e);
    var t := Apply(s, e);
    match e
    case Encode(_) => assert Noted(t) == s.log;
    case Settle =>
      assert s.log == Noted(s) + [Wrote(s.hand.job, s.hand.ok)];
      PublishedAppend(Noted(s), Wrote(s.hand.job, s.hand.ok));
    case AnswerBarrier =>
      PublishedAppend(s.log, Answer(s.hand.command.market, s.hand.command.ticket, !s.pendingError));
    case _ => assert Noted(t) == Noted(s);
  }

  /** The counter of written records is the number of records in published segments, the job
      still in the encoder's hand excepted. */
  lemma {:induction false} WrittenIsPublished(ss: seq<State>, es: seq<Event>, i: nat)
    requires IsRun(ss, es) && i < |ss|
    ensures Counts(ss[i])
    ensures !ss[i].hand.Written? && !ss[i].hand.Discounted? ==> ss[i].written == Published(ss[i].log)
  {
    if i > 0 {
      assert StepAt(ss, es, i - 1);
      WrittenIsPublished(ss, es, i - 1);
      CountsKept(ss[i - 1], es[i - 1]);
    }
  }
}
