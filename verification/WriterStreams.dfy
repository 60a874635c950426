/**
 Conservation across the whole writer: for every market and table, what has been written
 (published or failed), is in the encoder's hand, queued, buffered, in the worker's hands or
 in its inbox is, in this order, exactly what was submitted.
 */
module WriterStreams {
  import opened Numbers
  import opened Markets
  import opened Buffering
  import opened WriterSystem

  /** The records of one market's table over a sequence of jobs. */
  function JobRecords(jobs: seq<Job>, m: Market, table: string): seq<Record> {
    if jobs == [] then []
    else
      var job := jobs[|jobs| - 1];
      JobRecords(jobs[..|jobs| - 1], m, table) + if job.market == m && job.table == table then job.records else []
  }

  function LogJobs(log: seq<Entry>): seq<Job> {
    if log == [] then []
    else
      var last := log[|log| - 1];
      LogJobs(log[..|log| - 1]) + if last.Wrote? then [last.job] else []
  }

  /** The job in the encoder's hand that is not in the log yet. */
  function HandJobs(hand: Hand): seq<Job> {
    if hand.Fresh? && hand.command.Write? then [hand.command.job] else []
  }

  /** All jobs ever handed over, oldest first. */
  function AllJobs(s: State): seq<Job> {
    LogJobs(s.log) + HandJobs(s.hand) + JobsOf(s.queue)
  }

  function Buffered(w: Worker, table: string): seq<Record> {
    if table in w.tables then w.tables[table].records else []
  }

  /** The records a worker has taken from its inbox and not accepted yet. */
  function Taken(pc: Pc): seq<Record> {
    if pc.Rolling? || pc.Handling? then RecordsOf(pc.command) else []
  }

  function InboxRecords(inbox: seq<Command>): seq<Record> {
    if inbox == [] then [] else InboxRecords(inbox[..|inbox| - 1]) + RecordsOf(inbox[|inbox| - 1])
  }

  /** Everything of one market's table that has left the worker's inbox and hands. */
  function Settled(s: State, m: Market, table: string): seq<Record> {
    JobRecords(AllJobs(s), m, table) + Buffered(s.lanes.At(m).worker, table)
  }

  /** What a worker has not accepted yet. */
  function Ahead(lane: Lane, table: string): seq<Record> {
    OfTable(Taken(lane.pc), table) + OfTable(InboxRecords(lane.inbox), table)
  }

  ghost predicate Conserved(s: State, m: Market, table: string) {
    OfTable(s.lanes.At(m).submitted, table) == Settled(s, m, table) + Ahead(s.lanes.At(m), table)
  }

  // ---------------------------------------------------------------------------------------
  // How the pieces combine

  lemma {:induction false} JobRecordsConcat(a: seq<Job>, b: seq<Job>, m: Market, table: string)
    ensures JobRecords(a + b, m, table) == JobRecords(a, m, table) + JobRecords(b, m, table)
  {
    if b == [] {
      assert a + b == a;
    } else {
      assert (a + b)[..|a + b| - 1] == a + b[..|b| - 1];
      JobRecordsConcat(a, b[..|b| - 1], m, table);
    }
  }

  lemma {:induction false} OfTableConcat(a: seq<Record>, b: seq<Record>, table: string)
    ensures OfTable(a + b, table) == OfTable(a, table) + OfTable(b, table)
  {
    if b == [] {
      assert a + b == a;
    } else {
      assert (a + b)[..|a + b| - 1] == a + b[..|b| - 1];
      OfTableConcat(a, b[..|b| - 1], table);
    }
  }

  lemma {:induction false} JobsOfConcat(a: seq<EncodeCommand>, b: seq<EncodeCommand>)
    ensures JobsOf(a + b) == JobsOf(a) + JobsOf(b)
  {
    if b == [] {
      assert a + b == a;
    } else {
      assert (a + b)[..|a + b| - 1] == a + b[..|b| - 1];
      JobsOfConcat(a, b[..|b| - 1]);
    }
  }

  lemma {:induction false} InboxConcat(a: seq<Command>, b: seq<Command>)
    ensures InboxRecords(a + b) == InboxRecords(a) + InboxRecords(b)
  {
    if b == [] {
      assert a + b == a;
    } else {
      assert (a + b)[..|a + b| - 1] == a + b[..|b| - 1];
      InboxConcat(a, b[..|b| - 1]);
    }
  }

  lemma JobsOfOne(command: EncodeCommand)
    ensures JobsOf([command]) == if command.Write? then [command.job] else []
  {
    assert [command] == [] + [command];
    JobsOfAppend([], command);
  }

  lemma InboxOne(command: Command)
    ensures InboxRecords([command]) == RecordsOf(command)
  {
    assert [command][..0] == [];
  }

  lemma OfTableOne(record: Record, table: string)
    ensures OfTable([record], table) == if record.table == table then [record] else []
  {
    assert [record][..0] == [];
  }

  lemma LogJobsAppend(log: seq<Entry>, entry: Entry)
    ensures LogJobs(log + [entry]) == LogJobs(log) + if entry.Wrote? then [entry.job] else []
  {
    assert (log + [entry])[..|log|] == log;
  }

  // ---------------------------------------------------------------------------------------
  // The jobs ever handed over only grow at the end

  lemma QueueJobs(queue: seq<EncodeCommand>, jobs: seq<Job>)
    requires |jobs| <= 1
    ensures JobsOf(queue + Writes(jobs)) == JobsOf(queue) + jobs
  {
    if jobs == [] {
      assert queue + Writes(jobs) == queue;
    } else {
      assert Writes(jobs) == [Write(jobs[0])];
      JobsOfAppend(queue, Write(jobs[0]));
    }
  }

  lemma QueueHead(queue: seq<EncodeCommand>)
    requires queue != []
    ensures JobsOf(queue) == HandJobs(Fresh(queue[0])) + JobsOf(queue[1..])
  {
    JobsOfConcat([queue[0]], queue[1..]);
    JobsOfOne(queue[0]);
    assert [queue[0]] + queue[1..] == queue;
  }

  lemma AllJobsEncoder(s: State, e: Event)
    requires Enabled(s, e) && (e.Receive? || e.Encode? || e.AnswerBarrier?)
    ensures AllJobs(Apply(s, e)) == AllJobs(s)
  {
    hide LogJobs, JobsOf, Wrapped;
    if e.Receive? {
      QueueHead(s.queue);
    } else if e.Encode? {
      LogJobsAppend(s.log, Wrote(s.hand.command.job, e.ok));
    } else {
      LogJobsAppend(s.log, Answer(s.hand.command.market, s.hand.command.ticket, !s.pendingError));
    }
  }

  /** The encoder moves jobs along; only a worker's hand-over adds one. */
  lemma AllJobsStep(s: State, e: Event)
    requires Enabled(s, e)
    ensures AllJobs(Apply(s, e))
         == AllJobs(s) + if e.HandOverTable? then HandOver(s.lanes.At(e.market).worker, e.table).1 else []
  {
    hide Wrapped, Capped, NextSequence;
    if e.HandOverTable? {
      QueueJobs(s.queue, HandOver(s.lanes.At(e.market).worker, e.table).1);
    } else if e.SendBarrier? {
      JobsOfAppend(s.queue, Barrier(e.market, s.lanes.At(e.market).pc.command.ticket));
    } else if e.Receive? || e.Encode? || e.AnswerBarrier? {
      AllJobsEncoder(s, e);
    }
  }

  /** Handing a buffer over adds its records to the jobs and takes them from the buffer. */
  lemma HandOverMoves(jobs: seq<Job>, w: Worker, flushed: string, m: Market, table: string)
    ensures JobRecords(jobs + HandOver(w, flushed).1, m, table)
         == JobRecords(jobs, m, table) + if w.market == m && flushed == table then Buffered(w, table) else []
    ensures Buffered(HandOver(w, flushed).0, table) == if flushed == table then [] else Buffered(w, table)
  {
    var made := HandOver(w, flushed).1;
    if made == [] {
      assert jobs + made == jobs;
    } else {
      assert (jobs + made)[..|jobs|] == jobs;
    }
  }

  ghost predicate Owned(s: State) {
    forall m: Market :: s.lanes.At(m).worker.market == m
  }

  lemma OwnedKept(s: State, e: Event)
    requires Owned(s) && Enabled(s, e)
    ensures Owned(Apply(s, e))
  {
  }

  lemma AcceptBuffered(w: Worker, record: Record, now: int, table: string)
    ensures Buffered(Accept(w, record, now), table) == Buffered(w, table) + OfTable([record], table)
  {
    OfTableOne(record, table);
  }

  lemma SettledHandOver(s: State, e: Event, m: Market, table: string)
    requires Owned(s) && Enabled(s, e) && e.HandOverTable?
    ensures Settled(Apply(s, e), m, table) == Settled(s, m, table)
  {
    hide AllJobs, JobRecords, HandOver, Buffered;
    AllJobsStep(s, e);
    HandOverMoves(AllJobs(s), s.lanes.At(e.market).worker, e.table, m, table);
  }

  /** What has left the worker's hands grows by accepting a record... */
  lemma SettledAccept(s: State, e: Event, m: Market, table: string)
    requires Owned(s) && Enabled(s, e) && e.AcceptNext? && e.market == m
    ensures Settled(Apply(s, e), m, table)
         == Settled(s, m, table) + OfTable([s.lanes.At(m).pc.command.records[0]], table)
  {
    AllJobsStep(s, e);
    AcceptBuffered(s.lanes.At(m).worker, s.lanes.At(m).pc.command.records[0], e.now, table);
  }

  lemma AllJobsSame(s: State, e: Event)
    requires Enabled(s, e) && !e.HandOverTable?
    ensures AllJobs(Apply(s, e)) == AllJobs(s)
  {
    AllJobsStep(s, e);
    assert AllJobs(s) + [] == AllJobs(s);
  }

  lemma BufferedSame(s: State, e: Event, m: Market, table: string)
    requires Enabled(s, e) && !e.HandOverTable? && !(e.AcceptNext? && e.market == m)
    ensures Buffered(Apply(s, e).lanes.At(m).worker, table) == Buffered(s.lanes.At(m).worker, table)
  {
  }

  /** ...and by nothing else. */
  lemma SettledSame(s: State, e: Event, m: Market, table: string)
    requires Owned(s) && Enabled(s, e) && !(e.AcceptNext? && e.market == m)
    ensures Settled(Apply(s, e), m, table) == Settled(s, m, table)
  {
    if e.HandOverTable? {
      SettledHandOver(s, e, m, table);
    } else {
      AllJobsSame(s, e);
      BufferedSame(s, e, m, table);
    }
  }

  lemma InboxAppend(inbox: seq<Command>, command: Command)
    ensures InboxRecords(inbox + [command]) == InboxRecords(inbox) + RecordsOf(command)
    ensures RecordsOf(command) == [] ==> InboxRecords(inbox + [command]) == InboxRecords(inbox)
  {
    assert (inbox + [command])[..|inbox|] == inbox;
  }

  lemma InboxHead(inbox: seq<Command>, table: string)
    requires inbox != []
    ensures OfTable(InboxRecords(inbox), table)
         == OfTable(RecordsOf(inbox[0]), table) + OfTable(InboxRecords(inbox[1..]), table)
  {
    InboxConcat([inbox[0]], inbox[1..]);
    InboxOne(inbox[0]);
    assert [inbox[0]] + inbox[1..] == inbox;
    OfTableConcat(RecordsOf(inbox[0]), InboxRecords(inbox[1..]), table);
  }

  lemma AheadAccept(lane: Lane, e: Event, table: string)
    requires LaneEnabled(lane, e) && e.AcceptNext?
    ensures Ahead(lane, table) == OfTable([lane.pc.command.records[0]], table) + Ahead(Advance(lane, e), table)
  {
    var records := lane.pc.command.records;
    assert [records[0]] + records[1..] == records;
    OfTableConcat([records[0]], records[1..], table);
  }

  lemma AheadSubmit(lane: Lane, e: Event, table: string)
    requires e.Submit?
    ensures Ahead(Advance(lane, e), table) == Ahead(lane, table) + OfTable(e.records, table)
    ensures OfTable(Advance(lane, e).submitted, table) == OfTable(lane.submitted, table) + OfTable(e.records, table)
  {
    OfTableConcat(lane.submitted, e.records, table);
    InboxAppend(lane.inbox, Records(e.records));
    OfTableConcat(InboxRecords(lane.inbox), e.records, table);
  }

  lemma AheadTake(lane: Lane, e: Event, table: string)
    requires LaneEnabled(lane, e) && e.Take?
    ensures Ahead(Advance(lane, e), table) == Ahead(lane, table)
  {
    assert OfTable([], table) == [];
    hide FloorHour, OfTable, InboxRecords;
    InboxHead(lane.inbox, table);
    var after, all := Advance(lane, e), OfTable(InboxRecords(lane.inbox), table);
    assert Taken(lane.pc) == [] && Taken(after.pc) == RecordsOf(lane.inbox[0]) && after.inbox == lane.inbox[1..];
    assert [] + all == all;
  }

  lemma AheadSame(lane: Lane, e: Event, table: string)
    requires LaneEnabled(lane, e) && !e.AcceptNext? && !e.Submit?
    ensures Ahead(Advance(lane, e), table) == Ahead(lane, table)
    ensures Advance(lane, e).submitted == lane.submitted
  {
    if e.Take? {
      AheadTake(lane, e, table);
    } else if e.SendTick? {
      InboxAppend(lane.inbox, Tick);
    }
  }

  lemma Regroup(a: seq<Record>, b: seq<Record>, c: seq<Record>)
    ensures a + (b + c) == a + b + c
  {
  }

  lemma ConservedAccept(s: State, e: Event, table: string)
    requires Owned(s) && Enabled(s, e) && e.AcceptNext? && Conserved(s, e.market, table)
    ensures Conserved(Apply(s, e), e.market, table)
  {
    var lane := s.lanes.At(e.market);
    var one := OfTable([lane.pc.command.records[0]], table);
    SettledAccept(s, e, e.market, table);
    AheadAccept(lane, e, table);
    Regroup(Settled(s, e.market, table), one, Ahead(Advance(lane, e), table));
    assert Apply(s, e).lanes.At(e.market) == Advance(lane, e);
  }

  lemma ConservedSubmit(s: State, e: Event, table: string)
    requires Owned(s) && e.Submit? && Conserved(s, e.market, table)
    ensures Conserved(Apply(s, e), e.market, table)
  {
    var lane := s.lanes.At(e.market);
    SettledSame(s, e, e.market, table);
    AheadSubmit(lane, e, table);
    Regroup(Settled(s, e.market, table), Ahead(lane, table), OfTable(e.records, table));
    assert Apply(s, e).lanes.At(e.market) == Advance(lane, e);
  }

  lemma ConservedLane(s: State, e: Event, table: string)
    requires Owned(s) && Enabled(s, e) && OfLane(e) && Conserved(s, e.market, table)
    ensures Conserved(Apply(s, e), e.market, table)
  {
    if e.AcceptNext? {
      ConservedAccept(s, e, table);
    } else if e.Submit? {
      ConservedSubmit(s, e, table);
    } else {
      SettledSame(s, e, e.market, table);
      AheadSame(s.lanes.At(e.market), e, table);
    }
  }

  lemma LaneSteady(s: State, e: Event, m: Market)
    requires Enabled(s, e) && (OfLane(e) ==> e.market != m)
    ensures var before, after := s.lanes.At(m), Apply(s, e).lanes.At(m);
      && after.submitted == before.submitted && Taken(after.pc) == Taken(before.pc)
      && (after.inbox == before.inbox || after.inbox == before.inbox + [Flush(|s.tickets|)])
  {
    hide Wrapped, Capped, NextSequence;
  }

  /** A market seen from another market's event, the encoder's or a caller's. */
  lemma LaneElsewhere(s: State, e: Event, m: Market, table: string)
    requires Enabled(s, e) && (OfLane(e) ==> e.market != m)
    ensures Ahead(Apply(s, e).lanes.At(m), table) == Ahead(s.lanes.At(m), table)
    ensures Apply(s, e).lanes.At(m).submitted == s.lanes.At(m).submitted
  {
    hide Apply, Enabled, Taken, InboxRecords, OfTable;
    LaneSteady(s, e, m);
    InboxAppend(s.lanes.At(m).inbox, Flush(|s.tickets|));
    assert RecordsOf(Flush(|s.tickets|)) == [];
  }

  lemma ConservedElsewhere(s: State, e: Event, m: Market, table: string)
    requires Owned(s) && Enabled(s, e) && Conserved(s, m, table) && (OfLane(e) ==> e.market != m)
    ensures Conserved(Apply(s, e), m, table)
  {
    SettledSame(s, e, m, table);
    LaneElsewhere(s, e, m, table);
  }

  lemma ConservedKept(s: State, e: Event, m: Market, table: string)
    requires Owned(s) && Conserved(s, m, table) && Enabled(s, e)
    ensures Conserved(Apply(s, e), m, table)
  {
    if OfLane(e) && e.market == m {
      ConservedLane(s, e, table);
    } else {
      ConservedElsewhere(s, e, m, table);
    }
  }

  lemma {:induction false} ConservedHolds(ss: seq<State>, es: seq<Event>, i: nat, m: Market, table: string)
    requires IsRun(ss, es) && i < |ss|
    ensures Owned(ss[i]) && Conserved(ss[i], m, table)
  {
    if i > 0 {
      assert StepAt(ss, es, i - 1);
      ConservedHolds(ss, es, i - 1, m, table);
      OwnedKept(ss[i - 1], es[i - 1]);
      ConservedKept(ss[i - 1], es[i - 1], m, table);
    }
  }
}
