/**
 The writer worker as it runs: a loop over commands that fills table buffers, hands them to
 the encoder when they are full, too many, expired or of a past hour, and drains everything
 on a flush. The order in which a hash map is walked is left open throughout.
 */
module WriterThread {
  import opened Numbers
  import opened Markets
  import opened Buffering

  /** A command with the clock reading at which the worker takes it, and the instants read
      while it handles it. */
  datatype Timed = Timed(command: Command, clock: nat, instant: nat -> int, reading: string -> int)

  /** The largest clock hour seen over the first commands of a run. */
  function HourAfter(start: nat, inputs: seq<Timed>): nat {
    if inputs == [] then start
    else Max(HourAfter(start, inputs[..|inputs| - 1]), FloorHour(inputs[|inputs| - 1].clock))
  }

  /** The records of a table in arrival order, each under the largest clock hour seen when it
      was accepted. */
  function Arrived(start: nat, inputs: seq<Timed>, table: string): seq<Stamped> {
    if inputs == [] then []
    else
      Arrived(start, inputs[..|inputs| - 1], table)
        + Stamp(OfTable(RecordsOf(inputs[|inputs| - 1].command), table), HourAfter(start, inputs))
  }

  /** Jobs carry consecutive sequence numbers, and hours that never decrease nor pass `w`'s. */
  ghost predicate Numbered(first: nat, w: Worker, jobs: seq<Job>) {
    && w.sequence == (first + |jobs|) % U64
    && (forall k :: 0 <= k < |jobs| ==>
          jobs[k].market == w.market && jobs[k].sequence == (first + k + 1) % U64 && jobs[k].hour <= w.hour)
    && (forall j, k :: 0 <= j < k < |jobs| ==> jobs[j].hour <= jobs[k].hour)
  }

  /** What a worker and the jobs it has sent satisfy throughout. */
  ghost predicate Sound(first: nat, w: Worker, jobs: seq<Job>) {
    Buffering.Valid(w) && Numbered(first, w, jobs)
  }

  lemma HandOverSound(first: nat, w: Worker, jobs: seq<Job>, table: string)
    requires Sound(first, w, jobs)
    ensures Sound(first, HandOver(w, table).0, jobs + HandOver(w, table).1)
  {
    HandOverValid(w, table);
    assert (first + |jobs| + 1) % U64 == ((first + |jobs|) % U64 + 1) % U64;
  }

  lemma LaterHour(first: nat, w: Worker, jobs: seq<Job>, hour: nat)
    requires Sound(first, w, jobs) && w.hour <= hour
    ensures Sound(first, w.(hour := hour), jobs)
  {
  }

  /** The streams before, during and after, for every table at once. */
  ghost predicate SameStreams(jobs: seq<Job>, w: Worker, jobs': seq<Job>, w': Worker) {
    forall t :: Buffering.Stream(jobs', w', t) == Buffering.Stream(jobs, w, t)
  }

  ghost predicate Appended(jobs: seq<Job>, w: Worker, w': Worker, record: Record) {
    forall t :: Buffering.Stream(jobs, w', t)
             == Buffering.Stream(jobs, w, t) + if record.table == t then [Stamped(record, w.hour)] else []
  }

  lemma HandOverStreams(jobs: seq<Job>, w: Worker, table: string)
    ensures SameStreams(jobs, w, jobs + HandOver(w, table).1, HandOver(w, table).0)
  {
    forall t {
      HandOverKeepsStream(jobs, w, table, t);
    }
  }

  lemma AcceptStreams(jobs: seq<Job>, w: Worker, record: Record, now: int)
    ensures Appended(jobs, w, Accept(w, record, now), record)
  {
    forall t {
      AcceptAppends(jobs, w, record, now, t);
    }
  }

  lemma Shrinks(before: map<string, Buffer>, after: map<string, Buffer>)
    requires exists t <- before :: after == before - {t}
    ensures |after| < |before|
  {
    var t :| t in before && after == before - {t};
    assert after.Keys == before.Keys - {t};
  }

  /** Filing one more record extends exactly its own table's list. */
  lemma StampAppend(records: seq<Record>, record: Record, hour: nat)
    ensures forall t :: Stamp(OfTable(records + [record], t), hour)
                     == Stamp(OfTable(records, t), hour) + if record.table == t then [Stamped(record, hour)] else []
  {
    forall t {
      OfTableAppend(records, record, t);
    }
  }

  lemma NothingStamped(hour: nat)
    ensures Weights([]) == 0 && forall t :: Stamp(OfTable([], t), hour) == []
  {
  }

  /** Between the two states exactly `records` were added, each under the current hour. */
  ghost predicate Grown(jobs: seq<Job>, w: Worker, jobs': seq<Job>, w': Worker, records: seq<Record>) {
    forall t :: Buffering.Stream(jobs', w', t) == Buffering.Stream(jobs, w, t) + Stamp(OfTable(records, t), w'.hour)
  }

  lemma GrownStep(jobs: seq<Job>, w: Worker, jobs': seq<Job>, w': Worker, w'': Worker, records: seq<Record>, i: nat)
    requires i < |records| && Grown(jobs, w, jobs', w', records[..i])
    requires Appended(jobs', w', w'', records[i]) && w''.hour == w'.hour
    ensures Grown(jobs, w, jobs', w'', records[..i + 1])
    ensures Weights(records[..i + 1]) == Weights(records[..i]) + records[i].weight
  {
    assert records[..i + 1] == records[..i] + [records[i]];
    WeightsAppend(records[..i], records[i]);
    StampAppend(records[..i], records[i], w'.hour);
  }

  /** The worker after accepting the first `n` records. */
  function AcceptedAll(w: Worker, records: seq<Record>, instant: nat -> int, n: nat): Worker
    requires n <= |records|
  {
    if n == 0 then w else Accept(AcceptedAll(w, records, instant, n - 1), records[n - 1], instant(n - 1))
  }

  // ---------------------------------------------------------------------------------------
  // Since when records are buffered

  /** The instants at which the first `n` records that go to the table were accepted. */
  function Instants(records: seq<Record>, instant: nat -> int, n: nat, table: string): seq<int>
    requires n <= |records|
  {
    if n == 0 then []
    else Instants(records, instant, n - 1, table) + if records[n - 1].table == table then [instant(n - 1)] else []
  }

  /** The instants at which the records of the table were accepted, in arrival order. */
  function AcceptedAt(inputs: seq<Timed>, table: string): seq<int> {
    if inputs == [] then []
    else
      var last := inputs[|inputs| - 1];
      AcceptedAt(inputs[..|inputs| - 1], table)
        + Instants(RecordsOf(last.command), last.instant, |RecordsOf(last.command)|, table)
  }

  /** What is buffered are the latest arrivals of each table, and a buffer is as old as its first record. */
  ghost predicate Dated(tables: map<string, Buffer>, instants: string -> seq<int>) {
    forall t <- tables ::
      var n := |tables[t].records|;
      0 < n <= |instants(t)| && tables[t].firstSeen == instants(t)[|instants(t)| - n]
  }

  lemma AcceptDated(w: Worker, record: Record, now: int, before: string -> seq<int>, after: string -> seq<int>)
    requires Dated(w.tables, before)
    requires forall t :: after(t) == before(t) + if t == record.table then [now] else []
    ensures Dated(Accept(w, record, now).tables, after)
  {
    hide SaturatingAdd;
    var tables := Accept(w, record, now).tables;
    forall t | t in tables
      ensures 0 < |tables[t].records| <= |after(t)|
      ensures tables[t].firstSeen == after(t)[|after(t)| - |tables[t].records|]
    {
      assert t != record.table ==> t in w.tables && tables[t] == w.tables[t];
    }
  }

  lemma {:induction false} AcceptedDated(w: Worker, records: seq<Record>, instant: nat -> int, n: nat,
                                         instants: string -> seq<int>)
    requires n <= |records| && Dated(w.tables, instants)
    ensures Dated(AcceptedAll(w, records, instant, n).tables, t => instants(t) + Instants(records, instant, n, t))
  {
    var after := t => instants(t) + Instants(records, instant, n, t);
    if n == 0 {
      assert forall t :: after(t) == instants(t);
    } else {
      var before := t => instants(t) + Instants(records, instant, n - 1, t);
      AcceptedDated(w, records, instant, n - 1, instants);
      forall t ensures after(t) == before(t) + if t == records[n - 1].table then [instant(n - 1)] else [] {
        var front := Instants(records, instant, n - 1, t);
        assert instants(t) + (front + [instant(n - 1)]) == instants(t) + front + [instant(n - 1)];
      }
      AcceptDated(AcceptedAll(w, records, instant, n - 1), records[n - 1], instant(n - 1), before, after);
    }
  }

  /** `fewer` holds some of the buffers, as they are. */
  predicate SomeOf(more: map<string, Buffer>, fewer: map<string, Buffer>) {
    forall t <- fewer :: t in more && fewer[t] == more[t]
  }

  lemma FewerDated(more: map<string, Buffer>, fewer: map<string, Buffer>, instants: string -> seq<int>)
    requires Dated(more, instants) && SomeOf(more, fewer)
    ensures Dated(fewer, instants)
  {
  }

  lemma SameInstants(tables: map<string, Buffer>, f: string -> seq<int>, g: string -> seq<int>)
    requires Dated(tables, f) && forall t :: f(t) == g(t)
    ensures Dated(tables, g)
  {
  }

  lemma NoneAccepted(w: Worker, instant: nat -> int)
    ensures AcceptedAll(w, [], instant, 0) == w
  {
  }

  /** One more command: what stays of the records accepted, or of the tables before a command that
      brings none, is dated by the instants of all commands so far. */
  lemma DatedNext(inputs: seq<Timed>, i: nat, start: Worker, tables: map<string, Buffer>)
    requires i < |inputs| && Dated(start.tables, t => AcceptedAt(inputs[..i], t))
    requires var records := RecordsOf(inputs[i].command);
      SomeOf(AcceptedAll(start, records, inputs[i].instant, |records|).tables, tables)
    ensures Dated(tables, t => AcceptedAt(inputs[..i + 1], t))
  {
    var records, instant := RecordsOf(inputs[i].command), inputs[i].instant;
    var before, after := t => AcceptedAt(inputs[..i], t), t => AcceptedAt(inputs[..i + 1], t);
    var grown := t => before(t) + Instants(records, instant, |records|, t);
    AcceptedDated(start, records, instant, |records|, before);
    FewerDated(AcceptedAll(start, records, instant, |records|).tables, tables, grown);
    forall t ensures grown(t) == after(t) {
      assert inputs[..i + 1][..i] == inputs[..i];
    }
    SameInstants(tables, grown, after);
  }

  /** The shared atomic byte gauge. `fed` is the unbounded sum that `value` shows modulo 2^64. */
  class Gauge {
    var value: nat
    ghost var fed: int

    ghost predicate Valid()
      reads this
    {
      value == fed % U64
    }

    constructor ()
      ensures Valid() && fed == 0
    {
      value, fed := 0, 0;
    }

    method FetchAdd(n: nat)
      requires Valid()
      modifies this
      ensures Valid() && fed == old(fed) + n
    {
      value, fed := Wrapped(value + n), fed + n;
    }
  }

  function AllWeights(inputs: seq<Timed>): nat {
    if inputs == [] then 0
    else AllWeights(inputs[..|inputs| - 1]) + Weights(RecordsOf(inputs[|inputs| - 1].command))
  }

  lemma ArrivedStep(start: nat, inputs: seq<Timed>, i: nat, jobs: seq<Job>, w: Worker, jobs': seq<Job>, w': Worker)
    requires i < |inputs|
    requires forall t :: Buffering.Stream(jobs, w, t) == Arrived(start, inputs[..i], t)
    requires Grown(jobs, w, jobs', w', RecordsOf(inputs[i].command))
    requires w.hour == HourAfter(start, inputs[..i]) && w'.hour == Max(w.hour, FloorHour(inputs[i].clock))
    ensures w'.hour == HourAfter(start, inputs[..i + 1])
    ensures forall t :: Buffering.Stream(jobs', w', t) == Arrived(start, inputs[..i + 1], t)
    ensures AllWeights(inputs[..i + 1]) == AllWeights(inputs[..i]) + Weights(RecordsOf(inputs[i].command))
  {
    assert inputs[..i + 1][..i] == inputs[..i];
  }

  class WriterThread {
    const market: Market
    const bufferBytes: nat
    const segmentBytes: nat
    const flushInterval: int
    const gauge: Gauge
    /** The hour and the sequence number the worker starts with. */
    const firstHour: nat
    const firstSequence: nat

    var hour: nat
    var sequence: nat
    var tables: map<string, Buffer>
    var total: nat
    /** The commands sent to the encoder. */
    var sent: seq<EncodeCommand>

    constructor (market: Market, bufferBytes: nat, segmentBytes: nat, flushInterval: int, gauge: Gauge,
                 clock: nat, micros: nat)
      requires bufferBytes > 0 && micros < U64
      ensures Valid() && sent == [] && tables == map[]
      ensures this.market == market && this.bufferBytes == bufferBytes && this.segmentBytes == segmentBytes
      ensures hour == firstHour == FloorHour(clock) && sequence == firstSequence == micros
    {
      this.market, this.bufferBytes, this.segmentBytes := market, bufferBytes, segmentBytes;
      this.flushInterval, this.gauge := flushInterval, gauge;
      this.firstHour, this.firstSequence := FloorHour(clock), micros;
      hour, sequence := FloorHour(clock), micros;
      tables, total, sent := map[], 0, [];
    }

    function State(): Worker
      reads this
    {
      Worker(market, hour, sequence, tables, total)
    }

    function Jobs(): seq<Job>
      reads this
    {
      JobsOf(sent)
    }

    /** What was handed over for a table, followed by what is buffered. */
    function Stream(table: string): seq<Stamped>
      reads this
    {
      Buffering.Stream(JobsOf(sent), State(), table)
    }

    ghost predicate Valid()
      reads this
    {
      Sound(firstSequence, State(), Jobs()) && bufferBytes > 0
    }

    /** Both bounds that handling records restores. */
    predicate WithinBounds()
      reads this
    {
      total < bufferBytes && forall table <- tables :: tables[table].bytes < segmentBytes
    }

    method FlushTable(table: string)
      requires Valid()
      modifies this
      ensures Valid() && hour == old(hour) && total <= old(total) && old(sent) <= sent && old(Jobs()) <= Jobs()
      ensures State() == HandOver(old(State()), table).0
      ensures Jobs() == old(Jobs()) + HandOver(old(State()), table).1
      ensures forall t :: Stream(t) == old(Stream(t))
    {
      hide Buffering.Valid, Numbered, NextSequence;
      ghost var before, jobs := State(), Jobs();
      HandOverSound(firstSequence, before, jobs, table);
      HandOverStreams(jobs, before, table);
      if table in tables {
        var buffer := tables[table];
        tables := tables - {table};
        if buffer.records != [] {
          sequence := NextSequence(sequence);
          var job := Job(market, hour, sequence, table, buffer.records, buffer.bytes);
          JobsOfAppend(sent, Write(job));
          sent := sent + [Write(job)];
          total := SaturatingSub(total, buffer.bytes);
        }
      }
      assert State() == HandOver(before, table).0;
      assert Jobs() == jobs + HandOver(before, table).1;
    }

    /** Hands over the buffers of `names` in whatever order the map yields them. */
    method FlushThese(names: set<string>)
      requires Valid()
      modifies this
      ensures Valid() && hour == old(hour) && total <= old(total) && old(sent) <= sent && old(Jobs()) <= Jobs()
      ensures tables == old(tables) - names
      ensures forall t :: Stream(t) == old(Stream(t))
    {
      var todo := names;
      while todo != {}
        invariant Valid() && hour == old(hour) && total <= old(total) && old(sent) <= sent && old(Jobs()) <= Jobs()
        invariant todo <= names && tables == old(tables) - (names - todo)
        invariant forall t :: Stream(t) == old(Stream(t))
        decreases todo
      {
        var table :| table in todo;
        todo := todo - {table};
        FlushTable(table);
      }
    }

    method FlushAll()
      requires Valid()
      modifies this
      ensures Valid() && hour == old(hour) && old(sent) <= sent && tables == map[] && total == 0
      ensures old(Jobs()) <= Jobs()
      ensures forall t :: Stream(t) == old(Stream(t))
    {
      FlushThese(tables.Keys);
      assert tables == map[];
    }

    /** Hands over a table with the largest byte count. */
    method FlushLargest()
      requires Valid() && tables != map[]
      modifies this
      ensures Valid() && hour == old(hour) && old(Jobs()) <= Jobs()
      ensures exists t <- old(tables) ::
        && tables == old(tables) - {t} && old(total) <= total + old(tables)[t].bytes
        && forall u <- old(tables) :: old(tables)[u].bytes <= old(tables)[t].bytes
      ensures forall t :: Stream(t) == old(Stream(t))
    {
      hide Buffering.Valid, Numbered, Buffering.Stream, HandOver;
      var largest :| largest in tables;
      var todo := tables.Keys - {largest};
      while todo != {}
        invariant largest in tables && todo <= tables.Keys
        invariant forall u <- tables.Keys - todo :: tables[u].bytes <= tables[largest].bytes
        decreases todo
      {
        var table :| table in todo;
        todo := todo - {table};
        if tables[table].bytes >= tables[largest].bytes {
          largest := table;
        }
      }
      HandOverTotal(State(), largest);
      HandOverShape(State(), largest);
      FlushTable(largest);
    }

    method FlushExpired(reading: string -> int)
      requires Valid()
      modifies this
      ensures Valid() && hour == old(hour) && old(Jobs()) <= Jobs()
      ensures tables ==
        map t | t in old(tables) && reading(t) - old(tables)[t].firstSeen < flushInterval :: old(tables)[t]
      ensures forall t :: Stream(t) == old(Stream(t))
    {
      var expired := set t | t in tables && reading(t) - tables[t].firstSeen >= flushInterval;
      FlushThese(expired);
    }

    method AcceptRecord(record: Record, now: int)
      requires Valid() && gauge.Valid()
      modifies this, gauge
      ensures Valid() && hour == old(hour) && sent == old(sent)
      ensures State() == Accept(old(State()), record, now)
      ensures gauge.Valid() && gauge.fed == old(gauge.fed) + record.weight
      ensures Appended(old(Jobs()), old(State()), State(), record)
    {
      hide Buffering.Valid, Appended;
      ghost var before := State();
      AcceptValid(before, record, now);
      AcceptStreams(Jobs(), before, record, now);
      gauge.FetchAdd(record.weight);
      total := SaturatingAdd(total, record.weight);
      var buffer := if record.table in tables then tables[record.table] else Buffer([], 0, now);
      tables := tables[record.table :=
        Buffer(buffer.records + [record], SaturatingAdd(buffer.bytes, record.weight), buffer.firstSeen)];
      assert State() == Accept(before, record, now);
    }

    predicate Full(buffer: Buffer) {
      buffer.bytes >= segmentBytes
    }

    /** Every kept buffer is as accepted, and none is larger than an evicted one. */
    ghost predicate LargestGone(accepted: map<string, Buffer>, kept: map<string, Buffer>) {
      && SomeOf(accepted, kept)
      && (forall t <- kept, u <- accepted :: u !in kept ==> kept[t].bytes <= accepted[u].bytes)
    }

    /** If any table went, then the total with the last and smallest of them was not below the
        buffer size. */
    ghost predicate LastNeeded(before: map<string, Buffer>, kept: map<string, Buffer>)
      reads this
    {
      before == kept ||
      exists t <- before ::
        && t !in kept && total + before[t].bytes >= bufferBytes
        && forall u <- before :: u !in kept ==> before[t].bytes <= before[u].bytes
    }

    lemma EvictStep(start: map<string, Buffer>, before: map<string, Buffer>)
      requires LargestGone(start, before)
      requires exists t <- before ::
        && tables == before - {t} && bufferBytes <= total + before[t].bytes
        && forall u <- before :: before[u].bytes <= before[t].bytes
      ensures LargestGone(start, tables) && LastNeeded(start, tables)
    {
      var t :| t in before && tables == before - {t} && bufferBytes <= total + before[t].bytes
        && forall u <- before :: before[u].bytes <= before[t].bytes;
      forall u | u in start && u !in tables ensures start[t].bytes <= start[u].bytes {
        if u in before {
          assert u == t;
        }
      }
    }

    /** Hands over the largest table, again and again, until the total is below the buffer size. */
    method EvictLargest()
      requires Valid()
      modifies this
      ensures Valid() && hour == old(hour) && total < bufferBytes && old(Jobs()) <= Jobs()
      ensures LargestGone(old(tables), tables) && LastNeeded(old(tables), tables)
      ensures old(total) < bufferBytes ==> tables == old(tables)
      ensures forall t :: Stream(t) == old(Stream(t))
    {
      hide Buffering.Valid, Numbered;
      while total >= bufferBytes
        invariant Valid() && hour == old(hour) && old(Jobs()) <= Jobs()
        invariant LargestGone(old(tables), tables) && LastNeeded(old(tables), tables)
        invariant old(total) < bufferBytes ==> total < bufferBytes && tables == old(tables)
        invariant forall t :: Stream(t) == old(Stream(t))
        decreases |tables|
      {
        TotalNeedsTables(State());
        ghost var before := tables;
        FlushLargest();
        EvictStep(old(tables), before);
        Shrinks(before, tables);
      }
    }

    method AcceptAll(records: seq<Record>, instant: nat -> int)
      requires Valid() && gauge.Valid()
      modifies this, gauge
      ensures Valid() && hour == old(hour) && sent == old(sent)
      ensures State() == AcceptedAll(old(State()), records, instant, |records|)
      ensures gauge.Valid() && gauge.fed == old(gauge.fed) + Weights(records)
      ensures Grown(old(Jobs()), old(State()), Jobs(), State(), records)
    {
      for i := 0 to |records|
        invariant Valid() && hour == old(hour) && sent == old(sent)
        invariant State() == AcceptedAll(old(State()), records, instant, i)
        invariant gauge.Valid() && gauge.fed == old(gauge.fed) + Weights(records[..i])
        invariant Grown(old(Jobs()), old(State()), Jobs(), State(), records[..i])
      {
        ghost var before := State();
        AcceptRecord(records[i], instant(i));
        GrownStep(old(Jobs()), old(State()), Jobs(), before, State(), records, i);
      }
      assert records[..|records|] == records;
    }

    /** What stays of the worker that has accepted: no full table, no table larger than an evicted
        one, and no fewer than it takes; while the total fits, only full tables go. */
    ghost predicate Restored(accepted: Worker)
      reads this
    {
      var fitting := map t | t in accepted.tables && !Full(accepted.tables[t]) :: accepted.tables[t];
      && LargestGone(accepted.tables, tables) && LastNeeded(fitting, tables)
      && (accepted.total < bufferBytes ==> tables == fitting)
    }

    /** Accepts the records, hands over every full table, then the largest ones until the
        worker is below its buffer size again. What stays is as accepted and no larger than what
        was evicted; while the total fits, only full tables go. */
    method HandleRecords(records: seq<Record>, instant: nat -> int)
      requires Valid() && gauge.Valid()
      modifies this, gauge
      ensures Valid() && hour == old(hour) && WithinBounds() && old(Jobs()) <= Jobs()
      ensures gauge.Valid() && gauge.fed == old(gauge.fed) + Weights(records)
      ensures forall t :: Stream(t) == old(Stream(t)) + Stamp(OfTable(records, t), hour)
      ensures Restored(AcceptedAll(old(State()), records, instant, |records|))
    {
      hide Buffering.Valid, Numbered, Stamp, OfTable, AcceptedAll, Weights;
      AcceptAll(records, instant);
      ghost var accepted := tables;
      FlushThese(set table | table in tables && Full(tables[table]));
      ghost var fitting := tables;
      assert fitting == map t | t in accepted && !Full(accepted[t]) :: accepted[t];
      EvictLargest();
      assert LargestGone(accepted, tables);
    }

    /** A clock reading in a later hour drains the worker before the hour moves on. */
    method RollOver(clock: nat)
      requires Valid()
      modifies this
      ensures Valid() && hour == Max(old(hour), FloorHour(clock)) && old(Jobs()) <= Jobs()
      ensures if hour > old(hour) then tables == map[] else State() == old(State()) && sent == old(sent)
      ensures forall t :: Stream(t) == old(Stream(t))
    {
      hide Buffering.Valid, Numbered;
      var current := FloorHour(clock);
      if current > hour {
        FlushAll();
        LaterHour(firstSequence, State(), Jobs(), current);
        hour := current;
      }
    }

    /** A flush drains the worker and then puts a barrier behind its jobs. */
    method FlushThrough(ticket: nat)
      requires Valid()
      modifies this
      ensures Valid() && hour == old(hour) && tables == map[] && old(Jobs()) <= Jobs()
      ensures sent != [] && sent[|sent| - 1] == Barrier(market, ticket) && old(sent) <= sent[..|sent| - 1]
      ensures forall t :: Stream(t) == old(Stream(t))
    {
      FlushAll();
      label drained:
      JobsOfAppend(sent, Barrier(market, ticket));
      sent := sent + [Barrier(market, ticket)];
      assert Jobs() == old@drained(Jobs());
      assert forall t :: Stream(t) == old@drained(Stream(t));
    }

    /** The tables that a turn of the loop starts with: none if the hour has passed. */
    function Rolled(tables: map<string, Buffer>, hour: nat, clock: nat): map<string, Buffer> {
      if FloorHour(clock) > hour then map[] else tables
    }

    /** The tables that are younger than the flush interval when a tick reads their age. */
    function Young(tables: map<string, Buffer>, reading: string -> int): map<string, Buffer> {
      map t | t in tables && reading(t) - tables[t].firstSeen < flushInterval :: tables[t]
    }

    /** What a turn of the loop leaves: records restore the bounds, a tick leaves the young tables and
        a flush none, with its barrier behind the jobs. */
    ghost predicate Handled(before: Worker, input: Timed)
      reads this
    {
      var rolled := Rolled(before.tables, before.hour, input.clock);
      match input.command
      case Records(records) =>
        && WithinBounds()
        && exists start: Worker ::
             && start.tables == rolled && start.hour == hour && (hour == before.hour ==> start == before)
             && Restored(AcceptedAll(start, records, input.instant, |records|))
      case Tick => tables == Young(rolled, input.reading)
      case Flush(ticket) => tables == map[] && sent != [] && sent[|sent| - 1] == Barrier(market, ticket)
    }

    /** One turn of the worker's loop. */
    method Handle(input: Timed)
      requires Valid() && gauge.Valid()
      modifies this, gauge
      ensures Valid() && gauge.Valid() && gauge.fed == old(gauge.fed) + Weights(RecordsOf(input.command))
      ensures hour == Max(old(hour), FloorHour(input.clock)) && old(Jobs()) <= Jobs()
      ensures Handled(old(State()), input)
      ensures Grown(old(Jobs()), old(State()), Jobs(), State(), RecordsOf(input.command))
    {
      hide Buffering.Valid, Numbered, Stamp, Weights;
      RollOver(input.clock);
      match input.command {
        case Records(records) =>
          ghost var before := State();
          HandleRecords(records, input.instant);
          assert Restored(AcceptedAll(before, records, input.instant, |records|));
        case Tick =>
          FlushExpired(input.reading);
          NothingStamped(hour);
        case Flush(ticket) =>
          FlushThrough(ticket);
          NothingStamped(hour);
      }
      assert forall t :: Stream(t) == old(Stream(t)) + Stamp(OfTable(RecordsOf(input.command), t), hour);
    }

    function Previous(kept: seq<map<string, Buffer>>, k: nat): map<string, Buffer>
      requires k <= |kept|
    {
      if k == 0 then map[] else kept[k - 1]
    }

    /** What command `k` leaves buffered, with the jobs sent by then. */
    ghost predicate Moment(inputs: seq<Timed>, k: nat, before: map<string, Buffer>, after: map<string, Buffer>,
                           mark: nat, jobs: seq<Job>)
      requires k < |inputs|
    {
      && Dated(after, t => AcceptedAt(inputs[..k + 1], t))
      && mark <= |jobs|
      && (forall t :: JobStream(jobs[..mark], t)
                      + (if t in after then Stamp(after[t].records, HourAfter(firstHour, inputs[..k + 1])) else [])
                   == Arrived(firstHour, inputs[..k + 1], t))
      && (inputs[k].command.Tick? ==>
            after == Young(Rolled(before, HourAfter(firstHour, inputs[..k]), inputs[k].clock), inputs[k].reading))
      && (inputs[k].command.Flush? ==> after == map[])
      && (inputs[k].command.Records? ==> forall t <- after :: !Full(after[t]))
    }

    /** What is buffered after each command of a run: it is dated by the instants of the commands so
        far, together with the first `marks[k]` jobs it is what had arrived, after a tick it is what
        was younger than the interval, after a flush nothing, and after records no full table. */
    ghost predicate History(inputs: seq<Timed>, kept: seq<map<string, Buffer>>, marks: seq<nat>, jobs: seq<Job>)
    {
      && |kept| == |marks| <= |inputs|
      && forall k :: 0 <= k < |kept| ==> Moment(inputs, k, Previous(kept, k), kept[k], marks[k], jobs)
    }

    lemma RestoredSome(accepted: Worker)
      requires Restored(accepted)
      ensures SomeOf(accepted.tables, tables)
    {
    }

    lemma Redated(inputs: seq<Timed>, i: nat, before: Worker)
      requires i < |inputs| && Handled(before, inputs[i]) && Dated(before.tables, t => AcceptedAt(inputs[..i], t))
      ensures Dated(tables, t => AcceptedAt(inputs[..i + 1], t))
    {
      var input := inputs[i];
      var rolled := Rolled(before.tables, before.hour, input.clock);
      FewerDated(before.tables, rolled, t => AcceptedAt(inputs[..i], t));
      hide Dated, AcceptedAll, LastNeeded, AcceptedAt, Rolled;
      match input.command
      case Records(records) =>
        var start: Worker :| start.tables == rolled && Restored(AcceptedAll(start, records, input.instant, |records|));
        assert RecordsOf(input.command) == records;
        RestoredSome(AcceptedAll(start, records, input.instant, |records|));
        DatedNext(inputs, i, start, tables);
      case Tick =>
        NoneAccepted(before.(tables := rolled), input.instant);
        DatedNext(inputs, i, before.(tables := rolled), tables);
      case Flush(_) =>
        NoneAccepted(before.(tables := rolled), input.instant);
        DatedNext(inputs, i, before.(tables := rolled), tables);
    }

    lemma MomentNow(inputs: seq<Timed>, i: nat, before: Worker)
      requires i < |inputs| && Handled(before, inputs[i]) && Dated(before.tables, t => AcceptedAt(inputs[..i], t))
      requires before.hour == HourAfter(firstHour, inputs[..i]) && hour == HourAfter(firstHour, inputs[..i + 1])
      requires forall t :: Stream(t) == Arrived(firstHour, inputs[..i + 1], t)
      ensures Moment(inputs, i, before.tables, tables, |Jobs()|, Jobs())
    {
      Redated(inputs, i, before);
      assert Jobs()[..|Jobs()|] == Jobs();
      hide Dated, JobStream, Stamp, HourAfter, AcceptedAt, Arrived;
      forall t
        ensures JobStream(Jobs(), t) + (if t in tables then Stamp(tables[t].records, hour) else [])
             == Arrived(firstHour, inputs[..i + 1], t)
      {
        assert Stream(t) == Arrived(firstHour, inputs[..i + 1], t);
      }
    }

    lemma MomentFirst(inputs: seq<Timed>, k: nat, before: map<string, Buffer>, after: map<string, Buffer>,
                      mark: nat, jobs: seq<Job>, t: string)
      requires k < |inputs| && Moment(inputs, k, before, after, mark, jobs) && t in after && inputs[k].command.Tick?
      ensures var at, n := AcceptedAt(inputs[..k + 1], t), |after[t].records|;
        0 < n <= |at| && inputs[k].reading(t) - at[|at| - n] < flushInterval
    {
      hide Arrived, HourAfter, JobStream, Stamp, AcceptedAt, Rolled;
    }

    /** After a tick, with instants that never go back, no record that is still buffered was accepted
        the flush interval or more before the reading of its table's age. */
    lemma YoungAfterTick(inputs: seq<Timed>, kept: seq<map<string, Buffer>>, marks: seq<nat>, jobs: seq<Job>,
                         k: nat, t: string)
      requires History(inputs, kept, marks, jobs) && k < |kept| && inputs[k].command.Tick? && t in kept[k]
      requires var at := AcceptedAt(inputs[..k + 1], t);
        forall i, j :: 0 <= i < j < |at| ==> at[i] <= at[j]
      ensures var at := AcceptedAt(inputs[..k + 1], t);
        && |kept[k][t].records| <= |at|
        && forall r :: |at| - |kept[k][t].records| <= r < |at| ==> inputs[k].reading(t) - at[r] < flushInterval
    {
      hide Moment, AcceptedAt;
      MomentFirst(inputs, k, Previous(kept, k), kept[k], marks[k], jobs, t);
    }

    lemma MomentLonger(inputs: seq<Timed>, k: nat, before: map<string, Buffer>, after: map<string, Buffer>,
                       mark: nat, jobs: seq<Job>, jobs': seq<Job>)
      requires k < |inputs| && Moment(inputs, k, before, after, mark, jobs) && jobs <= jobs'
      ensures Moment(inputs, k, before, after, mark, jobs')
    {
      hide Dated, Arrived, HourAfter, Rolled, Young, JobStream, AcceptedAt, Stamp;
      assert jobs'[..mark] == jobs[..mark];
    }

    lemma HistoryNext(inputs: seq<Timed>, kept: seq<map<string, Buffer>>, marks: seq<nat>, jobs: seq<Job>,
                      tables: map<string, Buffer>, jobs': seq<Job>)
      requires History(inputs, kept, marks, jobs) && jobs <= jobs' && |kept| < |inputs|
      requires Moment(inputs, |kept|, Previous(kept, |kept|), tables, |jobs'|, jobs')
      ensures History(inputs, kept + [tables], marks + [|jobs'|], jobs')
    {
      var kept', marks' := kept + [tables], marks + [|jobs'|];
      hide Moment;
      forall k | 0 <= k < |kept'|
        ensures Moment(inputs, k, Previous(kept', k), kept'[k], marks'[k], jobs')
      {
        assert Previous(kept', k) == Previous(kept, k);
        if k < |kept| {
          MomentLonger(inputs, k, Previous(kept, k), kept[k], marks[k], jobs, jobs');
        }
      }
    }

    /** The worker has come past the first `i` commands. */
    ghost predicate Along(inputs: seq<Timed>, i: nat, kept: seq<map<string, Buffer>>, marks: seq<nat>,
                          w: Worker, jobs: seq<Job>)
      requires i <= |inputs|
    {
      && |kept| == i && History(inputs, kept, marks, jobs) && w.tables == Previous(kept, i)
      && w.hour == HourAfter(firstHour, inputs[..i])
      && (forall t :: Buffering.Stream(jobs, w, t) == Arrived(firstHour, inputs[..i], t))
      && Dated(w.tables, t => AcceptedAt(inputs[..i], t))
    }

    lemma AlongNext(inputs: seq<Timed>, i: nat, kept: seq<map<string, Buffer>>, marks: seq<nat>,
                    w: Worker, jobs: seq<Job>)
      requires i < |inputs| && Along(inputs, i, kept, marks, w, jobs) && Handled(w, inputs[i])
      requires jobs <= Jobs() && hour == Max(w.hour, FloorHour(inputs[i].clock))
      requires Grown(jobs, w, Jobs(), State(), RecordsOf(inputs[i].command))
      ensures Along(inputs, i + 1, kept + [tables], marks + [|Jobs()|], State(), Jobs())
      ensures AllWeights(inputs[..i + 1]) == AllWeights(inputs[..i]) + Weights(RecordsOf(inputs[i].command))
    {
      ArrivedStep(firstHour, inputs, i, jobs, w, Jobs(), State());
      MomentNow(inputs, i, w);
      Redated(inputs, i, w);
      HistoryNext(inputs, kept, marks, jobs, tables, Jobs());
    }

    lemma HistoryLonger(inputs: seq<Timed>, kept: seq<map<string, Buffer>>, marks: seq<nat>,
                        jobs: seq<Job>, jobs': seq<Job>)
      requires History(inputs, kept, marks, jobs) && jobs <= jobs'
      ensures History(inputs, kept, marks, jobs')
    {
      hide Moment;
      forall k | 0 <= k < |kept|
        ensures Moment(inputs, k, Previous(kept, k), kept[k], marks[k], jobs')
      {
        MomentLonger(inputs, k, Previous(kept, k), kept[k], marks[k], jobs, jobs');
      }
    }

    lemma AlongStart(inputs: seq<Timed>)
      requires sent == [] && tables == map[] && hour == firstHour
      ensures Along(inputs, 0, [], [], State(), Jobs()) && AllWeights(inputs[..0]) == 0
    {
    }

    method Turn(inputs: seq<Timed>, i: nat, ghost kept: seq<map<string, Buffer>>, ghost marks: seq<nat>)
      returns (ghost kept': seq<map<string, Buffer>>, ghost marks': seq<nat>)
      requires Valid() && gauge.Valid() && i < |inputs| && Along(inputs, i, kept, marks, State(), Jobs())
      modifies this, gauge
      ensures Valid() && gauge.Valid() && Along(inputs, i + 1, kept', marks', State(), Jobs())
      ensures gauge.fed - AllWeights(inputs[..i + 1]) == old(gauge.fed) - AllWeights(inputs[..i])
    {
      hide Along, Handled, Grown, AllWeights, Sound;
      ghost var w, jobs := State(), Jobs();
      Handle(inputs[i]);
      AlongNext(inputs, i, kept, marks, w, jobs);
      kept', marks' := kept + [tables], marks + [|Jobs()|];
    }

    /** The channel is closed: everything goes. */
    method Stop(inputs: seq<Timed>, ghost kept: seq<map<string, Buffer>>, ghost marks: seq<nat>)
      requires Valid() && Along(inputs, |inputs|, kept, marks, State(), Jobs())
      modifies this
      ensures Valid() && tables == map[] && total == 0
      ensures forall t :: JobStream(Jobs(), t) == Arrived(firstHour, inputs, t)
      ensures inputs[..|inputs|] == inputs && |kept| == |inputs| && History(inputs, kept, marks, Jobs())
    {
      hide Sound, History, Arrived, JobStream, AcceptedAt, HourAfter, Dated;
      assert inputs[..|inputs|] == inputs;
      ghost var jobs := Jobs();
      FlushAll();
      HistoryLonger(inputs, kept, marks, jobs, Jobs());
      forall t ensures JobStream(Jobs(), t) == Arrived(firstHour, inputs, t) {
        assert Stream(t) == JobStream(Jobs(), t) + [];
      }
    }

    /** The worker from start to shutdown: for every command sequence, every clock and every
        map order, the jobs of a table carry its records in arrival order, each under the
        largest clock hour seen when it was accepted; nothing is left behind. After every tick only
        buffers younger than the flush interval are left. */
    method Run(inputs: seq<Timed>) returns (ghost kept: seq<map<string, Buffer>>, ghost marks: seq<nat>)
      requires Valid() && gauge.Valid() && sent == [] && tables == map[] && hour == firstHour
      modifies this, gauge
      ensures Valid() && tables == map[] && total == 0
      ensures forall t :: JobStream(Jobs(), t) == Arrived(firstHour, inputs, t)
      ensures gauge.Valid() && gauge.fed == old(gauge.fed) + AllWeights(inputs)
      ensures |kept| == |inputs| && History(inputs, kept, marks, Jobs())
    {
      hide Along, History, Arrived, AllWeights, Sound, JobStream, Handled, Grown;
      kept, marks := [], [];
      AlongStart(inputs);
      for i := 0 to |inputs|
        invariant Valid() && gauge.Valid() && gauge.fed == old(gauge.fed) + AllWeights(inputs[..i])
        invariant Along(inputs, i, kept, marks, State(), Jobs())
      {
        kept, marks := Turn(inputs, i, kept, marks);
      }
      Stop(inputs, kept, marks);
    }
  }
}
