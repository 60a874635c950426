/**
 The state of one market's writer worker and its two elementary moves: accept a record into
 its table's buffer, and hand a table's buffer to the encoder. `Stream` is what the moves
 preserve: per table, the records already handed over, in order, followed by the buffer.
 */
module Buffering {
  import opened Numbers
  import opened Markets
  import opened Rows

  /** `weight` stands for the estimated size of the record in bytes. */
  datatype Record = Record(table: string, weight: nat, values: Row)

  datatype Buffer = Buffer(records: seq<Record>, bytes: nat, firstSeen: int)

  datatype Job = Job(market: Market, hour: nat, sequence: nat, table: string, records: seq<Record>, bytes: nat)

  datatype Worker = Worker(market: Market, hour: nat, sequence: nat, tables: map<string, Buffer>, total: nat)

  /** A record with the hour it is filed under. */
  datatype Stamped = Stamped(record: Record, hour: nat)

  /** What a worker is asked to do; `ticket` names the reply channel of a flush. */
  datatype Command = Records(records: seq<Record>) | Tick | Flush(ticket: nat)

  /** What the encoder is asked to do. */
  datatype EncodeCommand = Write(job: Job) | Barrier(market: Market, ticket: nat)

  // ---------------------------------------------------------------------------------------
  // Moves

  function Accept(w: Worker, record: Record, now: int): Worker {
    var buffer := if record.table in w.tables then w.tables[record.table] else Buffer([], 0, now);
    var grown := Buffer(buffer.records + [record], SaturatingAdd(buffer.bytes, record.weight), buffer.firstSeen);
    w.(total := SaturatingAdd(w.total, record.weight), tables := w.tables[record.table := grown])
  }

  function NextSequence(sequence: nat): nat {
    Wrapped(sequence + 1)
  }

  /** Hands over the buffer of `table`: at most one job. */
  function HandOver(w: Worker, table: string): (Worker, seq<Job>) {
    if table !in w.tables then (w, [])
    else
      var buffer := w.tables[table];
      var rest := w.(tables := w.tables - {table});
      if buffer.records == [] then (rest, [])
      else
        var sequence := NextSequence(w.sequence);
        (rest.(sequence := sequence, total := SaturatingSub(w.total, buffer.bytes)),
         [Job(w.market, w.hour, sequence, table, buffer.records, buffer.bytes)])
  }

  // ---------------------------------------------------------------------------------------
  // Streams

  function Stamp(records: seq<Record>, hour: nat): (r: seq<Stamped>)
    ensures |r| == |records| && forall i :: 0 <= i < |r| ==> r[i] == Stamped(records[i], hour)
  {
    seq(|records|, i requires 0 <= i < |records| => Stamped(records[i], hour))
  }

  /** The records of a table, in order, over a sequence of jobs. */
  function JobStream(jobs: seq<Job>, table: string): seq<Stamped> {
    if jobs == [] then []
    else
      var job := jobs[|jobs| - 1];
      JobStream(jobs[..|jobs| - 1], table) + if job.table == table then Stamp(job.records, job.hour) else []
  }

  function Pending(w: Worker, table: string): seq<Stamped> {
    if table in w.tables then Stamp(w.tables[table].records, w.hour) else []
  }

  function Stream(jobs: seq<Job>, w: Worker, table: string): seq<Stamped> {
    JobStream(jobs, table) + Pending(w, table)
  }

  function OfTable(records: seq<Record>, table: string): seq<Record> {
    if records == [] then []
    else
      OfTable(records[..|records| - 1], table) +
        if records[|records| - 1].table == table then [records[|records| - 1]] else []
  }

  function RecordsOf(command: Command): seq<Record> {
    if command.Records? then command.records else []
  }

  function JobsOf(commands: seq<EncodeCommand>): seq<Job> {
    if commands == [] then []
    else
      var last := commands[|commands| - 1];
      JobsOf(commands[..|commands| - 1]) + if last.Write? then [last.job] else []
  }

  lemma JobsOfAppend(commands: seq<EncodeCommand>, command: EncodeCommand)
    ensures JobsOf(commands + [command]) == JobsOf(commands) + if command.Write? then [command.job] else []
  {
    assert (commands + [command])[..|commands|] == commands;
  }

  lemma JobStreamAppend(jobs: seq<Job>, job: Job, table: string)
    ensures JobStream(jobs + [job], table)
         == JobStream(jobs, table) + if job.table == table then Stamp(job.records, job.hour) else []
  {
    assert (jobs + [job])[..|jobs|] == jobs;
  }

  lemma OfTableAppend(records: seq<Record>, record: Record, table: string)
    ensures OfTable(records + [record], table)
         == OfTable(records, table) + if record.table == table then [record] else []
  {
    assert (records + [record])[..|records|] == records;
  }

  /** What handing over does: the buffer goes, and a nonempty one becomes the next job. */
  lemma HandOverShape(w: Worker, flushed: string)
    ensures var (after, made) := HandOver(w, flushed);
      && after.market == w.market && after.hour == w.hour && after.tables == w.tables - {flushed}
      && (if flushed in w.tables && w.tables[flushed].records != [] then
            && |made| == 1 && made[0].market == w.market && made[0].hour == w.hour && made[0].table == flushed
            && made[0].records == w.tables[flushed].records
            && made[0].bytes == w.tables[flushed].bytes && after.total == SaturatingSub(w.total, made[0].bytes)
            && made[0].sequence == after.sequence == NextSequence(w.sequence)
          else
            made == [] && after.sequence == w.sequence && after.total == w.total)
  {
    hide SaturatingSub, NextSequence;
  }

  /** Handing a buffer over moves its records from the buffer to the jobs and changes no stream. */
  lemma HandOverKeepsStream(jobs: seq<Job>, w: Worker, flushed: string, table: string)
    ensures Stream(jobs + HandOver(w, flushed).1, HandOver(w, flushed).0, table) == Stream(jobs, w, table)
  {
    hide HandOver, JobStream, Stamp, NextSequence;
    var (after, made) := HandOver(w, flushed);
    HandOverShape(w, flushed);
    if made == [] {
      assert jobs + made == jobs;
    } else {
      var job := made[0];
      assert made == [job];
      JobStreamAppend(jobs, job, table);
      var before := JobStream(jobs, table);
      assert before + Stamp(job.records, job.hour) + [] == before + Stamp(job.records, job.hour);
      assert before + [] == before;
    }
  }

  /** Accepting a record appends it, under the current hour, to its own table's stream. */
  lemma AcceptAppends(jobs: seq<Job>, w: Worker, record: Record, now: int, table: string)
    ensures Stream(jobs, Accept(w, record, now), table)
         == Stream(jobs, w, table) + if record.table == table then [Stamped(record, w.hour)] else []
  {
  }

  // ---------------------------------------------------------------------------------------
  // Byte counts

  function Weights(records: seq<Record>): nat {
    if records == [] then 0 else Weights(records[..|records| - 1]) + records[|records| - 1].weight
  }

  lemma WeightsAppend(records: seq<Record>, record: Record)
    ensures Weights(records + [record]) == Weights(records) + record.weight
  {
    assert (records + [record])[..|records|] == records;
  }

  ghost function TableBytes(tables: map<string, Buffer>): nat
    decreases |tables|
  {
    if tables == map[] then 0
    else
      var table :| table in tables;
      tables[table].bytes + TableBytes(tables - {table})
  }

  lemma {:induction false} TableBytesRemove(tables: map<string, Buffer>, table: string)
    requires table in tables
    ensures TableBytes(tables) == tables[table].bytes + TableBytes(tables - {table})
    decreases |tables|
  {
    var first :| first in tables && TableBytes(tables) == tables[first].bytes + TableBytes(tables - {first});
    if first != table {
      TableBytesRemove(tables - {first}, table);
      TableBytesRemove(tables - {table}, first);
      assert tables - {first} - {table} == tables - {table} - {first};
    }
  }

  /** No buffer is empty, its byte count is that of its records up to saturation, and the
      worker's total never exceeds the sum of the buffers' counts. */
  ghost predicate Valid(w: Worker) {
    && (forall table <- w.tables ::
          w.tables[table].records != [] && w.tables[table].bytes == Capped(Weights(w.tables[table].records)))
    && w.total <= TableBytes(w.tables) && w.total < U64
  }

  lemma AcceptValid(w: Worker, record: Record, now: int)
    requires Valid(w)
    ensures Valid(Accept(w, record, now))
  {
    var table, after := record.table, Accept(w, record, now);
    if table in w.tables {
      WeightsAppend(w.tables[table].records, record);
      TableBytesRemove(w.tables, table);
    } else {
      assert w.tables - {table} == w.tables;
      assert [] + [record] == [record];
      WeightsAppend([], record);
    }
    TableBytesRemove(after.tables, table);
    assert after.tables - {table} == w.tables - {table};
  }

  lemma HandOverValid(w: Worker, table: string)
    requires Valid(w)
    ensures Valid(HandOver(w, table).0)
  {
    if table in w.tables {
      TableBytesRemove(w.tables, table);
    }
  }

  /** A buffer takes at most its own bytes out of the total. */
  lemma HandOverTotal(w: Worker, table: string)
    requires Valid(w) && table in w.tables
    ensures w.total <= HandOver(w, table).0.total + w.tables[table].bytes
  {
  }

  /** A worker with a positive total has something to hand over. */
  lemma TotalNeedsTables(w: Worker)
    requires Valid(w) && w.total > 0
    ensures w.tables != map[]
  {
  }
}
