/**
 Under which hour records are filed, over all interleavings of the writer: each record goes to its
 own market and table, in the order of acceptance, under the largest clock hour its worker had seen.
 */
module WriterHours {
  import opened Numbers
  import opened Markets
  import opened Buffering
  import opened WriterSystem
  import opened WriterStreams

  /** The largest clock hour that the market's worker has seen in the first `i` events. */
  function HourSeen(first: nat, es: seq<Event>, m: Market, i: nat): nat
    requires i <= |es|
  {
    if i == 0 then first
    else
      var before := HourSeen(first, es, m, i - 1);
      match es[i - 1]
      case Take(market, clock) => if market == m then Max(before, FloorHour(clock)) else before
      case _ => before
  }

  /** The record that the event accepts into the market's table. */
  function Accepted(s: State, e: Event, m: Market, table: string): seq<Record> {
    if e.AcceptNext? && e.market == m && Enabled(s, e) && s.lanes.At(m).pc.command.records[0].table == table then
      [s.lanes.At(m).pc.command.records[0]]
    else []
  }

  /** The records accepted into the market's table by the first `i` events, in this order, each under
      the largest hour seen by then. */
  function Filed(ss: seq<State>, es: seq<Event>, m: Market, table: string, i: nat): seq<Stamped>
    requires i <= |es| < |ss|
  {
    if i == 0 then []
    else
      Filed(ss, es, m, table, i - 1)
        + Stamp(Accepted(ss[i - 1], es[i - 1], m, table), HourSeen(ss[0].lanes.At(m).worker.hour, es, m, i - 1))
  }

  function MarketJobs(jobs: seq<Job>, m: Market): seq<Job> {
    if jobs == [] then []
    else MarketJobs(jobs[..|jobs| - 1], m) + if jobs[|jobs| - 1].market == m then [jobs[|jobs| - 1]] else []
  }

  /** What the market's worker has handed over for the table, and what it has buffered. */
  function Stream(s: State, m: Market, table: string): seq<Stamped> {
    Buffering.Stream(MarketJobs(AllJobs(s), m), s.lanes.At(m).worker, table)
  }

  // ---------------------------------------------------------------------------------------
  // The worker's hour

  ghost predicate HourKept(lane: Lane, seen: nat) {
    if lane.pc.Rolling? then lane.worker.hour < lane.pc.hour == seen else lane.worker.hour == seen
  }

  lemma HourStep(s: State, e: Event, m: Market, seen: nat)
    requires Enabled(s, e) && HourKept(s.lanes.At(m), seen)
    ensures HourKept(Apply(s, e).lanes.At(m), if e.Take? && e.market == m then Max(seen, FloorHour(e.clock)) else seen)
    ensures e.AcceptNext? && e.market == m ==> s.lanes.At(m).worker.hour == seen
  {
    hide Resume, Wrapped, SaturatingAdd, SaturatingSub, NextSequence;
  }

  // ---------------------------------------------------------------------------------------
  // The stream

  lemma MarketJobsAppend(jobs: seq<Job>, made: seq<Job>, m: Market)
    requires |made| <= 1
    ensures MarketJobs(jobs + made, m) == MarketJobs(jobs, m) + if made != [] && made[0].market == m then made else []
  {
    if made == [] {
      assert jobs + made == jobs;
    } else {
      assert (jobs + made)[..|jobs|] == jobs && made == [made[0]];
    }
  }

  lemma StreamHandOver(s: State, e: Event, m: Market, table: string)
    requires Owned(s) && Enabled(s, e) && e.HandOverTable? && e.market == m
    ensures Stream(Apply(s, e), m, table) == Stream(s, m, table)
  {
    var w := s.lanes.At(m).worker;
    AllJobsStep(s, e);
    HandOverShape(w, e.table);
    assert Apply(s, e).lanes.At(m).worker == HandOver(w, e.table).0;
    hide HandOver, Apply, Enabled, AllJobs;
    MarketJobsAppend(AllJobs(s), HandOver(w, e.table).1, m);
    HandOverKeepsStream(MarketJobs(AllJobs(s), m), w, e.table, table);
  }

  lemma StreamAccept(s: State, e: Event, m: Market, table: string)
    requires Enabled(s, e) && e.AcceptNext? && e.market == m
    ensures Stream(Apply(s, e), m, table)
         == Stream(s, m, table) + Stamp(Accepted(s, e, m, table), s.lanes.At(m).worker.hour)
  {
    var w, record := s.lanes.At(m).worker, s.lanes.At(m).pc.command.records[0];
    AllJobsStep(s, e);
    assert AllJobs(s) + [] == AllJobs(s);
    assert Apply(s, e).lanes.At(m).worker == Accept(w, record, e.now);
    hide Accept, AllJobs, Apply;
    AcceptAppends(MarketJobs(AllJobs(s), m), w, record, e.now, table);
    assert Stamp([record], w.hour) == [Stamped(record, w.hour)] && Stamp([], w.hour) == [];
  }

  /** The other events leave the worker's tables alone, and its hour unless they are empty. */
  lemma WorkerStays(s: State, e: Event, m: Market)
    requires Enabled(s, e) && !((e.HandOverTable? || e.AcceptNext?) && e.market == m)
    ensures var before, after := s.lanes.At(m).worker, Apply(s, e).lanes.At(m).worker;
      after == before || (before.tables == map[] && after == before.(hour := after.hour))
  {
    hide Resume, Wrapped, HandOver, Accept;
  }

  lemma StreamElsewhere(s: State, e: Event, m: Market, table: string)
    requires Owned(s) && Enabled(s, e) && !((e.HandOverTable? || e.AcceptNext?) && e.market == m)
    ensures Stream(Apply(s, e), m, table) == Stream(s, m, table)
  {
    AllJobsStep(s, e);
    WorkerStays(s, e, m);
    if e.HandOverTable? {
      HandOverShape(s.lanes.At(e.market).worker, e.table);
      MarketJobsAppend(AllJobs(s), HandOver(s.lanes.At(e.market).worker, e.table).1, m);
    }
    assert AllJobs(s) + [] == AllJobs(s) && MarketJobs(AllJobs(s), m) + [] == MarketJobs(AllJobs(s), m);
    hide HandOver, Apply, Enabled, AllJobs, MarketJobs, JobStream, Stamp;
  }

  lemma StreamStep(s: State, e: Event, m: Market, table: string)
    requires Owned(s) && Enabled(s, e)
    ensures Stream(Apply(s, e), m, table)
         == Stream(s, m, table) + Stamp(Accepted(s, e, m, table), s.lanes.At(m).worker.hour)
  {
    if e.HandOverTable? && e.market == m {
      StreamHandOver(s, e, m, table);
    } else if e.AcceptNext? && e.market == m {
      StreamAccept(s, e, m, table);
    } else {
      StreamElsewhere(s, e, m, table);
    }
    assert Stream(s, m, table) + [] == Stream(s, m, table);
    hide Stream, Apply, Enabled;
  }

  /** Over all interleavings: the records of a market's table, in the jobs handed over and then in the
      buffer, are those accepted, in this order, and each job carries its records under the largest
      clock hour that the worker had seen when it accepted them. */
  lemma {:induction false} FiledUnderHour(ss: seq<State>, es: seq<Event>, m: Market, table: string, i: nat)
    requires IsRun(ss, es) && i <= |es|
    ensures Stream(ss[i], m, table) == Filed(ss, es, m, table, i)
    ensures HourKept(ss[i].lanes.At(m), HourSeen(ss[0].lanes.At(m).worker.hour, es, m, i)) && Owned(ss[i])
  {
    if i > 0 {
      FiledUnderHour(ss, es, m, table, i - 1);
      assert StepAt(ss, es, i - 1);
      OwnedKept(ss[i - 1], es[i - 1]);
      HourStep(ss[i - 1], es[i - 1], m, HourSeen(ss[0].lanes.At(m).worker.hour, es, m, i - 1));
      hide Stream, Apply, Enabled, Owned;
      StreamStep(ss[i - 1], es[i - 1], m, table);
      if Accepted(ss[i - 1], es[i - 1], m, table) == [] {
        assert Stamp([], 0) == [];
      }
    }
  }
}
