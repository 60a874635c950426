/**
 Two flushes that overlap: the first is answered with the error of a failed write, and the second,
 which began before that answer, returns Ok although the write had not been reported before it began.
 */
module OverlappingFlush {
  import opened Wrappers
  import opened Markets
  import opened Buffering
  import opened WriterSystem
  import FlushBarrier

  // ---------------------------------------------------------------------------------------
  // Runs, one event at a time

  /** A run that has come to `s`. */
  ghost predicate Reaches(ss: seq<State>, es: seq<Event>, s: State) {
    IsRun(ss, es) && ss[|es|] == s
  }

  lemma Extend(ss: seq<State>, es: seq<Event>, s: State, e: Event, t: State) returns (ts: seq<State>, fs: seq<Event>)
    requires Reaches(ss, es, s) && Enabled(s, e) && Apply(s, e) == t
    ensures Reaches(ts, fs, t)
  {
    hide Apply, Enabled;
    ts, fs := ss + [t], es + [e];
    forall i | 0 <= i < |fs| ensures StepAt(ts, fs, i) {
      assert i < |es| ==> StepAt(ss, es, i);
    }
  }

  /** The worker of an empty market passes its next flush token through the encoder and back. */
  function Passed(s: State, m: Market, k: nat): State
    requires s.lanes.At(m).inbox != [] && k < |s.tickets| && s.tickets[k].call in s.calls
  {
    var lane, c := s.lanes.At(m), s.tickets[k].call;
    s.(lanes := s.lanes.With(m, lane.(inbox := lane.inbox[1..], pc := Idle)),
       pendingError := false,
       log := s.log + [Answer(m, k, !s.pendingError)],
       calls := s.calls[c := Resume(s.calls[c], k, !s.pendingError, |s.log|)])
  }

  predicate Passable(s: State, m: Market, k: nat) {
    var lane := s.lanes.At(m);
    && lane.pc.Idle? && lane.worker.hour == 0 && lane.worker.tables == map[]
    && lane.inbox != [] && lane.inbox[0] == Flush(k)
    && s.queue == [] && s.hand.Empty? && k < |s.tickets| && s.tickets[k].call in s.calls
  }

  /** The token is in the encoder's queue. */
  function Sent(s: State, m: Market, k: nat): State
    requires s.lanes.At(m).inbox != []
  {
    var lane := s.lanes.At(m);
    s.(lanes := s.lanes.With(m, lane.(inbox := lane.inbox[1..], pc := Awaiting(k))), queue := [Barrier(m, k)])
  }

  lemma Send(ss: seq<State>, es: seq<Event>, s: State, m: Market, k: nat) returns (ts: seq<State>, fs: seq<Event>)
    requires Reaches(ss, es, s) && Passable(s, m, k)
    ensures Reaches(ts, fs, Sent(s, m, k))
  {
    hide Reaches;
    var lane := s.lanes.At(m);
    var s1 := s.(lanes := s.lanes.With(m, lane.(inbox := lane.inbox[1..], pc := Handling(Flush(k)))));
    ts, fs := Extend(ss, es, s, Take(m, 0), s1);
    ts, fs := Extend(ts, fs, s1, SendBarrier(m), Sent(s, m, k));
  }

  lemma Pass(ss: seq<State>, es: seq<Event>, s: State, m: Market, k: nat) returns (ts: seq<State>, fs: seq<Event>)
    requires Reaches(ss, es, s) && Passable(s, m, k)
    ensures Reaches(ts, fs, Passed(s, m, k))
  {
    hide Reaches, Resume;
    ts, fs := Send(ss, es, s, m, k);
    var s2 := Sent(s, m, k);
    var s3 := s2.(queue := [], hand := Fresh(Barrier(m, k)));
    var s4 := s.(lanes := s.lanes.With(m, s2.lanes.At(m).(pc := Answered(k, !s.pendingError, |s.log|))),
                 pendingError := false, log := s.log + [Answer(m, k, !s.pendingError)]);
    ts, fs := Extend(ts, fs, s2, Receive, s3);
    ts, fs := Extend(ts, fs, s3, AnswerBarrier, s4);
    ts, fs := Extend(ts, fs, s4, Reply(m), Passed(s, m, k));
  }

  // ---------------------------------------------------------------------------------------
  // One failed write, two flushes

  const RECORD := Record("trades", 1, [])
  const FAILED_JOB := Job(Spot, 0, 1, "trades", [RECORD], 1)

  function Resting(m: Market): Lane {
    Lane(Worker(m, 0, 0, map[], 0), Idle, [], [])
  }

  function Start(): State {
    State(PerMarket(Resting(Spot), Resting(Usdm), Resting(Coinm)), [], Empty, false, 0, 0, [], map[], [])
  }

  /** A flush that began after the record was submitted and waits for the spot market. */
  function Waiting(ticket: nat): Call {
    Call(0, Some(ticket), PerMarket([RECORD], [], []), 0, [], Open)
  }

  /** The record and both tokens are in the inbox of the spot market. */
  function Asked(): State {
    var lane := Resting(Spot).(inbox := [Records([RECORD]), Flush(0), Flush(1)], submitted := [RECORD]);
    Start().(
      lanes := Start().lanes.With(Spot, lane),
      calls := map[0 := Waiting(0), 1 := Waiting(1)],
      tickets := [Ticket(0, Spot), Ticket(1, Spot)])
  }

  /** The write of the record has failed. */
  function Broken(): State {
    Asked().(
      lanes := Start().lanes.With(Spot, Lane(Worker(Spot, 0, 1, map[], 0), Idle, [Flush(0), Flush(1)], [RECORD])),
      pendingError := true,
      log := [Wrote(FAILED_JOB, false)])
  }

  /** Both flushes have begun. */
  function Begun(): State {
    var call := Waiting(0).(waiting := None);
    Start().(
      lanes := Start().lanes.With(Spot, Resting(Spot).(inbox := [Records([RECORD])], submitted := [RECORD])),
      calls := map[0 := call, 1 := call])
  }

  lemma Begin() returns (ss: seq<State>, es: seq<Event>)
    ensures Reaches(ss, es, Begun())
  {
    ss, es := [Start()], [];
    assert Reaches(ss, es, Start());
    hide Reaches;
    assert [] + [Records([RECORD])] == [Records([RECORD])] && [] + [RECORD] == [RECORD];
    var s1, s2 := Begun().(calls := map[]), Begun().(calls := map[0 := Begun().calls[0]]);
    ss, es := Extend(ss, es, Start(), Submit(Spot, [RECORD]), s1);
    ss, es := Extend(ss, es, s1, BeginFlush(0), s2);
    ss, es := Extend(ss, es, s2, BeginFlush(1), Begun());
  }

  lemma Ask(ss: seq<State>, es: seq<Event>) returns (ts: seq<State>, fs: seq<Event>)
    requires Reaches(ss, es, Begun())
    ensures Reaches(ts, fs, Asked())
  {
    hide Reaches;
    var records := Records([RECORD]);
    assert [records] + [Flush(0)] == [records, Flush(0)];
    assert [records, Flush(0)] + [Flush(1)] == [records, Flush(0), Flush(1)];
    assert [] + [Ticket(0, Spot)] == [Ticket(0, Spot)];
    assert [Ticket(0, Spot)] + [Ticket(1, Spot)] == [Ticket(0, Spot), Ticket(1, Spot)];
    var s1 := Begun().(
      lanes := Start().lanes.With(Spot, Resting(Spot).(inbox := [records, Flush(0)], submitted := [RECORD])),
      calls := map[0 := Waiting(0), 1 := Begun().calls[1]],
      tickets := [Ticket(0, Spot)]);
    ts, fs := Extend(ss, es, Begun(), SendFlush(0), s1);
    ts, fs := Extend(ts, fs, s1, SendFlush(1), Asked());
  }

  /** The record is in its buffer. */
  function Filled(): State {
    var full := Worker(Spot, 0, 0, map["trades" := Buffer([RECORD], 1, 0)], 1);
    Asked().(
      lanes := Start().lanes.With(Spot, Lane(full, Handling(Records([])), [Flush(0), Flush(1)], [RECORD])),
      gauge := 1)
  }

  lemma Fill(ss: seq<State>, es: seq<Event>) returns (ts: seq<State>, fs: seq<Event>)
    requires Reaches(ss, es, Asked())
    ensures Reaches(ts, fs, Filled())
  {
    hide Reaches;
    var empty := Worker(Spot, 0, 0, map[], 0);
    var s1 := Asked().(
      lanes := Start().lanes.With(Spot, Lane(empty, Handling(Records([RECORD])), [Flush(0), Flush(1)], [RECORD])));
    assert Asked().lanes.spot.inbox[1..] == [Flush(0), Flush(1)];
    ts, fs := Extend(ss, es, Asked(), Take(Spot, 0), s1);
    assert [] + [RECORD] == [RECORD] && [RECORD][1..] == [];
    assert Accept(empty, RECORD, 0) == Filled().lanes.spot.worker;
    hide Accept;
    ts, fs := Extend(ts, fs, s1, AcceptNext(Spot, 0), Filled());
  }

  /** The record's buffer is in the encoder's queue. */
  function Queued(): State {
    Asked().(
      lanes := Start().lanes.With(Spot, Lane(Worker(Spot, 0, 1, map[], 0), Idle, [Flush(0), Flush(1)], [RECORD])),
      queue := [Write(FAILED_JOB)],
      gauge := 1)
  }

  lemma Queue(ss: seq<State>, es: seq<Event>) returns (ts: seq<State>, fs: seq<Event>)
    requires Reaches(ss, es, Filled())
    ensures Reaches(ts, fs, Queued())
  {
    hide Reaches;
    var s1 := Queued().(lanes := Start().lanes.With(Spot, Queued().lanes.spot.(pc := Handling(Records([])))));
    assert HandOver(Filled().lanes.spot.worker, "trades") == (Worker(Spot, 0, 1, map[], 0), [FAILED_JOB]);
    hide HandOver;
    assert [] + Writes([FAILED_JOB]) == [Write(FAILED_JOB)];
    ts, fs := Extend(ss, es, Filled(), HandOverTable(Spot, "trades"), s1);
    ts, fs := Extend(ts, fs, s1, Finish(Spot), Queued());
  }

  lemma Break(ss: seq<State>, es: seq<Event>) returns (ts: seq<State>, fs: seq<Event>)
    requires Reaches(ss, es, Queued())
    ensures Reaches(ts, fs, Broken())
  {
    hide Reaches;
    var s1 := Queued().(queue := [], hand := Fresh(Write(FAILED_JOB)));
    var s2 := s1.(hand := Written(FAILED_JOB, false), log := [Wrote(FAILED_JOB, false)]);
    var s3 := s2.(hand := Discounted(FAILED_JOB, false), gauge := 0);
    ts, fs := Extend(ss, es, Queued(), Receive, s1);
    ts, fs := Extend(ts, fs, s1, Encode(false), s2);
    ts, fs := Extend(ts, fs, s2, Discount, s3);
    ts, fs := Extend(ts, fs, s3, Settle, Broken());
  }

  // ---------------------------------------------------------------------------------------
  // The second flush succeeds

  /** The error goes to flush 0, the next answer of the spot market is Ok. */
  function SpotDone(): State {
    Passed(Passed(Broken(), Spot, 0), Spot, 1)
  }

  lemma PassSpot(ss: seq<State>, es: seq<Event>) returns (ts: seq<State>, fs: seq<Event>)
    requires Reaches(ss, es, Broken())
    ensures Reaches(ts, fs, SpotDone())
  {
    ts, fs := Pass(ss, es, Broken(), Spot, 0);
    ts, fs := Pass(ts, fs, Passed(Broken(), Spot, 0), Spot, 1);
  }

  /** Flush 1 asks the next market, whose worker has nothing else to do. */
  lemma PassNext(ss: seq<State>, es: seq<Event>, s: State, m: Market) returns (ts: seq<State>, fs: seq<Event>, t: State)
    requires Reaches(ss, es, s) && Enabled(s, SendFlush(1)) && m == FLUSH_ORDER[s.calls[1].stage]
    requires s.lanes.At(m) == Resting(m) && s.queue == [] && s.hand.Empty? && !s.pendingError
    ensures Reaches(ts, fs, t) && t.queue == [] && t.hand.Empty? && !t.pendingError
    ensures t.lanes == s.lanes && t.log == s.log + [Answer(m, |s.tickets|, true)]
    ensures forall c <- s.calls :: c in t.calls && (c != 1 ==> t.calls[c] == s.calls[c])
    ensures 1 in t.calls && t.calls[1] == Resume(s.calls[1].(waiting := Some(|s.tickets|)), |s.tickets|, true, |s.log|)
  {
    var k := |s.tickets|;
    var lane := Resting(m).(inbox := [Flush(k)]);
    var asking := s.(lanes := s.lanes.With(m, lane), tickets := s.tickets + [Ticket(1, m)],
                     calls := s.calls[1 := s.calls[1].(waiting := Some(k))]);
    assert [] + [Flush(k)] == [Flush(k)] && [Flush(k)][1..] == [];
    hide Reaches, Resume;
    ts, fs := Extend(ss, es, s, SendFlush(1), asking);
    ts, fs := Pass(ts, fs, asking, m, k);
    t := Passed(asking, m, k);
  }

  /** Flush 0 gets the error, flush 1 returns Ok, and the failed write of a record submitted before it was not reported
      before it began. */
  lemma OverlapHidesFailure() returns (ss: seq<State>, es: seq<Event>)
    ensures IsRun(ss, es)
    ensures var s := ss[|es|];
      && 1 in s.calls && s.calls[1].outcome.Succeeded? && RECORD in s.calls[1].submitted.spot
      && 0 in s.calls && s.calls[0].outcome.Failed?
      && |s.log| > 0 && s.log[0] == Wrote(FAILED_JOB, false) && RECORD in FAILED_JOB.records
      && !FlushBarrier.Reported(s.log, 0, s.calls[1].start)
  {
    ss, es := Begin();
    ss, es := Ask(ss, es);
    ss, es := Fill(ss, es);
    ss, es := Queue(ss, es);
    ss, es := Break(ss, es);
    ss, es := PassSpot(ss, es);
    var s := SpotDone();
    var usdm, coinm;
    ss, es, usdm := PassNext(ss, es, s, Usdm);
    ss, es, coinm := PassNext(ss, es, usdm, Coinm);
  }
}
