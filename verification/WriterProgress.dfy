/**
 The writer does not get stuck. Apart from what its callers do, every step uses up work, and as
 long as anything is under way some step is possible; so it comes to rest, and then no caller of a
 flush is waiting any more.
 */
module WriterProgress {
  import opened Buffering
  import opened Markets
  import opened Numbers
  import opened WriterSystem

  /** The steps of the workers and the encoder, and callers taking their answers. */
  predicate Internal(e: Event) {
    !e.Submit? && !e.SendTick? && !e.BeginFlush? && !e.SendFlush?
  }

  /** Nothing is under way: what has been accepted is written or buffered. */
  predicate AtRest(s: State) {
    && s.queue == [] && s.hand.Empty?
    && forall m: Market :: s.lanes.At(m).pc.Idle? && s.lanes.At(m).inbox == []
  }

  // ---------------------------------------------------------------------------------------
  // Work

  function CommandWork(c: Command): nat {
    match c
    case Records(records) => 1 + 6 * |records|
    case Tick => 1
    case Flush(_) => 5
  }

  function PcWork(pc: Pc): nat {
    match pc
    case Idle => 0
    case Rolling(c, _) => 1 + CommandWork(c)
    case Handling(c) => CommandWork(c)
    case Awaiting(_) => 2
    case Answered(_, _, _) => 1
  }

  function InboxWork(inbox: seq<Command>): nat {
    if inbox == [] then 0 else 2 + CommandWork(inbox[0]) + InboxWork(inbox[1..])
  }

  function LaneWork(lane: Lane): nat {
    InboxWork(lane.inbox) + PcWork(lane.pc) + 5 * |lane.worker.tables|
  }

  function QueueWork(queue: seq<EncodeCommand>): nat {
    if queue == [] then 0 else QueueWork(queue[..|queue| - 1]) + if queue[|queue| - 1].Write? then 4 else 2
  }

  function HandWork(hand: Hand): nat {
    match hand
    case Empty => 0
    case Fresh(c) => if c.Write? then 3 else 1
    case Written(_, _) => 2
    case Discounted(_, _) => 1
  }

  function Work(s: State): nat {
    LaneWork(s.lanes.spot) + LaneWork(s.lanes.usdm) + LaneWork(s.lanes.coinm) + QueueWork(s.queue) + HandWork(s.hand)
  }

  lemma QueueWorkAppend(queue: seq<EncodeCommand>, command: EncodeCommand)
    ensures QueueWork(queue + [command]) == QueueWork(queue) + if command.Write? then 4 else 2
  {
    assert (queue + [command])[..|queue|] == queue;
  }

  lemma {:induction false} QueueWorkHead(queue: seq<EncodeCommand>)
    requires queue != []
    ensures QueueWork(queue) == (if queue[0].Write? then 4 else 2) + QueueWork(queue[1..])
  {
    var n := |queue| - 1;
    if n > 0 {
      QueueWorkHead(queue[..n]);
      assert queue[..n][1..] == queue[1..][..n - 1];
    } else {
      assert queue[..0] == [] && queue[1..] == [];
    }
  }

  /** What the step of a market adds to the queue. */
  function Sent(lane: Lane, e: Event): seq<EncodeCommand>
    requires LaneEnabled(lane, e)
  {
    match e
    case HandOverTable(_, table) => Writes(HandOver(lane.worker, table).1)
    case SendBarrier(m) => [Barrier(m, lane.pc.command.ticket)]
    case _ => []
  }

  lemma AcceptTables(w: Worker, record: Record, now: int)
    ensures |Accept(w, record, now).tables| <= |w.tables| + 1
  {
    var after := Accept(w, record, now).tables;
    assert after.Keys == w.tables.Keys + {record.table};
  }

  lemma HandOverTables(w: Worker, table: string)
    requires table in w.tables
    ensures |HandOver(w, table).0.tables| + 1 == |w.tables|
  {
    HandOverShape(w, table);
    var after := HandOver(w, table).0.tables;
    assert after.Keys == w.tables.Keys - {table};
  }

  /** A step of a market uses up more work than it makes for the encoder. */
  lemma LaneWorkFalls(lane: Lane, e: Event)
    requires OfLane(e) && Internal(e) && LaneEnabled(lane, e)
    ensures LaneWork(Advance(lane, e)) + QueueWork(Sent(lane, e)) < LaneWork(lane)
  {
    assert QueueWork([]) == 0;
    match e
    case HandOverTable(_, table) =>
      HandOverTables(lane.worker, table);
      HandOverShape(lane.worker, table);
      var made := HandOver(lane.worker, table).1;
      if made != [] {
        assert Writes(made) == [] + [Write(made[0])];
        QueueWorkAppend([], Write(made[0]));
      }
    case AcceptNext(_, now) => AcceptTables(lane.worker, lane.pc.command.records[0], now);
    case SendBarrier(m) =>
      var barrier := Barrier(m, lane.pc.command.ticket);
      QueueWorkAppend([], barrier);
      assert [] + [barrier] == [barrier];
    case _ =>
  }

  lemma SentQueue(s: State, e: Event)
    requires OfLane(e) && Internal(e) && Enabled(s, e)
    ensures var t, lane := Apply(s, e), s.lanes.At(e.market);
      && t.queue == s.queue + Sent(lane, e) && t.hand == s.hand
      && t.lanes == s.lanes.With(e.market, Advance(lane, e))
      && QueueWork(t.queue) == QueueWork(s.queue) + QueueWork(Sent(lane, e))
  {
    var lane := s.lanes.At(e.market);
    hide Accept, Resume, Wrapped;
    assert s.queue + [] == s.queue && QueueWork([]) == 0;
    if e.HandOverTable? {
      HandOverShape(lane.worker, e.table);
    }
    hide HandOver;
    var sent := Sent(lane, e);
    if sent != [] {
      assert sent == [sent[0]] && [] + [sent[0]] == [sent[0]];
      QueueWorkAppend(s.queue, sent[0]);
      QueueWorkAppend([], sent[0]);
    }
  }

  lemma EncoderWorkFalls(s: State, e: Event)
    requires Internal(e) && !OfLane(e) && Enabled(s, e)
    ensures Work(Apply(s, e)) < Work(s)
  {
    match e
    case Receive => QueueWorkHead(s.queue);
    case AnswerBarrier =>
      var Barrier(m, ticket) := s.hand.command;
      var before, after := s.lanes.At(m), Apply(s, e).lanes.At(m);
      assert LaneWork(after) <= LaneWork(before);
    case _ =>
  }

  /** Every step of the workers, the encoder and the callers that take an answer uses up work. */
  lemma WorkFalls(s: State, e: Event)
    requires Internal(e) && Enabled(s, e)
    ensures Work(Apply(s, e)) < Work(s)
  {
    if OfLane(e) {
      SentQueue(s, e);
      LaneWorkFalls(s.lanes.At(e.market), e);
      hide LaneWork, QueueWork, Apply, Enabled, Advance, Sent;
    } else {
      EncoderWorkFalls(s, e);
    }
  }

  // ---------------------------------------------------------------------------------------
  // Nothing waits in vain

  /** The token is in the market's inbox or in its worker's hands. */
  predicate Carried(lane: Lane, k: nat) {
    || Flush(k) in lane.inbox
    || ((lane.pc.Rolling? || lane.pc.Handling?) && lane.pc.command == Flush(k))
    || lane.pc == Awaiting(k)
    || (lane.pc.Answered? && lane.pc.ticket == k)
  }

  /** A worker that awaits an answer has its barrier in the queue or in the encoder's hand. */
  ghost predicate BarrierUnderWay(s: State, m: Market) {
    var pc := s.lanes.At(m).pc;
    pc.Awaiting? ==> Barrier(m, pc.ticket) in s.queue || s.hand == Fresh(Barrier(m, pc.ticket))
  }

  /** A waiting call's token is carried; an open call has markets left to ask or waits. */
  ghost predicate CallUnderWay(s: State, c: nat)
    requires c in s.calls
  {
    var call := s.calls[c];
    && (call.outcome.Open? ==> call.stage < |FLUSH_ORDER|)
    && (call.waiting.Some? ==>
          && call.outcome.Open? && call.waiting.value < |s.tickets| && s.tickets[call.waiting.value].call == c
          && Carried(s.lanes.At(s.tickets[call.waiting.value].market), call.waiting.value))
  }

  ghost predicate UnderWay(s: State) {
    (forall m: Market :: BarrierUnderWay(s, m)) && forall c <- s.calls :: CallUnderWay(s, c)
  }

  lemma BarrierKept(s: State, e: Event, m: Market)
    requires Enabled(s, e) && BarrierUnderWay(s, m)
    ensures BarrierUnderWay(Apply(s, e), m)
  {
    hide HandOver, Accept, Resume, Wrapped;
    var t := Apply(s, e);
    if t.lanes.At(m).pc.Awaiting? {
      if e.SendBarrier? && e.market == m {
        assert t.queue[|s.queue|] == Barrier(m, t.lanes.At(m).pc.ticket);
      } else {
        assert s.lanes.At(m).pc == t.lanes.At(m).pc;
        var barrier := Barrier(m, t.lanes.At(m).pc.ticket);
        if barrier in s.queue {
          var q :| 0 <= q < |s.queue| && s.queue[q] == barrier;
          if e.Receive? {
            assert q > 0 ==> t.queue[q - 1] == barrier;
          } else {
            assert t.queue[q] == barrier;
          }
        }
      }
    }
  }

  lemma CarriedKept(s: State, e: Event, m: Market, k: nat)
    requires Enabled(s, e) && Carried(s.lanes.At(m), k)
    ensures Carried(Apply(s, e).lanes.At(m), k) || (e.Reply? && e.market == m && s.lanes.At(m).pc.ticket == k)
  {
    hide HandOver, Accept, Resume, Wrapped;
    var before, after := s.lanes.At(m), Apply(s, e).lanes.At(m);
    if Flush(k) in before.inbox {
      var j :| 0 <= j < |before.inbox| && before.inbox[j] == Flush(k);
      if e.Take? && e.market == m {
        assert j > 0 ==> after.inbox[j - 1] == Flush(k);
      } else {
        assert after.inbox[j] == Flush(k);
      }
    }
  }

  lemma CallKept(s: State, e: Event, c: nat)
    requires Enabled(s, e) && c in s.calls && CallUnderWay(s, c)
    ensures c in Apply(s, e).calls && CallUnderWay(Apply(s, e), c)
  {
    hide HandOver, Accept, Wrapped;
    var t, call := Apply(s, e), s.calls[c];
    assert s.tickets <= t.tickets;
    if call.waiting.Some? {
      CarriedKept(s, e, s.tickets[call.waiting.value].market, call.waiting.value);
    }
    if e.SendFlush? && e.call == c {
      var m := FLUSH_ORDER[call.stage];
      assert t.lanes.At(m).inbox[|s.lanes.At(m).inbox|] == Flush(|s.tickets|);
    }
  }

  lemma UnderWayKept(s: State, e: Event)
    requires Enabled(s, e) && UnderWay(s)
    ensures UnderWay(Apply(s, e))
  {
    forall m: Market ensures BarrierUnderWay(Apply(s, e), m) {
      BarrierKept(s, e, m);
    }
    forall c | c in Apply(s, e).calls ensures CallUnderWay(Apply(s, e), c) {
      if c in s.calls {
        CallKept(s, e, c);
      }
    }
  }

  lemma {:induction false} UnderWayHolds(ss: seq<State>, es: seq<Event>, i: nat)
    requires IsRun(ss, es) && i < |ss|
    ensures UnderWay(ss[i])
  {
    if i > 0 {
      assert StepAt(ss, es, i - 1);
      UnderWayHolds(ss, es, i - 1);
      UnderWayKept(ss[i - 1], es[i - 1]);
    }
  }

  // ---------------------------------------------------------------------------------------
  // The writer comes to rest

  lemma LaneMoves(s: State, m: Market) returns (e: Event)
    requires s.queue == [] && s.hand.Empty? && BarrierUnderWay(s, m)
    requires !(s.lanes.At(m).pc.Idle? && s.lanes.At(m).inbox == [])
    ensures Internal(e) && Enabled(s, e)
  {
    var lane := s.lanes.At(m);
    match lane.pc
    case Idle => e := Take(m, 0);
    case Rolling(_, _) =>
      if table :| table in lane.worker.tables {
        e := HandOverTable(m, table);
      } else {
        e := Roll(m);
      }
    case Handling(c) =>
      if RecordsOf(c) != [] {
        e := AcceptNext(m, 0);
      } else if !c.Flush? {
        e := Finish(m);
      } else if table :| table in lane.worker.tables {
        e := HandOverTable(m, table);
      } else {
        e := SendBarrier(m);
      }
    case Awaiting(k) => assert false;
    case Answered(_, _, _) => e := Reply(m);
  }

  /** As long as anything is under way, the workers or the encoder can go on. */
  lemma NoDeadlock(s: State) returns (e: Event)
    requires UnderWay(s) && !AtRest(s)
    ensures Internal(e) && Enabled(s, e)
  {
    match s.hand
    case Fresh(c) => e := if c.Write? then Encode(true) else AnswerBarrier;
    case Written(_, _) => e := Discount;
    case Discounted(_, _) => e := Settle;
    case Empty =>
      if s.queue != [] {
        e := Receive;
      } else {
        var m: Market :| !(s.lanes.At(m).pc.Idle? && s.lanes.At(m).inbox == []);
        assert BarrierUnderWay(s, m);
        e := LaneMoves(s, m);
      }
  }

  /** A stretch of a run in which the callers start nothing new. */
  ghost predicate OnItsOwn(ts: seq<State>, fs: seq<Event>) {
    |ts| == |fs| + 1 && forall i :: 0 <= i < |fs| ==> StepAt(ts, fs, i) && Internal(fs[i])
  }

  /** Whatever is done first, the writer can take only so many steps on its own. */
  lemma {:induction false} StepsBounded(ts: seq<State>, fs: seq<Event>)
    requires OnItsOwn(ts, fs)
    ensures |fs| + Work(ts[|fs|]) <= Work(ts[0])
    decreases |fs|
  {
    hide Work, Apply, Enabled;
    if fs != [] {
      var n := |fs| - 1;
      var ts', fs' := ts[..|ts| - 1], fs[..n];
      forall i | 0 <= i < n ensures StepAt(ts', fs', i) && Internal(fs'[i]) {
        assert StepAt(ts, fs, i) && Internal(fs[i]);
      }
      StepsBounded(ts', fs');
      assert StepAt(ts, fs, n) && Internal(fs[n]);
      WorkFalls(ts[n], fs[n]);
    }
  }

  /** Where the writer cannot go on its own it is at rest, and no caller of a flush is waiting: each
      has its outcome or can ask the next market. */
  lemma StuckIsAtRest(ss: seq<State>, es: seq<Event>, i: nat)
    requires IsRun(ss, es) && i < |ss|
    requires forall e: Event :: Internal(e) ==> !Enabled(ss[i], e)
    ensures AtRest(ss[i])
    ensures forall c <- ss[i].calls ::
      ss[i].calls[c].waiting.None? && (ss[i].calls[c].outcome.Open? ==> Enabled(ss[i], SendFlush(c)))
  {
    var s := ss[i];
    UnderWayHolds(ss, es, i);
    if !AtRest(s) {
      var _ := NoDeadlock(s);
    } else {
      forall c | c in s.calls
        ensures s.calls[c].waiting.None? && (s.calls[c].outcome.Open? ==> Enabled(s, SendFlush(c)))
      {
        assert CallUnderWay(s, c);
      }
    }
  }
}
