/**
 Three writer workers, the single encoder they share through one FIFO queue, and the callers
 that submit records and flushes, as interleaved atomic steps. A worker may hand over any
 buffer while it handles a command, which covers every buffer size, map order and timer.
 */
module WriterSystem {
  import opened Numbers
  import opened Wrappers
  import opened Markets
  import opened Buffering

  datatype PerMarket<T> = PerMarket(spot: T, usdm: T, coinm: T) {
    function At(m: Market): T {
      match m
      case Spot => spot
      case Usdm => usdm
      case Coinm => coinm
    }

    function With(m: Market, value: T): (r: PerMarket<T>)
      ensures r.At(m) == value && forall other: Market :: other != m ==> r.At(other) == At(other)
    {
      match m
      case Spot => this.(spot := value)
      case Usdm => this.(usdm := value)
      case Coinm => this.(coinm := value)
    }
  }

  /** Where a worker is in its loop. `Rolling` drains before the hour moves on. */
  datatype Pc =
    | Idle
    | Rolling(command: Command, hour: nat)
    | Handling(command: Command)
    | Awaiting(ticket: nat)
    | Answered(ticket: nat, ok: bool, at: nat)

  /** What the encoder holds: a command just received, or a job it has written or discounted. */
  datatype Hand = Empty | Fresh(command: EncodeCommand) | Written(job: Job, ok: bool) | Discounted(job: Job, ok: bool)

  /** What the encoder has done, in order: `ok` writes published a segment. */
  datatype Entry = Wrote(job: Job, ok: bool) | Answer(market: Market, ticket: nat, ok: bool)

  datatype Outcome = Open | Succeeded | Failed

  /** A `Writer::flush` call: how many markets have answered, the reply channel it waits on,
      what had been submitted and how long the log was when it began, and its answers' places
      in the log. */
  datatype Call = Call(
    stage: nat,
    waiting: Option<nat>,
    submitted: PerMarket<seq<Record>>,
    start: nat,
    replies: seq<nat>,
    outcome: Outcome)

  datatype Ticket = Ticket(call: nat, market: Market)

  /** One market: its worker, where the worker is, its inbox, and everything submitted so far. */
  datatype Lane = Lane(worker: Worker, pc: Pc, inbox: seq<Command>, submitted: seq<Record>)

  datatype State = State(
    lanes: PerMarket<Lane>,
    queue: seq<EncodeCommand>,
    hand: Hand,
    pendingError: bool,
    gauge: nat,
    written: nat,
    log: seq<Entry>,
    calls: map<nat, Call>,
    tickets: seq<Ticket>)

  const FLUSH_ORDER := [Spot, Usdm, Coinm]

  datatype Event =
    | Submit(market: Market, records: seq<Record>)
    | SendTick(market: Market)
    | Take(market: Market, clock: nat)
    | Roll(market: Market)
    | HandOverTable(market: Market, table: string)
    | AcceptNext(market: Market, now: int)
    | Finish(market: Market)
    | SendBarrier(market: Market)
    | Receive
    | Encode(ok: bool)
    | Discount
    | Settle
    | AnswerBarrier
    | Reply(market: Market)
    | BeginFlush(call: nat)
    | SendFlush(call: nat)

  predicate LaneEnabled(lane: Lane, e: Event) {
    match e
    case Take(_, _) => lane.pc.Idle? && lane.inbox != []
    case Roll(_) => lane.pc.Rolling? && lane.worker.tables == map[]
    case HandOverTable(_, table) => (lane.pc.Rolling? || lane.pc.Handling?) && table in lane.worker.tables
    case AcceptNext(_, _) => lane.pc.Handling? && lane.pc.command.Records? && lane.pc.command.records != []
    case Finish(_) => lane.pc.Handling? && !lane.pc.command.Flush? && RecordsOf(lane.pc.command) == []
    case SendBarrier(_) => lane.pc.Handling? && lane.pc.command.Flush? && lane.worker.tables == map[]
    case Reply(_) => lane.pc.Answered?
    case _ => true
  }

  /** The event belongs to one market. */
  predicate OfLane(e: Event) {
    || e.Submit? || e.SendTick? || e.Take? || e.Roll? || e.HandOverTable? || e.AcceptNext? || e.Finish?
    || e.SendBarrier? || e.Reply?
  }

  predicate Enabled(s: State, e: Event) {
    if OfLane(e) then LaneEnabled(s.lanes.At(e.market), e)
    else
      match e
      case Receive => s.hand.Empty? && s.queue != []
      case Encode(_) => s.hand.Fresh? && s.hand.command.Write?
      case Discount => s.hand.Written?
      case Settle => s.hand.Discounted?
      case AnswerBarrier => s.hand.Fresh? && s.hand.command.Barrier?
      case BeginFlush(c) => c !in s.calls
      case SendFlush(c) =>
        c in s.calls && s.calls[c].outcome.Open? && s.calls[c].waiting.None? && s.calls[c].stage < |FLUSH_ORDER|
      case _ => false
  }

  function Writes(jobs: seq<Job>): seq<EncodeCommand> {
    seq(|jobs|, i requires 0 <= i < |jobs| => Write(jobs[i]))
  }

  /** The caller takes the answer that arrives on the channel it waits on. */
  function Resume(call: Call, ticket: nat, ok: bool, at: nat): Call {
    if call.waiting != Some(ticket) then call
    else if !ok then call.(waiting := None, outcome := Failed)
    else
      var stage := call.stage + 1;
      call.(stage := stage, waiting := None, replies := call.replies + [at],
            outcome := if stage == |FLUSH_ORDER| then Succeeded else Open)
  }

  /** What the event does to its own market. */
  function Advance(lane: Lane, e: Event): Lane
    requires LaneEnabled(lane, e)
  {
    match e
    case Submit(_, records) => lane.(inbox := lane.inbox + [Records(records)], submitted := lane.submitted + records)
    case SendTick(_) => lane.(inbox := lane.inbox + [Tick])
    case Take(_, clock) =>
      var command, hour := lane.inbox[0], FloorHour(clock);
      lane.(inbox := lane.inbox[1..],
            pc := if hour > lane.worker.hour then Rolling(command, hour) else Handling(command))
    case Roll(_) => lane.(worker := lane.worker.(hour := lane.pc.hour), pc := Handling(lane.pc.command))
    case HandOverTable(_, table) => lane.(worker := HandOver(lane.worker, table).0)
    case AcceptNext(_, now) =>
      var records := lane.pc.command.records;
      lane.(worker := Accept(lane.worker, records[0], now), pc := Handling(Records(records[1..])))
    case Finish(_) => lane.(pc := Idle)
    case SendBarrier(_) => lane.(pc := Awaiting(lane.pc.command.ticket))
    case Reply(_) => lane.(pc := Idle)
    case _ => lane
  }

  /** What the event of a market does to what the markets share. */
  function Share(s: State, lane: Lane, e: Event): State
    requires LaneEnabled(lane, e)
  {
    match e
    case HandOverTable(_, table) => s.(queue := s.queue + Writes(HandOver(lane.worker, table).1))
    case AcceptNext(_, _) => s.(gauge := Wrapped(s.gauge + lane.pc.command.records[0].weight))
    case SendBarrier(m) => s.(queue := s.queue + [Barrier(m, lane.pc.command.ticket)])
    case Reply(_) =>
      var Answered(ticket, ok, at) := lane.pc;
      if ticket < |s.tickets| && s.tickets[ticket].call in s.calls then
        var c := s.tickets[ticket].call;
        s.(calls := s.calls[c := Resume(s.calls[c], ticket, ok, at)])
      else s
    case _ => s
  }

  function Submitted(s: State): PerMarket<seq<Record>> {
    PerMarket(s.lanes.spot.submitted, s.lanes.usdm.submitted, s.lanes.coinm.submitted)
  }

  function Apply(s: State, e: Event): State
    requires Enabled(s, e)
  {
    if OfLane(e) then
      var lane := s.lanes.At(e.market);
      Share(s, lane, e).(lanes := s.lanes.With(e.market, Advance(lane, e)))
    else
      match e
      case Receive => s.(hand := Fresh(s.queue[0]), queue := s.queue[1..])
      case Encode(ok) =>
        s.(hand := Written(s.hand.command.job, ok), log := s.log + [Wrote(s.hand.command.job, ok)])
      case Discount =>
        s.(hand := Discounted(s.hand.job, s.hand.ok), gauge := Wrapped(s.gauge - s.hand.job.bytes))
      case Settle =>
        if s.hand.ok then s.(hand := Empty, written := s.written + |s.hand.job.records|)
        else s.(hand := Empty, pendingError := true)
      case AnswerBarrier =>
        var Barrier(m, ticket) := s.hand.command;
        var lane := s.lanes.At(m);
        var answered :=
          if lane.pc == Awaiting(ticket) then lane.(pc := Answered(ticket, !s.pendingError, |s.log|)) else lane;
        s.(hand := Empty, pendingError := false, log := s.log + [Answer(m, ticket, !s.pendingError)],
           lanes := s.lanes.With(m, answered))
      case BeginFlush(c) =>
        s.(calls := s.calls[c := Call(0, None, Submitted(s), |s.log|, [], Open)])
      case SendFlush(c) =>
        var m, ticket := FLUSH_ORDER[s.calls[c].stage], |s.tickets|;
        var lane := s.lanes.At(m);
        s.(lanes := s.lanes.With(m, lane.(inbox := lane.inbox + [Flush(ticket)])),
           tickets := s.tickets + [Ticket(c, m)],
           calls := s.calls[c := s.calls[c].(waiting := Some(ticket))])
  }

  predicate Initial(s: State) {
    && (forall m: Market ::
          var lane := s.lanes.At(m);
          && lane.worker.market == m && lane.worker.tables == map[] && lane.worker.total == 0
          && lane.pc.Idle? && lane.inbox == [] && lane.submitted == [])
    && s.queue == [] && s.hand.Empty? && !s.pendingError && s.gauge == 0 && s.written == 0
    && s.log == [] && s.calls == map[] && s.tickets == []
  }

  /** Event `i` was possible and led to the next state. */
  predicate StepAt(ss: seq<State>, es: seq<Event>, i: nat)
    requires |ss| == |es| + 1 && i < |es|
  {
    Enabled(ss[i], es[i]) && ss[i + 1] == Apply(ss[i], es[i])
  }

  ghost predicate IsRun(ss: seq<State>, es: seq<Event>) {
    && |ss| == |es| + 1
    && Initial(ss[0])
    && forall i :: 0 <= i < |es| ==> StepAt(ss, es, i)
  }

  // ---------------------------------------------------------------------------------------
  // What the encoder's answers mean

  /** A write has failed since the last answer. */
  predicate Failing(log: seq<Entry>) {
    if log == [] then false
    else
      match log[|log| - 1]
      case Answer(_, _, _) => false
      case Wrote(_, ok) => !ok || Failing(log[..|log| - 1])
  }

  /** The entries whose outcome the encoder has taken note of: all but the job in its hand. */
  function Noted(s: State): seq<Entry> {
    if s.hand.Written? || s.hand.Discounted? then (if s.log == [] then [] else s.log[..|s.log| - 1]) else s.log
  }

  ghost predicate AnswersHonest(log: seq<Entry>) {
    forall k :: 0 <= k < |log| && log[k].Answer? ==> (log[k].ok <==> !Failing(log[..k]))
  }

  ghost predicate AnswerInv(s: State) {
    && (s.hand.Written? || s.hand.Discounted? ==> s.log != [] && s.log[|s.log| - 1] == Wrote(s.hand.job, s.hand.ok))
    && s.pendingError == Failing(Noted(s))
    && AnswersHonest(s.log)
  }

  lemma AnswersAppend(log: seq<Entry>, entry: Entry)
    requires AnswersHonest(log) && (entry.Answer? ==> (entry.ok <==> !Failing(log)))
    ensures AnswersHonest(log + [entry])
  {
    var after := log + [entry];
    forall k | 0 <= k < |after| && after[k].Answer?
      ensures after[k].ok <==> !Failing(after[..k])
    {
      assert after[..k] == log[..k];
      assert k == |log| ==> log[..k] == log;
    }
  }

  lemma AnswerInvKept(s: State, e: Event)
    requires AnswerInv(s) && Enabled(s, e)
    ensures AnswerInv(Apply(s, e))
  {
    match e
    case Encode(ok) =>
      AnswersAppend(s.log, Wrote(s.hand.command.job, ok));
      assert Noted(Apply(s, e)) == s.log;
    case AnswerBarrier =>
      AnswersAppend(s.log, Answer(s.hand.command.market, s.hand.command.ticket, !s.pendingError));
    case Settle =>
      assert s.log == Noted(s) + [Wrote(s.hand.job, s.hand.ok)];
    case _ =>
  }

  lemma {:induction false} AnswerInvHolds(ss: seq<State>, es: seq<Event>, i: nat)
    requires IsRun(ss, es) && i < |ss|
    ensures AnswerInv(ss[i])
  {
    if i > 0 {
      assert StepAt(ss, es, i - 1);
      AnswerInvHolds(ss, es, i - 1);
      AnswerInvKept(ss[i - 1], es[i - 1]);
    }
  }

  /** The declared meaning of `Failing`: some write after the last answer did not succeed. */
  lemma {:induction false} FailingMeans(log: seq<Entry>)
    ensures Failing(log) <==>
      exists j :: 0 <= j < |log| && log[j].Wrote? && !log[j].ok && forall k :: j < k < |log| ==> log[k].Wrote?
  {
    if log != [] {
      var n := |log| - 1;
      FailingMeans(log[..n]);
      if log[n].Wrote? {
        if Failing(log[..n]) {
          var j :| 0 <= j < n && log[..n][j].Wrote? && !log[..n][j].ok && forall k :: j < k < n ==> log[..n][k].Wrote?;
          assert log[j].Wrote? && !log[j].ok;
          assert forall k :: j < k < |log| ==> log[k].Wrote? by {
            forall k | j < k < |log| ensures log[k].Wrote? { assert k < n ==> log[..n][k].Wrote?; }
          }
        }
        if j :| 0 <= j < |log| && log[j].Wrote? && !log[j].ok && forall k :: j < k < |log| ==> log[k].Wrote? {
          if j < n {
            assert log[..n][j].Wrote? && !log[..n][j].ok;
            assert forall k :: j < k < n ==> log[..n][k].Wrote?;
          }
        }
      }
    }
  }

  /** In every run, a barrier is answered Ok exactly when every write since the previous
      answer succeeded. */
  lemma BarrierAnswer(ss: seq<State>, es: seq<Event>, i: nat, k: nat)
    requires IsRun(ss, es) && i < |ss| && k < |ss[i].log| && ss[i].log[k].Answer?
    ensures ss[i].log[k].ok <==>
      !exists j :: 0 <= j < k && ss[i].log[j].Wrote? && !ss[i].log[j].ok
                   && forall h :: j < h < k ==> ss[i].log[h].Wrote?
  {
    AnswerInvHolds(ss, es, i);
    var log := ss[i].log;
    FailingMeans(log[..k]);
    if j :| 0 <= j < k && log[j].Wrote? && !log[j].ok && forall h :: j < h < k ==> log[h].Wrote? {
      assert log[..k][j].Wrote? && !log[..k][j].ok;
      assert forall h :: j < h < k ==> log[..k][h].Wrote?;
    }
    if j :| 0 <= j < k && log[..k][j].Wrote? && !log[..k][j].ok && forall h :: j < h < k ==> log[..k][h].Wrote? {
      assert log[j].Wrote? && !log[j].ok;
      assert forall h :: j < h < k ==> log[h].Wrote? by {
        forall h | j < h < k ensures log[h].Wrote? { assert log[..k][h].Wrote?; }
      }
    }
  }
}
