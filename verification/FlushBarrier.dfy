/**
 What a flush guarantees. A flush token travels through a worker's inbox, its hands, the
 encoder's queue and the encoder's hand; wherever it is, everything submitted before the
 flush began is ahead of it. So when the barrier is answered, all of it has been written,
 and a write that failed has been reported by an answer.
 */
module FlushBarrier {
  import opened Numbers
  import opened Wrappers
  import opened Markets
  import opened Buffering
  import opened WriterSystem
  import opened WriterStreams

  /** The ticket was issued to a flush call for this market. */
  predicate Known(s: State, m: Market, k: nat) {
    k < |s.tickets| && s.tickets[k].market == m && s.tickets[k].call in s.calls
  }

  /** How many records of `table` the ticket's call must see written. */
  function Need(s: State, k: nat, table: string): nat {
    if k < |s.tickets| && s.tickets[k].call in s.calls then
      |OfTable(s.calls[s.tickets[k].call].submitted.At(s.tickets[k].market), table)|
    else 0
  }

  function Done(jobs: seq<Job>, m: Market, table: string): nat {
    |JobRecords(jobs, m, table)|
  }

  ghost predicate InboxCovered(s: State, m: Market, table: string) {
    var lane := s.lanes.At(m);
    forall j :: 0 <= j < |lane.inbox| && lane.inbox[j].Flush? ==>
      && Known(s, m, lane.inbox[j].ticket)
      && Need(s, lane.inbox[j].ticket, table)
         <= |Settled(s, m, table)| + |OfTable(Taken(lane.pc), table)| + |OfTable(InboxRecords(lane.inbox[..j]), table)|
  }

  /** The ticket a worker holds while it drains its buffers for a flush. */
  function Held(pc: Pc): Option<nat> {
    if (pc.Rolling? || pc.Handling?) && pc.command.Flush? then Some(pc.command.ticket) else None
  }

  ghost predicate HeldCovered(s: State, m: Market, table: string) {
    var held := Held(s.lanes.At(m).pc);
    held.Some? ==> Known(s, m, held.value) && Need(s, held.value, table) <= |Settled(s, m, table)|
  }

  ghost predicate QueueCovered(s: State, table: string) {
    forall q :: 0 <= q < |s.queue| && s.queue[q].Barrier? ==>
      && Known(s, s.queue[q].market, s.queue[q].ticket)
      && Need(s, s.queue[q].ticket, table)
         <= Done(LogJobs(s.log) + HandJobs(s.hand) + JobsOf(s.queue[..q]), s.queue[q].market, table)
  }

  ghost predicate HandCovered(s: State, table: string) {
    s.hand.Fresh? && s.hand.command.Barrier? ==>
      && Known(s, s.hand.command.market, s.hand.command.ticket)
      && Need(s, s.hand.command.ticket, table) <= Done(LogJobs(s.log), s.hand.command.market, table)
  }

  /** An answer that a worker has not passed on yet. */
  ghost predicate AnsweredOk(s: State, m: Market, table: string) {
    var pc := s.lanes.At(m).pc;
    pc.Answered? ==>
      && Known(s, m, pc.ticket)
      && pc.at < |s.log| && s.log[pc.at] == Answer(m, pc.ticket, pc.ok)
      && Need(s, pc.ticket, table) <= Done(LogJobs(s.log[..pc.at]), m, table)
      && var call := s.calls[s.tickets[pc.ticket].call];
         call.start <= pc.at && (call.waiting == Some(pc.ticket) ==> forall r <- call.replies :: r < pc.at)
  }

  /** The `i`-th answer of a call: Ok, for the `i`-th market, after everything submitted there
      before the call was written. */
  ghost predicate ReplyOk(s: State, call: Call, i: nat, table: string)
    requires i < |call.replies| && i < |FLUSH_ORDER|
  {
    var at, m := call.replies[i], FLUSH_ORDER[i];
    && call.start <= at < |s.log|
    && s.log[at].Answer? && s.log[at].ok && s.log[at].market == m
    && |OfTable(call.submitted.At(m), table)| <= Done(LogJobs(s.log[..at]), m, table)
  }

  ghost predicate CallOk(s: State, c: nat, table: string)
    requires c in s.calls
  {
    var call := s.calls[c];
    && call.stage <= |FLUSH_ORDER|
    && |call.replies| == call.stage
    && call.start <= |s.log|
    && (call.outcome.Succeeded? ==> call.stage == |FLUSH_ORDER|)
    && (forall i :: 0 <= i < |call.replies| ==> ReplyOk(s, call, i, table))
    && (forall i, j :: 0 <= i < j < |call.replies| ==> call.replies[i] < call.replies[j])
    && (call.waiting.Some? ==>
          && call.waiting.value < |s.tickets| && call.stage < |FLUSH_ORDER|
          && s.tickets[call.waiting.value] == Ticket(c, FLUSH_ORDER[call.stage]))
    && (forall m: Market :: call.submitted.At(m) <= s.lanes.At(m).submitted)
  }

  ghost predicate CallsOk(s: State, table: string) {
    forall c <- s.calls :: CallOk(s, c, table)
  }

  // ---------------------------------------------------------------------------------------
  // Small facts

  /** What a ticket stands for never changes. */
  lemma TicketKept(s: State, e: Event, m: Market, k: nat, table: string)
    requires Enabled(s, e) && Known(s, m, k)
    ensures Known(Apply(s, e), m, k) && Need(Apply(s, e), k, table) == Need(s, k, table)
  {
  }

  lemma {:induction false} OfTablePrefix(a: seq<Record>, b: seq<Record>, table: string)
    requires a <= b
    ensures OfTable(a, table) <= OfTable(b, table)
  {
    OfTableConcat(a, b[|a|..], table);
    assert a + b[|a|..] == b;
  }

  lemma LogJobsPrefix(log: seq<Entry>, i: nat)
    requires i <= |log|
    ensures LogJobs(log[..i]) <= LogJobs(log)
    decreases |log|
  {
    if i < |log| {
      LogJobsPrefix(log[..|log| - 1], i);
      assert log[..|log| - 1][..i] == log[..i];
    } else {
      assert log[..i] == log;
    }
  }

  lemma JobRecordsPrefix(a: seq<Job>, b: seq<Job>, m: Market, table: string)
    requires a <= b
    ensures JobRecords(a, m, table) <= JobRecords(b, m, table)
  {
    JobRecordsConcat(a, b[|a|..], m, table);
    assert a + b[|a|..] == b;
  }

  lemma SettledGrows(s: State, e: Event, m: Market, table: string)
    requires Owned(s) && Enabled(s, e)
    ensures |Settled(s, m, table)| <= |Settled(Apply(s, e), m, table)|
  {
    if e.AcceptNext? && e.market == m {
      SettledAccept(s, e, m, table);
    } else {
      SettledSame(s, e, m, table);
    }
  }

  // ---------------------------------------------------------------------------------------
  // Tokens in a worker's inbox and hands

  lemma InboxTake(s: State, e: Event, m: Market, table: string)
    requires Owned(s) && Enabled(s, e) && e.Take? && e.market == m && InboxCovered(s, m, table)
    ensures InboxCovered(Apply(s, e), m, table) && HeldCovered(Apply(s, e), m, table)
  {
    var t, lane := Apply(s, e), s.lanes.At(m);
    var inbox := lane.inbox;
    SettledSame(s, e, m, table);
    assert OfTable([], table) == [];
    if inbox[0].Flush? {
      TicketKept(s, e, m, inbox[0].ticket, table);
      assert inbox[..0] == [];
    }
    forall j | 0 <= j < |inbox| - 1 && inbox[1..][j].Flush?
      ensures Known(t, m, inbox[1..][j].ticket)
      ensures Need(t, inbox[1..][j].ticket, table)
        <= |Settled(t, m, table)| + |OfTable(RecordsOf(inbox[0]), table)|
           + |OfTable(InboxRecords(inbox[1..][..j]), table)|
    {
      TicketKept(s, e, m, inbox[j + 1].ticket, table);
      InboxHead(inbox[..j + 1], table);
      assert inbox[..j + 1][1..] == inbox[1..][..j];
    }
  }

  lemma InboxAccept(s: State, e: Event, m: Market, table: string)
    requires Owned(s) && Enabled(s, e) && e.AcceptNext? && e.market == m && InboxCovered(s, m, table)
    ensures InboxCovered(Apply(s, e), m, table)
  {
    var t, inbox := Apply(s, e), s.lanes.At(m).inbox;
    var records := s.lanes.At(m).pc.command.records;
    SettledAccept(s, e, m, table);
    assert [records[0]] + records[1..] == records;
    OfTableConcat([records[0]], records[1..], table);
    forall j | 0 <= j < |inbox| && inbox[j].Flush?
      ensures Known(t, m, inbox[j].ticket) && Need(t, inbox[j].ticket, table) == Need(s, inbox[j].ticket, table)
    {
      TicketKept(s, e, m, inbox[j].ticket, table);
    }
  }

  lemma InboxFlush(s: State, e: Event, m: Market, table: string)
    requires Owned(s) && Enabled(s, e) && e.SendFlush? && FLUSH_ORDER[s.calls[e.call].stage] == m
    requires InboxCovered(s, m, table) && CallsOk(s, table) && Conserved(s, m, table)
    ensures InboxCovered(Apply(s, e), m, table)
  {
    var t, lane := Apply(s, e), s.lanes.At(m);
    SettledSame(s, e, m, table);
    OfTablePrefix(s.calls[e.call].submitted.At(m), lane.submitted, table);
    var inbox := lane.inbox + [Flush(|s.tickets|)];
    assert t.lanes.At(m).inbox == inbox && t.lanes.At(m).pc == lane.pc;
    forall j | 0 <= j < |inbox| && inbox[j].Flush?
      ensures Known(t, m, inbox[j].ticket)
      ensures Need(t, inbox[j].ticket, table)
        <= |Settled(t, m, table)| + |OfTable(Taken(lane.pc), table)| + |OfTable(InboxRecords(inbox[..j]), table)|
    {
      assert inbox[..j] == lane.inbox[..j];
      if j < |lane.inbox| {
        TicketKept(s, e, m, inbox[j].ticket, table);
      } else {
        assert lane.inbox[..j] == lane.inbox;
      }
    }
  }

  /** What the other events leave of a market's inbox and hands. */
  lemma InboxGrows(s: State, e: Event, m: Market)
    requires Enabled(s, e)
    requires !((e.Take? || e.AcceptNext?) && e.market == m)
    requires !(e.SendFlush? && FLUSH_ORDER[s.calls[e.call].stage] == m)
    ensures var before, after := s.lanes.At(m), Apply(s, e).lanes.At(m);
      && before.inbox <= after.inbox && Taken(after.pc) == Taken(before.pc)
      && forall j :: |before.inbox| <= j < |after.inbox| ==> !after.inbox[j].Flush?
  {
    hide HandOver, Accept, Resume, Wrapped;
  }

  /** The other events leave the tokens of the inbox where they are. */
  lemma InboxStays(s: State, e: Event, m: Market, table: string)
    requires Owned(s) && Enabled(s, e) && InboxCovered(s, m, table)
    requires !((e.Take? || e.AcceptNext?) && e.market == m)
    requires !(e.SendFlush? && FLUSH_ORDER[s.calls[e.call].stage] == m)
    ensures InboxCovered(Apply(s, e), m, table)
  {
    hide Settled, OfTable, Apply, Enabled, Taken;
    var t, lane := Apply(s, e), s.lanes.At(m);
    SettledSame(s, e, m, table);
    InboxGrows(s, e, m);
    var after := t.lanes.At(m);
    forall j | 0 <= j < |after.inbox| && after.inbox[j].Flush?
      ensures j < |lane.inbox| && after.inbox[..j] == lane.inbox[..j]
      ensures Known(t, m, after.inbox[j].ticket)
      ensures Need(t, after.inbox[j].ticket, table) == Need(s, after.inbox[j].ticket, table)
    {
      TicketKept(s, e, m, after.inbox[j].ticket, table);
    }
  }

  lemma InboxKept(s: State, e: Event, m: Market, table: string)
    requires Owned(s) && Enabled(s, e) && InboxCovered(s, m, table) && CallsOk(s, table) && Conserved(s, m, table)
    ensures InboxCovered(Apply(s, e), m, table)
  {
    if e.Take? && e.market == m {
      InboxTake(s, e, m, table);
    } else if e.AcceptNext? && e.market == m {
      InboxAccept(s, e, m, table);
    } else if e.SendFlush? && FLUSH_ORDER[s.calls[e.call].stage] == m {
      InboxFlush(s, e, m, table);
    } else {
      InboxStays(s, e, m, table);
    }
  }

  lemma HeldKept(s: State, e: Event, m: Market, table: string)
    requires Owned(s) && Enabled(s, e) && InboxCovered(s, m, table) && HeldCovered(s, m, table)
    ensures HeldCovered(Apply(s, e), m, table)
  {
    if e.Take? && e.market == m {
      InboxTake(s, e, m, table);
    } else {
      var held := Held(Apply(s, e).lanes.At(m).pc);
      if held.Some? {
        assert Held(s.lanes.At(m).pc) == held;
        TicketKept(s, e, m, held.value, table);
        SettledGrows(s, e, m, table);
      }
    }
  }

  // ---------------------------------------------------------------------------------------
  // Tokens in the encoder's queue and hand

  /** The jobs ahead of the queue's position `q`. */
  function Before(s: State, q: nat): seq<Job>
    requires q <= |s.queue|
  {
    LogJobs(s.log) + HandJobs(s.hand) + JobsOf(s.queue[..q])
  }

  lemma QueueSendBarrier(s: State, e: Event, table: string)
    requires Owned(s) && Enabled(s, e) && e.SendBarrier? && QueueCovered(s, table) && HeldCovered(s, e.market, table)
    ensures QueueCovered(Apply(s, e), table)
  {
    var t := Apply(s, e);
    forall q | 0 <= q < |t.queue| && t.queue[q].Barrier?
      ensures Known(t, t.queue[q].market, t.queue[q].ticket)
      ensures Need(t, t.queue[q].ticket, table) <= Done(Before(t, q), t.queue[q].market, table)
    {
      assert t.queue[..q] == s.queue[..q];
      TicketKept(s, e, t.queue[q].market, t.queue[q].ticket, table);
      if q == |s.queue| {
        assert s.queue[..q] == s.queue;
        assert Settled(s, e.market, table) == JobRecords(AllJobs(s), e.market, table);
      }
    }
  }

  lemma QueueHandOver(s: State, e: Event, table: string)
    requires Enabled(s, e) && e.HandOverTable? && QueueCovered(s, table)
    ensures QueueCovered(Apply(s, e), table)
  {
    var t := Apply(s, e);
    forall q | 0 <= q < |t.queue| && t.queue[q].Barrier?
      ensures Known(t, t.queue[q].market, t.queue[q].ticket)
      ensures Need(t, t.queue[q].ticket, table) <= Done(Before(t, q), t.queue[q].market, table)
    {
      assert q < |s.queue| && t.queue[..q] == s.queue[..q];
      TicketKept(s, e, t.queue[q].market, t.queue[q].ticket, table);
    }
  }

  lemma HandReceive(s: State, e: Event, table: string)
    requires Enabled(s, e) && e.Receive? && QueueCovered(s, table)
    ensures HandCovered(Apply(s, e), table)
  {
    if s.queue[0].Barrier? {
      TicketKept(s, e, s.queue[0].market, s.queue[0].ticket, table);
      assert s.queue[..0] == [];
      assert LogJobs(s.log) + [] + [] == LogJobs(s.log);
    }
  }

  lemma BeforeReceive(s: State, e: Event, q: nat)
    requires Enabled(s, e) && e.Receive? && q + 1 <= |s.queue|
    ensures Before(Apply(s, e), q) == Before(s, q + 1)
  {
    QueueHead(s.queue[..q + 1]);
    assert s.queue[..q + 1][1..] == s.queue[1..][..q];
  }

  lemma QueueReceive(s: State, e: Event, table: string)
    requires Enabled(s, e) && e.Receive? && QueueCovered(s, table)
    ensures QueueCovered(Apply(s, e), table)
  {
    var t := Apply(s, e);
    forall q | 0 <= q < |t.queue| && t.queue[q].Barrier?
      ensures Known(t, t.queue[q].market, t.queue[q].ticket)
      ensures Need(t, t.queue[q].ticket, table) <= Done(Before(t, q), t.queue[q].market, table)
    {
      assert t.queue[q] == s.queue[q + 1];
      TicketKept(s, e, t.queue[q].market, t.queue[q].ticket, table);
      BeforeReceive(s, e, q);
    }
  }

  lemma QueueEncoder(s: State, e: Event, table: string)
    requires Enabled(s, e) && (e.Encode? || e.AnswerBarrier?) && QueueCovered(s, table)
    ensures QueueCovered(Apply(s, e), table)
  {
    var t := Apply(s, e);
    if e.Encode? {
      LogJobsAppend(s.log, Wrote(s.hand.command.job, e.ok));
    } else {
      LogJobsAppend(s.log, Answer(s.hand.command.market, s.hand.command.ticket, !s.pendingError));
    }
    forall q | 0 <= q < |t.queue| && t.queue[q].Barrier?
      ensures Known(t, t.queue[q].market, t.queue[q].ticket)
      ensures Need(t, t.queue[q].ticket, table) <= Done(Before(t, q), t.queue[q].market, table)
    {
      TicketKept(s, e, t.queue[q].market, t.queue[q].ticket, table);
      assert Before(s, q) == Before(t, q);
    }
  }

  lemma QueueStays(s: State, e: Event, table: string)
    requires Enabled(s, e) && QueueCovered(s, table)
    requires !e.SendBarrier? && !e.HandOverTable? && !e.Receive? && !e.Encode? && !e.AnswerBarrier?
    ensures QueueCovered(Apply(s, e), table)
  {
    var t := Apply(s, e);
    assert t.queue == s.queue && t.log == s.log && HandJobs(t.hand) == HandJobs(s.hand);
    forall q | 0 <= q < |s.queue| && s.queue[q].Barrier?
      ensures Known(t, s.queue[q].market, s.queue[q].ticket)
      ensures Need(t, s.queue[q].ticket, table) == Need(s, s.queue[q].ticket, table)
    {
      TicketKept(s, e, s.queue[q].market, s.queue[q].ticket, table);
    }
  }

  lemma QueueKept(s: State, e: Event, table: string)
    requires Owned(s) && Enabled(s, e) && QueueCovered(s, table) && forall m: Market :: HeldCovered(s, m, table)
    ensures QueueCovered(Apply(s, e), table)
  {
    match e
    case SendBarrier(m) => assert HeldCovered(s, m, table); QueueSendBarrier(s, e, table);
    case HandOverTable(_, _) => QueueHandOver(s, e, table);
    case Receive => QueueReceive(s, e, table);
    case Encode(_) => QueueEncoder(s, e, table);
    case AnswerBarrier => QueueEncoder(s, e, table);
    case _ => QueueStays(s, e, table);
  }

  lemma HandKept(s: State, e: Event, table: string)
    requires Enabled(s, e) && QueueCovered(s, table) && HandCovered(s, table)
    ensures HandCovered(Apply(s, e), table)
  {
    if e.Receive? {
      HandReceive(s, e, table);
    } else if Apply(s, e).hand.Fresh? && Apply(s, e).hand.command.Barrier? {
      assert Apply(s, e).hand == s.hand && Apply(s, e).log == s.log;
      TicketKept(s, e, s.hand.command.market, s.hand.command.ticket, table);
    }
  }

  // ---------------------------------------------------------------------------------------
  // Answers on their way back

  lemma LogGrows(s: State, e: Event)
    requires Enabled(s, e)
    ensures s.log <= Apply(s, e).log
  {
  }

  lemma AnsweredNew(s: State, e: Event, m: Market, table: string)
    requires Enabled(s, e) && e.AnswerBarrier? && HandCovered(s, table) && CallsOk(s, table)
    requires s.hand.command.market == m && s.lanes.At(m).pc == Awaiting(s.hand.command.ticket)
    ensures AnsweredOk(Apply(s, e), m, table)
  {
    var t, k := Apply(s, e), s.hand.command.ticket;
    assert t.log[..|s.log|] == s.log;
    var c := s.tickets[k].call;
    assert CallOk(s, c, table);
    var call := s.calls[c];
    forall r | r in call.replies
      ensures r < |s.log|
    {
      var i :| 0 <= i < |call.replies| && call.replies[i] == r;
      assert ReplyOk(s, call, i, table);
    }
  }

  /** A call that still waits on a ticket has not moved on. */
  lemma AnsweredCall(s: State, e: Event, k: nat)
    requires Enabled(s, e) && k < |s.tickets| && s.tickets[k].call in s.calls
    ensures var c := s.tickets[k].call;
      && Apply(s, e).tickets[k].call == c && c in Apply(s, e).calls
      && Apply(s, e).calls[c].start == s.calls[c].start
      && (Apply(s, e).calls[c].waiting == Some(k) ==>
            Apply(s, e).calls[c].replies == s.calls[c].replies && s.calls[c].waiting == Some(k))
  {
  }

  lemma AnsweredKept(s: State, e: Event, m: Market, table: string)
    requires Enabled(s, e) && AnsweredOk(s, m, table) && HandCovered(s, table) && CallsOk(s, table)
    ensures AnsweredOk(Apply(s, e), m, table)
  {
    var t := Apply(s, e);
    var pc := t.lanes.At(m).pc;
    if pc.Answered? {
      if s.lanes.At(m).pc != pc {
        AnsweredNew(s, e, m, table);
      } else {
        TicketKept(s, e, m, pc.ticket, table);
        LogGrows(s, e);
        assert t.log[..pc.at] == s.log[..pc.at];
        AnsweredCall(s, e, pc.ticket);
      }
    }
  }

  // ---------------------------------------------------------------------------------------
  // Flush calls

  /** A reply stays what it was while the log grows. */
  lemma ReplyKept(s: State, e: Event, call: Call, i: nat, table: string)
    requires Enabled(s, e) && i < |call.replies| && i < |FLUSH_ORDER| && ReplyOk(s, call, i, table)
    ensures ReplyOk(Apply(s, e), call, i, table)
  {
    LogGrows(s, e);
    assert Apply(s, e).log[..call.replies[i]] == s.log[..call.replies[i]];
  }

  lemma SubmittedGrows(s: State, e: Event, m: Market)
    requires Enabled(s, e)
    ensures s.lanes.At(m).submitted <= Apply(s, e).lanes.At(m).submitted
  {
  }

  /** A call whose record the event does not touch. */
  lemma CallStays(s: State, e: Event, c: nat, table: string)
    requires Enabled(s, e) && c in s.calls && CallOk(s, c, table)
    requires c in Apply(s, e).calls && Apply(s, e).calls[c] == s.calls[c]
    ensures CallOk(Apply(s, e), c, table)
  {
    var t, call := Apply(s, e), s.calls[c];
    LogGrows(s, e);
    forall i | 0 <= i < |call.replies|
      ensures ReplyOk(t, call, i, table)
    {
      ReplyKept(s, e, call, i, table);
    }
    forall m: Market
      ensures call.submitted.At(m) <= t.lanes.At(m).submitted
    {
      SubmittedGrows(s, e, m);
    }
    assert s.tickets <= t.tickets;
  }

  lemma CallReply(s: State, e: Event, table: string)
    requires Enabled(s, e) && e.Reply? && AnsweredOk(s, e.market, table)
    requires CallOk(s, s.tickets[s.lanes.At(e.market).pc.ticket].call, table)
    ensures CallOk(Apply(s, e), s.tickets[s.lanes.At(e.market).pc.ticket].call, table)
  {
    var t := Apply(s, e);
    var Answered(k, ok, at) := s.lanes.At(e.market).pc;
    var c := s.tickets[k].call;
    var before, after := s.calls[c], t.calls[c];
    if before.waiting != Some(k) {
      CallStays(s, e, c, table);
    } else {
      assert t.log == s.log && t.tickets == s.tickets;
      forall i | 0 <= i < |after.replies|
        ensures ReplyOk(t, after, i, table)
      {
        if i < |before.replies| {
          assert ReplyOk(s, before, i, table);
        }
      }
      assert forall i :: 0 <= i < |before.replies| ==> before.replies[i] in before.replies;
      forall m: Market
        ensures after.submitted.At(m) <= t.lanes.At(m).submitted
      {
        SubmittedGrows(s, e, m);
      }
    }
  }

  lemma CallSend(s: State, e: Event, table: string)
    requires Enabled(s, e) && e.SendFlush? && CallOk(s, e.call, table)
    ensures CallOk(Apply(s, e), e.call, table)
  {
    var t, call := Apply(s, e), s.calls[e.call];
    forall i | 0 <= i < |call.replies|
      ensures ReplyOk(t, t.calls[e.call], i, table)
    {
      assert ReplyOk(s, call, i, table);
    }
    forall m: Market
      ensures call.submitted.At(m) <= t.lanes.At(m).submitted
    {
      SubmittedGrows(s, e, m);
    }
  }

  lemma CallsKept(s: State, e: Event, table: string)
    requires Enabled(s, e) && CallsOk(s, table) && forall m: Market :: AnsweredOk(s, m, table)
    ensures CallsOk(Apply(s, e), table)
  {
    var t := Apply(s, e);
    forall c | c in t.calls
      ensures CallOk(t, c, table)
    {
      if c !in s.calls {
        forall m: Market
          ensures t.calls[c].submitted.At(m) == t.lanes.At(m).submitted
        {
        }
      } else {
        assert CallOk(s, c, table);
        if t.calls[c] == s.calls[c] {
          CallStays(s, e, c, table);
        } else if e.SendFlush? {
          CallSend(s, e, table);
        } else {
          assert AnsweredOk(s, e.market, table);
          CallReply(s, e, table);
        }
      }
    }
  }

  // ---------------------------------------------------------------------------------------
  // Every run

  ghost predicate Inv(s: State, table: string) {
    && Owned(s)
    && (forall m: Market :: Conserved(s, m, table))
    && (forall m: Market :: InboxCovered(s, m, table))
    && (forall m: Market :: HeldCovered(s, m, table))
    && QueueCovered(s, table) && HandCovered(s, table)
    && (forall m: Market :: AnsweredOk(s, m, table))
    && CallsOk(s, table)
  }

  lemma InvKept(s: State, e: Event, table: string)
    requires Inv(s, table) && Enabled(s, e)
    ensures Inv(Apply(s, e), table)
  {
    OwnedKept(s, e);
    forall m: Market
      ensures Conserved(Apply(s, e), m, table) && InboxCovered(Apply(s, e), m, table)
      ensures HeldCovered(Apply(s, e), m, table) && AnsweredOk(Apply(s, e), m, table)
    {
      ConservedKept(s, e, m, table);
      InboxKept(s, e, m, table);
      HeldKept(s, e, m, table);
      AnsweredKept(s, e, m, table);
    }
    QueueKept(s, e, table);
    HandKept(s, e, table);
    CallsKept(s, e, table);
  }

  lemma {:induction false} InvHolds(ss: seq<State>, es: seq<Event>, i: nat, table: string)
    requires IsRun(ss, es) && i < |ss|
    ensures Inv(ss[i], table)
  {
    if i > 0 {
      assert StepAt(ss, es, i - 1);
      InvHolds(ss, es, i - 1, table);
      InvKept(ss[i - 1], es[i - 1], table);
    }
  }

  // ---------------------------------------------------------------------------------------
  // The guarantee

  /** A failed write before an answer is reported by the first answer after it. */
  lemma {:induction false} FailureReported(log: seq<Entry>, j: nat, k: nat)
    requires AnswersHonest(log) && j < k < |log| && log[j].Wrote? && !log[j].ok && log[k].Answer?
    ensures exists b :: j < b <= k && log[b].Answer? && !log[b].ok
    decreases k
  {
    FailingMeans(log[..k]);
    if !log[k].ok {
    } else {
      assert !Failing(log[..k]);
      assert log[..k][j].Wrote? && !log[..k][j].ok;
      var h :| j < h < k && !log[..k][h].Wrote?;
      assert log[h].Answer?;
      FailureReported(log, j, h);
    }
  }

  /** An answer between entry `j` and entry `before` was an error. */
  ghost predicate Reported(log: seq<Entry>, j: nat, before: nat) {
    exists b :: j < b < before && b < |log| && log[b].Answer? && !log[b].ok
  }

  /** Every failed write up to `at` was reported by an answer before `before`. */
  ghost predicate AllReported(log: seq<Entry>, at: nat, before: nat)
    requires at <= |log|
  {
    forall j :: 0 <= j < at && log[j].Wrote? && !log[j].ok ==> Reported(log, j, before)
  }

  /** No answer between `start` and `at` was an error. */
  predicate Undisturbed(log: seq<Entry>, start: nat, at: nat)
    requires at <= |log|
  {
    forall b :: start <= b < at && log[b].Answer? ==> log[b].ok
  }

  /** Up to an answer of Ok, every failed write was reported. */
  lemma OkMeansReported(log: seq<Entry>, at: nat)
    requires AnswersHonest(log) && at < |log| && log[at].Answer? && log[at].ok
    ensures AllReported(log, at, at)
  {
    forall j | 0 <= j < at && log[j].Wrote? && !log[j].ok
      ensures Reported(log, j, at)
    {
      FailureReported(log, j, at);
    }
  }

  /** Behind an error there is a failed write that no answer before it reported. */
  lemma Unreported(log: seq<Entry>, b: nat, before: nat) returns (j: nat)
    requires AnswersHonest(log) && before <= b < |log| && log[b].Answer? && !log[b].ok
    ensures j < b && log[j].Wrote? && !log[j].ok && !Reported(log, j, before)
  {
    FailingMeans(log[..b]);
    j :| 0 <= j < b && log[..b][j].Wrote? && !log[..b][j].ok && forall k :: j < k < b ==> log[..b][k].Wrote?;
    forall k | j < k < b ensures log[k].Wrote? {
      assert log[..b][k].Wrote?;
    }
  }

  /** And before `start` exactly when no answer in between was an error: such an answer reports a
      write that no earlier answer has reported. */
  lemma ReportedExactly(log: seq<Entry>, start: nat, at: nat)
    requires AnswersHonest(log) && start <= at < |log| && log[at].Answer? && log[at].ok
    ensures AllReported(log, at, start) <==> Undisturbed(log, start, at)
  {
    OkMeansReported(log, at);
    if AllReported(log, at, start) {
      forall b | start <= b < at && log[b].Answer?
        ensures log[b].ok
      {
        if !log[b].ok {
          var _ := Unreported(log, b, start);
        }
      }
    }
    if Undisturbed(log, start, at) {
      forall j | 0 <= j < at && log[j].Wrote? && !log[j].ok
        ensures Reported(log, j, start)
      {
        assert Reported(log, j, at);
      }
    }
  }

  /** What was submitted before the call is a prefix of what was written before its answer. */
  lemma WrittenPrefix(s: State, call: Call, stage: nat, table: string)
    requires stage < |call.replies| && stage < |FLUSH_ORDER| && ReplyOk(s, call, stage, table)
    requires Conserved(s, FLUSH_ORDER[stage], table)
    requires call.submitted.At(FLUSH_ORDER[stage]) <= s.lanes.At(FLUSH_ORDER[stage]).submitted
    ensures OfTable(call.submitted.At(FLUSH_ORDER[stage]), table)
         <= JobRecords(LogJobs(s.log[..call.replies[stage]]), FLUSH_ORDER[stage], table)
  {
    var m, at := FLUSH_ORDER[stage], call.replies[stage];
    OfTablePrefix(call.submitted.At(m), s.lanes.At(m).submitted, table);
    LogJobsPrefix(s.log, at);
    assert LogJobs(s.log) <= AllJobs(s);
    JobRecordsPrefix(LogJobs(s.log[..at]), AllJobs(s), m, table);
  }

  /** A flush that returned Ok: everything any market had been given before the call is written,
      and every failed write among it was reported by an answer. The answers given before the
      call began report all of them if and only if no other flush was answered with an error
      while this one was under way. */
  lemma FlushGuarantee(ss: seq<State>, es: seq<Event>, i: nat, c: nat, stage: nat, table: string)
    requires IsRun(ss, es) && i < |ss| && c in ss[i].calls
    requires ss[i].calls[c].outcome.Succeeded? && stage < |FLUSH_ORDER|
    ensures var s, call, m := ss[i], ss[i].calls[c], FLUSH_ORDER[stage];
      && stage < |call.replies| && call.start <= call.replies[stage] < |s.log|
      && OfTable(call.submitted.At(m), table) <= JobRecords(LogJobs(s.log[..call.replies[stage]]), m, table)
      && AllReported(s.log, call.replies[stage], call.replies[stage])
      && (AllReported(s.log, call.replies[stage], call.start) <==> Undisturbed(s.log, call.start, call.replies[stage]))
  {
    var s := ss[i];
    InvHolds(ss, es, i, table);
    AnswerInvHolds(ss, es, i);
    var call := s.calls[c];
    assert CallOk(s, c, table);
    assert ReplyOk(s, call, stage, table);
    WrittenPrefix(s, call, stage, table);
    OkMeansReported(s.log, call.replies[stage]);
    ReportedExactly(s.log, call.start, call.replies[stage]);
  }

  /** Between the call's beginning and its last answer, no barrier but its own was answered. */
  ghost predicate Alone(s: State, c: nat)
    requires c in s.calls
  {
    var call := s.calls[c];
    forall k :: call.start <= k < |s.log| && s.log[k].Answer? && (exists r <- call.replies :: k <= r) ==>
      k in call.replies
  }

  lemma ReplyIsOk(s: State, c: nat, b: nat, table: string)
    requires c in s.calls && CallOk(s, c, table) && b in s.calls[c].replies
    ensures b < |s.log| && s.log[b].Answer? && s.log[b].ok
  {
    var call := s.calls[c];
    var h :| 0 <= h < |call.replies| && call.replies[h] == b;
    assert ReplyOk(s, call, h, table);
  }

  /** A flush that overlaps no other is undisturbed. */
  lemma AloneIsUndisturbed(ss: seq<State>, es: seq<Event>, i: nat, c: nat, stage: nat)
    requires IsRun(ss, es) && i < |ss| && c in ss[i].calls && Alone(ss[i], c)
    requires ss[i].calls[c].outcome.Succeeded? && stage < |FLUSH_ORDER|
    ensures stage < |ss[i].calls[c].replies| && ss[i].calls[c].replies[stage] < |ss[i].log|
    ensures Undisturbed(ss[i].log, ss[i].calls[c].start, ss[i].calls[c].replies[stage])
  {
    var s, call := ss[i], ss[i].calls[c];
    InvHolds(ss, es, i, "");
    assert CallOk(s, c, "");
    assert ReplyOk(s, call, stage, "");
    var at := call.replies[stage];
    assert at in call.replies;
    forall b | call.start <= b < at && s.log[b].Answer?
      ensures s.log[b].ok
    {
      ReplyIsOk(s, c, b, "");
    }
  }
}
