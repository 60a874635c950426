/**
 Every answer of the encoder reaches the flush that asked for it: an error makes that flush fail,
 and a flush fails for no other reason.
 */
module FlushAnswers {
  import opened Buffering
  import opened Markets
  import opened Numbers
  import opened WriterProgress
  import opened WriterSystem
  import opened Wrappers

  // ---------------------------------------------------------------------------------------
  // Tokens are carried once

  /** The token in the worker's hands. */
  predicate InHands(pc: Pc, k: nat) {
    || ((pc.Rolling? || pc.Handling?) && pc.command == Flush(k))
    || pc == Awaiting(k)
    || (pc.Answered? && pc.ticket == k)
  }

  /** Tokens are taken in the order in which they were sent. */
  ghost predicate TokensOrdered(lane: Lane, n: nat) {
    && (forall j :: 0 <= j < |lane.inbox| && lane.inbox[j].Flush? ==> lane.inbox[j].ticket < n)
    && (forall i, j :: 0 <= i < j < |lane.inbox| && lane.inbox[i].Flush? && lane.inbox[j].Flush? ==>
          lane.inbox[i].ticket < lane.inbox[j].ticket)
    && (forall k: nat, j :: InHands(lane.pc, k) && 0 <= j < |lane.inbox| && lane.inbox[j].Flush? ==>
          k < lane.inbox[j].ticket)
  }

  /** A carried token stands for a flush that waits for it. */
  ghost predicate Awaited(s: State, m: Market) {
    forall k: nat :: Carried(s.lanes.At(m), k) ==>
      && k < |s.tickets| && s.tickets[k].market == m && s.tickets[k].call in s.calls
      && s.calls[s.tickets[k].call].waiting == Some(k)
  }

  /** A barrier on its way is one that its worker awaits. */
  ghost predicate BarriersAwaited(s: State) {
    && (forall q :: 0 <= q < |s.queue| && s.queue[q].Barrier? ==>
          s.lanes.At(s.queue[q].market).pc == Awaiting(s.queue[q].ticket))
    && (s.hand.Fresh? && s.hand.command.Barrier? ==>
          s.lanes.At(s.hand.command.market).pc == Awaiting(s.hand.command.ticket))
    && (forall p, q :: 0 <= p < q < |s.queue| && s.queue[p].Barrier? && s.queue[q].Barrier? ==>
          s.queue[p].market != s.queue[q].market)
    && (forall q :: s.hand.Fresh? && s.hand.command.Barrier? && 0 <= q < |s.queue| && s.queue[q].Barrier? ==>
          s.hand.command.market != s.queue[q].market)
  }

  /** What an event does to a market's inbox. */
  lemma InboxStep(s: State, e: Event, m: Market)
    requires Enabled(s, e)
    ensures var before, after := s.lanes.At(m).inbox, Apply(s, e).lanes.At(m).inbox;
      if e.Take? && e.market == m then before != [] && after == before[1..]
      else if e.SendFlush? && FLUSH_ORDER[s.calls[e.call].stage] == m then
        after == before + [Flush(|s.tickets|)] && |Apply(s, e).tickets| == |s.tickets| + 1
      else after == before || (|after| == |before| + 1 && after[..|before|] == before && !after[|before|].Flush?)
    ensures |s.tickets| <= |Apply(s, e).tickets|
  {
    hide HandOver, Accept, Resume, Wrapped;
  }

  lemma HandsStep(s: State, e: Event, m: Market, k: nat)
    requires Enabled(s, e) && InHands(Apply(s, e).lanes.At(m).pc, k)
    ensures if e.Take? && e.market == m then s.lanes.At(m).inbox[0] == Flush(k)
            else InHands(s.lanes.At(m).pc, k) && !(e.Reply? && e.market == m)
  {
    hide HandOver, Accept, Resume, Wrapped;
  }

  lemma TokensTaken(before: Lane, after: Lane, n: nat)
    requires TokensOrdered(before, n) && before.inbox != [] && after.inbox == before.inbox[1..]
    requires forall k: nat :: InHands(after.pc, k) ==> before.inbox[0] == Flush(k)
    ensures TokensOrdered(after, n)
  {
  }

  lemma TokensSent(before: Lane, after: Lane, n: nat)
    requires TokensOrdered(before, n) && after.inbox == before.inbox + [Flush(n)]
    requires forall k: nat :: InHands(after.pc, k) ==> InHands(before.pc, k) && k < n
    ensures TokensOrdered(after, n + 1)
  {
  }

  lemma TokensSame(before: Lane, after: Lane, n: nat, more: nat)
    requires TokensOrdered(before, n) && n <= more && |before.inbox| <= |after.inbox| <= |before.inbox| + 1
    requires after.inbox[..|before.inbox|] == before.inbox
    requires |after.inbox| > |before.inbox| ==> !after.inbox[|before.inbox|].Flush?
    requires forall k: nat :: InHands(after.pc, k) ==> InHands(before.pc, k)
    ensures TokensOrdered(after, more)
  {
    assert forall j :: 0 <= j < |before.inbox| ==> after.inbox[j] == before.inbox[j];
  }

  lemma TokensKept(s: State, e: Event, m: Market)
    requires Enabled(s, e) && TokensOrdered(s.lanes.At(m), |s.tickets|) && Awaited(s, m)
    ensures TokensOrdered(Apply(s, e).lanes.At(m), |Apply(s, e).tickets|)
  {
    var before, after := s.lanes.At(m), Apply(s, e).lanes.At(m);
    InboxStep(s, e, m);
    hide Apply, TokensOrdered;
    forall k: nat | InHands(after.pc, k)
      ensures if e.Take? && e.market == m then before.inbox[0] == Flush(k) else InHands(before.pc, k) && k < |s.tickets|
    {
      HandsStep(s, e, m, k);
      if !(e.Take? && e.market == m) {
        assert Carried(before, k);
      }
    }
    hide InHands, Enabled, Awaited;
    if e.Take? && e.market == m {
      TokensTaken(before, after, |s.tickets|);
      TokensSame(after, after, |s.tickets|, |Apply(s, e).tickets|);
    } else if e.SendFlush? && FLUSH_ORDER[s.calls[e.call].stage] == m {
      TokensSent(before, after, |s.tickets|);
    } else {
      TokensSame(before, after, |s.tickets|, |Apply(s, e).tickets|);
    }
  }

  lemma BarriersKept(s: State, e: Event)
    requires Enabled(s, e) && BarriersAwaited(s)
    ensures BarriersAwaited(Apply(s, e))
  {
    hide HandOver, Accept, Resume, Wrapped;
    var t := Apply(s, e);
    if e.HandOverTable? {
      HandOverShape(s.lanes.At(e.market).worker, e.table);
    }
    if e.Receive? {
      assert forall q :: 0 <= q < |t.queue| ==> t.queue[q] == s.queue[q + 1];
    }
  }

  lemma InboxBefore(s: State, e: Event, m: Market, k: nat)
    requires Enabled(s, e) && Flush(k) in Apply(s, e).lanes.At(m).inbox
    ensures
      || Flush(k) in s.lanes.At(m).inbox
      || (e.SendFlush? && FLUSH_ORDER[s.calls[e.call].stage] == m && k == |s.tickets|)
  {
    var before, after := s.lanes.At(m).inbox, Apply(s, e).lanes.At(m).inbox;
    InboxStep(s, e, m);
    var j :| 0 <= j < |after| && after[j] == Flush(k);
    hide Apply, Enabled;
    if e.Take? && e.market == m {
      assert before[j + 1] == Flush(k);
    } else if j < |before| {
      assert before[j] == Flush(k);
    }
  }

  /** A token comes into a market only by being sent, and leaves it when its answer is passed on. */
  lemma CarriedBefore(s: State, e: Event, m: Market, k: nat)
    requires Enabled(s, e) && TokensOrdered(s.lanes.At(m), |s.tickets|) && Carried(Apply(s, e).lanes.At(m), k)
    ensures Carried(s.lanes.At(m), k) || (e.SendFlush? && FLUSH_ORDER[s.calls[e.call].stage] == m && k == |s.tickets|)
    ensures !(e.Reply? && e.market == m && s.lanes.At(m).pc.ticket == k)
  {
    var before, after := s.lanes.At(m), Apply(s, e).lanes.At(m);
    hide Apply;
    if e.Reply? && e.market == m {
      assert InHands(before.pc, before.pc.ticket);
    }
    if InHands(after.pc, k) {
      HandsStep(s, e, m, k);
    } else {
      InboxBefore(s, e, m, k);
    }
  }

  /** What an event does to the record of a flush that waits for the token. */
  lemma WaitingStep(s: State, e: Event, c: nat, k: nat)
    requires Enabled(s, e) && c in s.calls && s.calls[c].waiting == Some(k)
    ensures c in Apply(s, e).calls
    ensures !(e.Reply? && s.lanes.At(e.market).pc.ticket == k) ==> Apply(s, e).calls[c] == s.calls[c]
  {
    hide HandOver, Accept, Wrapped;
  }

  lemma TicketsStay(s: State, e: Event)
    requires Enabled(s, e)
    ensures s.tickets <= Apply(s, e).tickets
  {
  }

  lemma AwaitedToken(s: State, e: Event, m: Market, k: nat)
    requires Enabled(s, e) && (forall other: Market :: Awaited(s, other)) && TokensOrdered(s.lanes.At(m), |s.tickets|)
    requires Carried(Apply(s, e).lanes.At(m), k)
    ensures var t := Apply(s, e);
      k < |t.tickets| && t.tickets[k].market == m && t.tickets[k].call in t.calls
      && t.calls[t.tickets[k].call].waiting == Some(k)
  {
    CarriedBefore(s, e, m, k);
    if Carried(s.lanes.At(m), k) {
      assert Awaited(s, m);
      WaitingStep(s, e, s.tickets[k].call, k);
      TicketsStay(s, e);
      if e.Reply? && s.lanes.At(e.market).pc.ticket == k {
        assert Awaited(s, e.market) && Carried(s.lanes.At(e.market), k);
      }
      hide Apply, Enabled;
    }
  }

  lemma AwaitedKept(s: State, e: Event, m: Market)
    requires Enabled(s, e) && (forall other: Market :: Awaited(s, other)) && TokensOrdered(s.lanes.At(m), |s.tickets|)
    ensures Awaited(Apply(s, e), m)
  {
    forall k: nat | Carried(Apply(s, e).lanes.At(m), k)
      ensures k < |Apply(s, e).tickets| && Apply(s, e).tickets[k].market == m
      ensures Apply(s, e).tickets[k].call in Apply(s, e).calls
      ensures Apply(s, e).calls[Apply(s, e).tickets[k].call].waiting == Some(k)
    {
      AwaitedToken(s, e, m, k);
    }
  }

  // ---------------------------------------------------------------------------------------
  // Answers arrive

  /** Answer `a` of the log is in its worker's hands, or its flush has it: an error has made the flush
      fail, an Ok is among its answers. */
  ghost predicate Arrived(s: State, a: nat)
    requires a < |s.log|
  {
    s.log[a].Answer? ==>
      var Answer(m, k, ok) := s.log[a];
      && k < |s.tickets| && s.tickets[k].market == m && s.tickets[k].call in s.calls
      && var call := s.calls[s.tickets[k].call];
         s.lanes.At(m).pc == Answered(k, ok, a) || if ok then a in call.replies else call.outcome.Failed?
  }

  /** An answer in a worker's hands is in the log. */
  ghost predicate HeldFromLog(s: State, m: Market) {
    var pc := s.lanes.At(m).pc;
    pc.Answered? ==> pc.at < |s.log| && s.log[pc.at] == Answer(m, pc.ticket, pc.ok)
  }

  /** A flush that failed was answered with an error. */
  ghost predicate FailedByError(s: State, c: nat)
    requires c in s.calls
  {
    s.calls[c].outcome.Failed? ==>
      s.calls[c].waiting.None?
      && exists a :: 0 <= a < |s.log| && s.log[a].Answer? && !s.log[a].ok
                     && s.log[a].ticket < |s.tickets| && s.tickets[s.log[a].ticket].call == c
  }

  ghost predicate Inv(s: State) {
    && BarriersAwaited(s)
    && (forall m: Market :: TokensOrdered(s.lanes.At(m), |s.tickets|) && Awaited(s, m) && HeldFromLog(s, m))
    && (forall a :: 0 <= a < |s.log| ==> Arrived(s, a))
    && (forall c <- s.calls :: FailedByError(s, c))
  }

  /** The record of a flush only gains answers, and a failed one that waits for nothing stays as it is. */
  lemma CallStep(s: State, e: Event, c: nat)
    requires Enabled(s, e) && c in s.calls
    ensures c in Apply(s, e).calls && s.calls[c].replies <= Apply(s, e).calls[c].replies
    ensures s.calls[c].outcome.Failed? && s.calls[c].waiting.None? ==> Apply(s, e).calls[c] == s.calls[c]
    ensures Apply(s, e).calls[c].outcome.Failed? && !s.calls[c].outcome.Failed? ==>
      && e.Reply? && !s.lanes.At(e.market).pc.ok && Apply(s, e).calls[c].waiting.None?
      && s.lanes.At(e.market).pc.ticket < |s.tickets| && s.tickets[s.lanes.At(e.market).pc.ticket].call == c
  {
    hide HandOver, Accept, Wrapped;
  }

  lemma LogStep(s: State, e: Event)
    requires Enabled(s, e)
    ensures s.log <= Apply(s, e).log && s.tickets <= Apply(s, e).tickets
    ensures !e.AnswerBarrier? ==> forall a :: |s.log| <= a < |Apply(s, e).log| ==> Apply(s, e).log[a].Wrote?
  {
    hide HandOver, Accept, Resume, Wrapped;
  }

  /** Answers stay in the hands they are in until they are passed on. */
  lemma AnsweredStep(s: State, e: Event, m: Market)
    requires Enabled(s, e) && BarriersAwaited(s)
    ensures s.lanes.At(m).pc.Answered? && !(e.Reply? && e.market == m) ==>
      Apply(s, e).lanes.At(m).pc == s.lanes.At(m).pc
    ensures Apply(s, e).lanes.At(m).pc.Answered? && Apply(s, e).lanes.At(m).pc != s.lanes.At(m).pc ==>
      && e.AnswerBarrier? && s.hand.command.market == m
      && Apply(s, e).lanes.At(m).pc == Answered(s.hand.command.ticket, !s.pendingError, |s.log|)
      && Apply(s, e).log == s.log + [Answer(m, s.hand.command.ticket, !s.pendingError)]
  {
    hide HandOver, Accept, Resume, Wrapped;
  }

  lemma HeldKept(s: State, e: Event, m: Market)
    requires Enabled(s, e) && Inv(s)
    ensures HeldFromLog(Apply(s, e), m)
  {
    AnsweredStep(s, e, m);
    LogStep(s, e);
    assert HeldFromLog(s, m);
    hide Apply, Enabled, BarriersAwaited, Arrived;
  }

  lemma FailedKept(s: State, e: Event, c: nat)
    requires Enabled(s, e) && Inv(s) && c in Apply(s, e).calls
    ensures FailedByError(Apply(s, e), c)
  {
    var t := Apply(s, e);
    LogStep(s, e);
    if t.calls[c].outcome.Failed? {
      if c in s.calls {
        CallStep(s, e, c);
        assert FailedByError(s, c);
        if s.calls[c].outcome.Failed? {
          var a :| 0 <= a < |s.log| && s.log[a].Answer? && !s.log[a].ok
                   && s.log[a].ticket < |s.tickets| && s.tickets[s.log[a].ticket].call == c;
          assert t.log[a] == s.log[a] && t.tickets[s.log[a].ticket] == s.tickets[s.log[a].ticket];
        } else {
          assert HeldFromLog(s, e.market);
          var at := s.lanes.At(e.market).pc.at;
          assert t.log[at] == s.log[at];
        }
      }
      hide Apply, Enabled, Arrived;
    }
  }

  /** The answer being passed on finds its flush waiting for it. */
  lemma ReplyArrives(s: State, e: Event)
    requires Enabled(s, e) && Inv(s) && e.Reply?
    ensures var Answered(k, ok, at) := s.lanes.At(e.market).pc;
      && k < |s.tickets| && s.tickets[k].market == e.market && s.tickets[k].call in Apply(s, e).calls
      && var call := Apply(s, e).calls[s.tickets[k].call];
         if ok then at in call.replies else call.outcome.Failed?
  {
    var Answered(k, ok, at) := s.lanes.At(e.market).pc;
    assert Carried(s.lanes.At(e.market), k) && Awaited(s, e.market);
    var call := s.calls[s.tickets[k].call];
    assert call.waiting == Some(k);
    assert Resume(call, k, ok, at).replies == if ok then call.replies + [at] else call.replies;
    if ok {
      assert (call.replies + [at])[|call.replies|] == at;
    }
  }

  lemma ArrivedKept(s: State, e: Event, a: nat)
    requires Enabled(s, e) && Inv(s) && a < |Apply(s, e).log|
    ensures Arrived(Apply(s, e), a)
  {
    var t := Apply(s, e);
    LogStep(s, e);
    if a < |s.log| && s.log[a].Answer? {
      var Answer(m, k, ok) := s.log[a];
      assert Arrived(s, a);
      var c := s.tickets[k].call;
      CallStep(s, e, c);
      AnsweredStep(s, e, m);
      assert FailedByError(s, c) && t.log[a] == s.log[a] && t.tickets[k] == s.tickets[k];
      if e.Reply? && e.market == m && s.lanes.At(m).pc == Answered(k, ok, a) {
        ReplyArrives(s, e);
      }
    } else if e.AnswerBarrier? && a == |s.log| {
      var m, k := s.hand.command.market, s.hand.command.ticket;
      assert s.lanes.At(m).pc == Awaiting(k);
      assert Carried(s.lanes.At(m), k) && Awaited(s, m);
      CallStep(s, e, s.tickets[k].call);
    }
  }

  lemma InvKept(s: State, e: Event)
    requires Enabled(s, e) && Inv(s)
    ensures Inv(Apply(s, e))
  {
    var t := Apply(s, e);
    BarriersKept(s, e);
    hide BarriersAwaited, TokensOrdered, Awaited, HeldFromLog, Arrived, FailedByError, Apply, Enabled;
    forall m: Market ensures TokensOrdered(t.lanes.At(m), |t.tickets|) && Awaited(t, m) && HeldFromLog(t, m) {
      TokensKept(s, e, m);
      AwaitedKept(s, e, m);
      HeldKept(s, e, m);
    }
    forall a | 0 <= a < |t.log| ensures Arrived(t, a) {
      ArrivedKept(s, e, a);
    }
    forall c | c in t.calls ensures FailedByError(t, c) {
      FailedKept(s, e, c);
    }
  }

  lemma {:induction false} InvHolds(ss: seq<State>, es: seq<Event>, i: nat)
    requires IsRun(ss, es) && i < |ss|
    ensures Inv(ss[i])
  {
    if i > 0 {
      assert StepAt(ss, es, i - 1);
      InvHolds(ss, es, i - 1);
      hide Inv, Apply, Enabled;
      InvKept(ss[i - 1], es[i - 1]);
    }
  }

  /** Where the writer can go no further every answer has arrived: an Ok among the answers of its flush,
      an error as the failure of its flush; and a flush has failed if and only if it was answered with
      an error. */
  lemma AnswersArrive(ss: seq<State>, es: seq<Event>, i: nat)
    requires IsRun(ss, es) && i < |ss| && AtRest(ss[i])
    ensures forall a :: 0 <= a < |ss[i].log| && ss[i].log[a].Answer? ==>
      var Answer(m, k, ok) := ss[i].log[a];
      && k < |ss[i].tickets| && ss[i].tickets[k].market == m && ss[i].tickets[k].call in ss[i].calls
      && var call := ss[i].calls[ss[i].tickets[k].call];
         if ok then a in call.replies else call.outcome.Failed?
    ensures forall c <- ss[i].calls :: ss[i].calls[c].outcome.Failed? <==>
      exists a :: 0 <= a < |ss[i].log| && ss[i].log[a].Answer? && !ss[i].log[a].ok
                  && ss[i].log[a].ticket < |ss[i].tickets| && ss[i].tickets[ss[i].log[a].ticket].call == c
  {
    var s := ss[i];
    InvHolds(ss, es, i);
    hide IsRun, BarriersAwaited, TokensOrdered, Awaited, HeldFromLog;
    forall a | 0 <= a < |s.log| && s.log[a].Answer? ensures Arrived(s, a) && s.lanes.At(s.log[a].market).pc.Idle? {
    }
    forall c | c in s.calls && s.calls[c].outcome.Failed? ensures FailedByError(s, c) {
    }
  }
}
