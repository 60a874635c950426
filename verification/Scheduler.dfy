/**
 The snapshot scheduler: a queue of jobs ordered by due time, a bounded set of requests in
 flight, and the token bucket that admits them.
 */
module Scheduler {
  import Numbers
  import opened Sequences
  import opened Wrappers
  import opened Limiter
  import opened Markets

  datatype Job = Job(symbol: string, nextRun: real)

  /** How a request ended. A failed one reads the remaining block time twice. */
  datatype Outcome = Stored(used: Option<nat>) | Refused(first: nat, second: nat)

  datatype Entry =
    | Started(symbol: string, at: real, due: real)
    | Succeeded(symbol: string, at: real)
    | Failed(symbol: string, at: real, retry: nat)

  /** The queue, the requests in flight, and the history: what happened and what the limiter was asked. */
  datatype Plan = Plan(jobs: seq<Job>, active: seq<Job>, log: seq<Entry>, calls: seq<Call>)

  datatype Settings = Settings(symbols: seq<string>, concurrency: nat, interval: real, weight: nat, start: Bucket)

  function WeightLimit(market: Market): nat {
    if market.Spot? then 6000 else 2400
  }

  function RequestWeight(market: Market, limit: nat): nat {
    if market.Spot? then
      if 1 <= limit <= 100 then 5 else if 101 <= limit <= 500 then 25 else if 501 <= limit <= 1000 then 50 else 250
    else
      if limit <= 50 then 2 else if limit <= 100 then 5 else if limit <= 500 then 10 else 20
  }

  function RetrySeconds(outcome: Outcome): nat
    requires outcome.Refused?
  {
    if outcome.first > 0 then outcome.second else 30
  }

  // ---------------------------------------------------------------------------------------
  // Steps

  function Names(jobs: seq<Job>): seq<string> {
    seq(|jobs|, i requires 0 <= i < |jobs| => jobs[i].symbol)
  }

  /** The front job starts: the limiter admitted its request at time `at`. */
  function Launched(p: Plan, weight: nat, at: real): Plan
    requires p.jobs != []
  {
    var job := p.jobs[0];
    Plan(p.jobs[1..], p.active + [job], p.log + [Started(job.symbol, at, job.nextRun)], p.calls + [Asks(weight, at)])
  }

  /** The limiter refused the front job's request. */
  function Deferred(p: Plan, weight: nat, at: real): Plan {
    p.(calls := p.calls + [Asks(weight, at)])
  }

  function Observed(used: Option<nat>, at: real): seq<Call> {
    if used.Some? then [Observes(used.value, at)] else []
  }

  /** The request of `active[i]` ends at time `at`; a failure then pauses the limiter at `paused`. */
  function Finished(p: Plan, i: nat, outcome: Outcome, at: real, paused: real, interval: real): Plan
    requires i < |p.active|
  {
    var symbol := p.active[i].symbol;
    match outcome
    case Stored(used) =>
      Plan(p.jobs + [Job(symbol, at + interval)], Without(p.active, i),
           p.log + [Succeeded(symbol, at)], p.calls + Observed(used, at))
    case Refused(_, _) =>
      var retry := RetrySeconds(outcome);
      Plan(p.jobs + [Job(symbol, at + Numbers.Min(retry, 300) as real)], Without(p.active, i),
           p.log + [Failed(symbol, at, retry)], p.calls + [Pauses(Numbers.Min(retry, 60) as real, paused)])
  }

  // ---------------------------------------------------------------------------------------
  // What every run keeps

  /** Queued and in-flight symbols together are exactly the configured ones. */
  predicate Complete(p: Plan, symbols: seq<string>) {
    multiset(Names(p.jobs)) + multiset(Names(p.active)) == multiset(symbols)
  }

  /** The earliest time at which a symbol may start again after a request of it ended. */
  function ReadyAt(e: Entry, interval: real): real
    requires !e.Started?
  {
    match e
    case Succeeded(_, at) => at + interval
    case Failed(_, at, retry) => at + Numbers.Min(retry, 300) as real
  }

  predicate Waited(earlier: Entry, later: Entry, interval: real) {
    !earlier.Started? && later.Started? && earlier.symbol == later.symbol ==> ReadyAt(earlier, interval) <= later.at
  }

  predicate Happened(log: seq<Entry>, now: real) {
    && (forall i :: 0 <= i < |log| ==> log[i].at <= now)
    && (forall i, j :: 0 <= i < j < |log| ==> log[i].at <= log[j].at)
  }

  /** No job started before its due time, nor before its last request allowed it. */
  predicate Spaced(log: seq<Entry>, interval: real) {
    && (forall i :: 0 <= i < |log| && log[i].Started? ==> log[i].due <= log[i].at)
    && (forall i, j :: 0 <= i < j < |log| ==> Waited(log[i], log[j], interval))
  }

  predicate Pending(e: Entry, job: Job, interval: real) {
    !e.Started? && e.symbol == job.symbol ==> ReadyAt(e, interval) <= job.nextRun
  }

  predicate Postponed(log: seq<Entry>, jobs: seq<Job>, interval: real) {
    forall i, k :: 0 <= i < |log| && 0 <= k < |jobs| ==> Pending(log[i], jobs[k], interval)
  }

  predicate Overdue(active: seq<Job>, now: real) {
    forall k :: 0 <= k < |active| ==> active[k].nextRun <= now
  }

  /** Starts less ends of a symbol. */
  function Flying(log: seq<Entry>, symbol: string): int {
    if log == [] then 0
    else
      var e := log[|log| - 1];
      Flying(log[..|log| - 1], symbol) + (if e.symbol != symbol then 0 else if e.Started? then 1 else -1)
  }

  ghost predicate Accounted(p: Plan) {
    forall symbol :: Flying(p.log, symbol) == multiset(Names(p.active))[symbol]
  }

  /** The requests started in the window [s, t]. */
  function Requests(log: seq<Entry>, s: real, t: real): nat {
    if log == [] then 0
    else
      var e := log[|log| - 1];
      Requests(log[..|log| - 1], s, t) + (if e.Started? && s <= e.at <= t then 1 else 0)
  }

  /** The weight the limiter admitted in a window is the weight of the requests started in it. */
  ghost predicate Charged(p: Plan, setup: Settings)
    requires setup.start.rate > 0.0
  {
    forall s, t :: Admitted(setup.start, p.calls, s, t) == setup.weight * Requests(p.log, s, t)
  }

  predicate Asked(calls: seq<Call>, now: real) {
    Ordered(calls) && forall i :: 0 <= i < |calls| ==> calls[i].at <= now
  }

  predicate Timely(p: Plan, interval: real) {
    Spaced(p.log, interval) && Postponed(p.log, p.jobs, interval) && Postponed(p.log, p.active, interval)
  }

  /** Until when the latest failure pauses the limiter at least. */
  function Deadline(log: seq<Entry>): Option<real> {
    if log == [] then None
    else
      match log[|log| - 1]
      case Failed(_, at, retry) => Some(at + Numbers.Min(retry, 60) as real)
      case _ => Deadline(log[..|log| - 1])
  }

  predicate Passed(deadline: Option<real>, now: real) {
    deadline.Some? ==> deadline.value <= now
  }

  predicate StartAllowed(log: seq<Entry>, j: nat)
    requires j < |log|
  {
    log[j].Started? ==> Passed(Deadline(log[..j]), log[j].at)
  }

  /** No job started before the deadline of the latest failure, and the limiter is paused until then. */
  ghost predicate Cooled(p: Plan, setup: Settings, now: real)
    requires setup.start.rate > 0.0
  {
    && (forall j :: 0 <= j < |p.log| ==> StartAllowed(p.log, j))
    && (Passed(Deadline(p.log), now) ||
        var until := After(setup.start, p.calls).pausedUntil;
        until.Some? && Deadline(p.log).value <= until.value)
  }

  ghost predicate Kept(p: Plan, setup: Settings, now: real) {
    && BucketValid(setup.start)
    && Complete(p, setup.symbols)
    && |p.active| <= setup.concurrency
    && Happened(p.log, now)
    && Asked(p.calls, now)
    && Overdue(p.active, now)
    && Accounted(p)
    && Charged(p, setup)
    && Cooled(p, setup, now)
    && (NoRepeats(setup.symbols) ==> Timely(p, setup.interval))
  }

  // ---------------------------------------------------------------------------------------
  // Launching

  lemma {:induction false} DistinctOnce(symbols: seq<string>, symbol: string)
    requires NoRepeats(symbols)
    ensures multiset(symbols)[symbol] <= 1
  {
    if symbols != [] {
      assert symbols == [symbols[0]] + symbols[1..];
      DistinctOnce(symbols[1..], symbol);
      if symbols[0] == symbol {
        assert symbol !in symbols[1..];
      }
    }
  }

  lemma NamesJoin(a: seq<Job>, b: seq<Job>)
    ensures Names(a + b) == Names(a) + Names(b)
  {
  }

  lemma NamesPush(a: seq<Job>, job: Job)
    ensures multiset(Names(a + [job])) == multiset(Names(a)) + multiset{job.symbol}
  {
    NamesJoin(a, [job]);
    assert Names([job]) == [job.symbol];
  }

  lemma NamesPop(jobs: seq<Job>)
    requires jobs != []
    ensures multiset(Names(jobs)) == multiset{jobs[0].symbol} + multiset(Names(jobs[1..]))
  {
    assert jobs == [jobs[0]] + jobs[1..];
    NamesJoin([jobs[0]], jobs[1..]);
    assert Names([jobs[0]]) == [jobs[0].symbol];
  }

  lemma NamesWithout(jobs: seq<Job>, i: nat)
    requires i < |jobs|
    ensures multiset(Names(jobs)) == multiset{jobs[i].symbol} + multiset(Names(Without(jobs, i)))
  {
    NamesJoin(jobs[..i], jobs[i..]);
    assert jobs == jobs[..i] + jobs[i..];
    NamesPop(jobs[i..]);
    assert jobs[i..][1..] == jobs[i + 1..];
    NamesJoin(jobs[..i], jobs[i + 1..]);
  }

  lemma NameCounted(jobs: seq<Job>, k: nat)
    requires k < |jobs|
    ensures multiset(Names(jobs))[jobs[k].symbol] >= 1
  {
    assert Names(jobs)[k] == jobs[k].symbol;
  }

  lemma HappenedStep(log: seq<Entry>, now: real, e: Entry)
    requires Happened(log, now) && now <= e.at
    ensures Happened(log + [e], e.at)
  {
  }

  lemma FlyingStep(log: seq<Entry>, e: Entry, symbol: string)
    ensures Flying(log + [e], symbol)
         == Flying(log, symbol) + (if e.symbol != symbol then 0 else if e.Started? then 1 else -1)
  {
    assert (log + [e])[..|log|] == log;
  }

  lemma RequestsStep(log: seq<Entry>, e: Entry, s: real, t: real)
    ensures Requests(log + [e], s, t) == Requests(log, s, t) + (if e.Started? && s <= e.at <= t then 1 else 0)
  {
    assert (log + [e])[..|log|] == log;
  }

  lemma AskedStep(calls: seq<Call>, now: real, call: Call)
    requires Asked(calls, now) && now <= call.at
    ensures Asked(calls + [call], call.at)
  {
  }

  lemma LaunchComplete(p: Plan, symbols: seq<string>, weight: nat, at: real)
    requires Complete(p, symbols) && p.jobs != []
    ensures Complete(Launched(p, weight, at), symbols)
  {
    NamesPop(p.jobs);
    NamesPush(p.active, p.jobs[0]);
  }

  lemma LaunchAccounted(p: Plan, weight: nat, at: real)
    requires Accounted(p) && p.jobs != []
    ensures Accounted(Launched(p, weight, at))
  {
    var q, job := Launched(p, weight, at), p.jobs[0];
    NamesPush(p.active, job);
    forall symbol ensures Flying(q.log, symbol) == multiset(Names(q.active))[symbol] {
      FlyingStep(p.log, Started(job.symbol, at, job.nextRun), symbol);
    }
  }

  lemma LaunchTimely(p: Plan, weight: nat, at: real, interval: real)
    requires p.jobs != [] && p.jobs[0].nextRun <= at && Timely(p, interval)
    ensures Timely(Launched(p, weight, at), interval)
  {
    var q := Launched(p, weight, at);
    forall i, j | 0 <= i < j < |q.log| ensures Waited(q.log[i], q.log[j], interval) {
      if j == |p.log| {
        assert Pending(p.log[i], p.jobs[0], interval);
      } else {
        assert Waited(p.log[i], p.log[j], interval);
      }
    }
    forall i, k | 0 <= i < |q.log| && 0 <= k < |q.jobs| ensures Pending(q.log[i], q.jobs[k], interval) {
      if i < |p.log| {
        assert Pending(p.log[i], p.jobs[k + 1], interval);
      }
    }
    forall i, k | 0 <= i < |q.log| && 0 <= k < |q.active| ensures Pending(q.log[i], q.active[k], interval) {
      if i < |p.log| {
        assert k < |p.active| ==> Pending(p.log[i], p.active[k], interval);
        assert k == |p.active| ==> Pending(p.log[i], p.jobs[0], interval);
      }
    }
  }

  /** One more call of the limiter, and the requests it stands for. */
  lemma ChargedStep(p: Plan, setup: Settings, call: Call, started: nat, log: seq<Entry>)
    requires BucketValid(setup.start) && Charged(p, setup)
    requires Granted(After(setup.start, p.calls), call) == setup.weight * started
    requires forall s, t :: Requests(log, s, t) == Requests(p.log, s, t) + (if s <= call.at <= t then started else 0)
    ensures Charged(p.(calls := p.calls + [call], log := log), setup)
  {
    hide After, Step, Granted;
    forall s, t ensures Admitted(setup.start, p.calls + [call], s, t) == setup.weight * Requests(log, s, t) {
      AdmittedAppend(setup.start, p.calls, call, s, t);
      var before := Requests(p.log, s, t);
      assert setup.weight * (before + started) == setup.weight * before + setup.weight * started;
    }
  }

  /** Another call that sets no deadline. */
  lemma CooledCall(p: Plan, setup: Settings, now: real, call: Call)
    requires BucketValid(setup.start) && Cooled(p, setup, now) && now <= call.at && !call.Pauses?
    ensures Cooled(p.(calls := p.calls + [call]), setup, call.at)
    ensures call.Asks? && Ask(After(setup.start, p.calls), call.weight, call.at).1 == 0.0 ==>
      Passed(Deadline(p.log), call.at)
  {
    hide Level, Gain;
    AfterAppend(setup.start, p.calls, call);
  }

  /** Another entry, with a call that sets its deadline if it is a failure. */
  lemma CooledEntry(p: Plan, setup: Settings, now: real, e: Entry)
    requires setup.start.rate > 0.0 && Cooled(p, setup, now) && (e.Started? ==> Passed(Deadline(p.log), e.at))
    requires e.Failed? ==>
      After(setup.start, p.calls).pausedUntil.Some?
      && e.at + Numbers.Min(e.retry, 60) as real <= After(setup.start, p.calls).pausedUntil.value
    ensures Cooled(p.(log := p.log + [e]), setup, now)
  {
    var log := p.log + [e];
    assert log[..|p.log|] == p.log;
    forall j | 0 <= j < |log| ensures StartAllowed(log, j) {
      assert log[..j] == p.log[..j];
      if j < |p.log| {
        assert StartAllowed(p.log, j);
      }
    }
  }

  /** A failure and its pause. */
  lemma CooledFailure(p: Plan, setup: Settings, now: real, e: Entry, paused: real)
    requires BucketValid(setup.start) && Cooled(p, setup, now) && e.Failed? && now <= e.at <= paused
    ensures var call := Pauses(Numbers.Min(e.retry, 60) as real, paused);
      Cooled(p.(calls := p.calls + [call], log := p.log + [e]), setup, paused)
  {
    var call := Pauses(Numbers.Min(e.retry, 60) as real, paused);
    AfterAppend(setup.start, p.calls, call);
    var log := p.log + [e];
    assert log[..|p.log|] == p.log;
    forall j | 0 <= j < |log| ensures StartAllowed(log, j) {
      assert log[..j] == p.log[..j];
      if j < |p.log| {
        assert StartAllowed(p.log, j);
      }
    }
  }

  lemma LaunchKeeps(p: Plan, setup: Settings, now: real, at: real)
    requires Kept(p, setup, now) && now <= at && p.jobs != [] && |p.active| < setup.concurrency
    requires p.jobs[0].nextRun <= at && Ask(After(setup.start, p.calls), setup.weight, at).1 == 0.0
    ensures Kept(Launched(p, setup.weight, at), setup, at)
  {
    var job := p.jobs[0];
    var started := Started(job.symbol, at, job.nextRun);
    CooledCall(p, setup, now, Asks(setup.weight, at));
    CooledEntry(p.(calls := p.calls + [Asks(setup.weight, at)]), setup, at, started);
    hide Cooled;
    LaunchComplete(p, setup.symbols, setup.weight, at);
    LaunchAccounted(p, setup.weight, at);
    HappenedStep(p.log, now, started);
    AskedStep(p.calls, now, Asks(setup.weight, at));
    forall s, t ensures Requests(p.log + [started], s, t) == Requests(p.log, s, t) + (if s <= at <= t then 1 else 0) {
      RequestsStep(p.log, started, s, t);
    }
    ChargedStep(p, setup, Asks(setup.weight, at), 1, p.log + [started]);
    if NoRepeats(setup.symbols) {
      LaunchTimely(p, setup.weight, at, setup.interval);
    }
  }

  lemma DeferKeeps(p: Plan, setup: Settings, now: real, at: real)
    requires Kept(p, setup, now) && now <= at
    requires Ask(After(setup.start, p.calls), setup.weight, at).1 != 0.0
    ensures Kept(Deferred(p, setup.weight, at), setup, at)
  {
    CooledCall(p, setup, now, Asks(setup.weight, at));
    hide Cooled;
    AskedStep(p.calls, now, Asks(setup.weight, at));
    ChargedStep(p, setup, Asks(setup.weight, at), 0, p.log);
  }

  lemma LaterKeeps(p: Plan, setup: Settings, now: real, later: real)
    requires Kept(p, setup, now) && now <= later
    ensures Kept(p, setup, later)
  {
  }

  // ---------------------------------------------------------------------------------------
  // Finishing

  lemma FinishComplete(p: Plan, symbols: seq<string>, i: nat, q: Plan)
    requires Complete(p, symbols) && i < |p.active|
    requires q.active == Without(p.active, i) && |q.jobs| == |p.jobs| + 1
    requires q.jobs == p.jobs + [q.jobs[|p.jobs|]] && q.jobs[|p.jobs|].symbol == p.active[i].symbol
    ensures Complete(q, symbols)
  {
    NamesWithout(p.active, i);
    NamesPush(p.jobs, q.jobs[|p.jobs|]);
  }

  lemma FinishAccounted(p: Plan, i: nat, e: Entry, q: Plan)
    requires Accounted(p) && i < |p.active| && !e.Started? && e.symbol == p.active[i].symbol
    requires q.active == Without(p.active, i) && q.log == p.log + [e]
    ensures Accounted(q)
  {
    NamesWithout(p.active, i);
    forall symbol ensures Flying(q.log, symbol) == multiset(Names(q.active))[symbol] {
      FlyingStep(p.log, e, symbol);
    }
  }

  /** Distinct symbols: nothing else queued or in flight bears the symbol of a request in flight. */
  lemma Alone(p: Plan, symbols: seq<string>, i: nat)
    requires Complete(p, symbols) && NoRepeats(symbols) && i < |p.active|
    ensures forall k :: 0 <= k < |p.jobs| ==> p.jobs[k].symbol != p.active[i].symbol
    ensures var others := Without(p.active, i); forall k :: 0 <= k < |others| ==> others[k].symbol != p.active[i].symbol
  {
    var symbol, others := p.active[i].symbol, Without(p.active, i);
    DistinctOnce(symbols, symbol);
    NamesWithout(p.active, i);
    forall k | 0 <= k < |p.jobs| ensures p.jobs[k].symbol != symbol {
      NameCounted(p.jobs, k);
    }
    forall k | 0 <= k < |others| ensures others[k].symbol != symbol {
      NameCounted(others, k);
    }
  }

  lemma FinishTimely(p: Plan, setup: Settings, i: nat, e: Entry, q: Plan, now: real)
    requires Timely(p, setup.interval) && Complete(p, setup.symbols) && NoRepeats(setup.symbols)
    requires i < |p.active| && Overdue(p.active, now) && now <= e.at && 0.0 <= setup.interval
    requires !e.Started? && e.symbol == p.active[i].symbol && q.log == p.log + [e]
    requires q.active == Without(p.active, i) && q.jobs == p.jobs + [Job(e.symbol, ReadyAt(e, setup.interval))]
    ensures Timely(q, setup.interval)
  {
    var interval := setup.interval;
    Alone(p, setup.symbols, i);
    forall k, j | 0 <= k < j < |q.log| ensures Waited(q.log[k], q.log[j], interval) {
      assert j < |p.log| ==> Waited(p.log[k], p.log[j], interval);
    }
    forall j, k | 0 <= j < |q.log| && 0 <= k < |q.jobs| ensures Pending(q.log[j], q.jobs[k], interval) {
      if j < |p.log| {
        assert k < |p.jobs| ==> Pending(p.log[j], p.jobs[k], interval);
        assert Pending(p.log[j], p.active[i], interval);
      }
    }
    forall j, k | 0 <= j < |q.log| && 0 <= k < |q.active| ensures Pending(q.log[j], q.active[k], interval) {
      if j < |p.log| {
        assert Pending(p.log[j], p.active[if k < i then k else k + 1], interval);
      }
    }
  }

  lemma EndRequests(log: seq<Entry>, e: Entry)
    requires !e.Started?
    ensures forall s, t :: Requests(log + [e], s, t) == Requests(log, s, t)
  {
    forall s, t ensures Requests(log + [e], s, t) == Requests(log, s, t) {
      RequestsStep(log, e, s, t);
    }
  }

  lemma FinishCooled(p: Plan, setup: Settings, i: nat, outcome: Outcome, now: real, at: real, paused: real)
    requires BucketValid(setup.start) && Cooled(p, setup, now) && now <= at <= paused && i < |p.active|
    ensures Cooled(Finished(p, i, outcome, at, paused, setup.interval), setup, paused)
  {
    var symbol := p.active[i].symbol;
    match outcome
    case Stored(used) =>
      var calls := p.calls + Observed(used, at);
      if used.Some? {
        CooledCall(p, setup, now, Observes(used.value, at));
      } else {
        assert calls == p.calls;
      }
      CooledEntry(p.(calls := calls), setup, at, Succeeded(symbol, at));
    case Refused(_, _) =>
      CooledFailure(p, setup, now, Failed(symbol, at, RetrySeconds(outcome)), paused);
  }

  lemma FinishKeeps(p: Plan, setup: Settings, i: nat, outcome: Outcome, now: real, at: real, paused: real)
    requires Kept(p, setup, now) && now <= at <= paused && i < |p.active| && 0.0 <= setup.interval
    ensures Kept(Finished(p, i, outcome, at, paused, setup.interval), setup, paused)
  {
    var q, symbol := Finished(p, i, outcome, at, paused, setup.interval), p.active[i].symbol;
    var e := if outcome.Stored? then Succeeded(symbol, at) else Failed(symbol, at, RetrySeconds(outcome));
    FinishCooled(p, setup, i, outcome, now, at, paused);
    hide Cooled;
    FinishComplete(p, setup.symbols, i, q);
    FinishAccounted(p, i, e, q);
    HappenedStep(p.log, now, e);
    EndRequests(p.log, e);
    if outcome.Stored? && outcome.used.None? {
      assert q.calls == p.calls;
    } else {
      var call :=
        if outcome.Stored? then Observes(outcome.used.value, at)
        else Pauses(Numbers.Min(e.retry, 60) as real, paused);
      AskedStep(p.calls, now, call);
      ChargedStep(p, setup, call, 0, q.log);
    }
    if NoRepeats(setup.symbols) {
      FinishTimely(p, setup, i, e, q, now);
    }
  }

  // ---------------------------------------------------------------------------------------
  // Sorting and the initial queue

  predicate ByDue(jobs: seq<Job>) {
    forall i, j :: 0 <= i < j < |jobs| ==> jobs[i].nextRun <= jobs[j].nextRun
  }

  function InsertByDue(job: Job, jobs: seq<Job>): (r: seq<Job>)
    requires ByDue(jobs)
    ensures |r| == |jobs| + 1 && (r[0] == job || (jobs != [] && r[0] == jobs[0]))
    ensures ByDue(r)
  {
    if jobs == [] || job.nextRun <= jobs[0].nextRun then [job] + jobs
    else
      var rest := InsertByDue(job, jobs[1..]);
      assert jobs[0].nextRun <= rest[0].nextRun;
      [jobs[0]] + rest
  }

  lemma {:induction false} InsertPermutes(job: Job, jobs: seq<Job>)
    requires ByDue(jobs)
    ensures multiset(InsertByDue(job, jobs)) == multiset{job} + multiset(jobs)
  {
    if jobs != [] && jobs[0].nextRun < job.nextRun {
      InsertPermutes(job, jobs[1..]);
      assert jobs == [jobs[0]] + jobs[1..];
    }
  }

  function SortByDue(jobs: seq<Job>): (r: seq<Job>)
    ensures ByDue(r) && multiset(r) == multiset(jobs)
  {
    if jobs == [] then []
    else
      assert jobs == [jobs[0]] + jobs[1..];
      InsertPermutes(jobs[0], SortByDue(jobs[1..]));
      InsertByDue(jobs[0], SortByDue(jobs[1..]))
  }

  lemma {:induction false} NamesPermuted(a: seq<Job>, b: seq<Job>)
    requires multiset(a) == multiset(b)
    ensures multiset(Names(a)) == multiset(Names(b))
  {
    if a == [] {
      assert |multiset(b)| == 0;
    } else {
      assert a[0] in multiset(b);
      var i :| 0 <= i < |b| && b[i] == a[0];
      assert a == [a[0]] + a[1..];
      assert b == b[..i] + [b[i]] + b[i + 1..];
      assert multiset(Without(b, i)) == multiset(b) - multiset{b[i]};
      NamesPermuted(a[1..], Without(b, i));
      NamesPop(a);
      NamesWithout(b, i);
    }
  }

  /** Any reordering of the queue keeps everything. */
  lemma SortKeeps(p: Plan, setup: Settings, now: real, jobs: seq<Job>)
    requires Kept(p, setup, now) && multiset(jobs) == multiset(p.jobs)
    ensures Kept(p.(jobs := jobs), setup, now)
  {
    NamesPermuted(jobs, p.jobs);
    if NoRepeats(setup.symbols) {
      forall i, k | 0 <= i < |p.log| && 0 <= k < |jobs| ensures Pending(p.log[i], jobs[k], setup.interval) {
        assert jobs[k] in multiset(p.jobs);
        var m :| 0 <= m < |p.jobs| && p.jobs[m] == jobs[k];
        assert Pending(p.log[i], p.jobs[m], setup.interval);
      }
    }
  }

  function Offset(index: nat, count: nat, interval: real): real
    requires count > 0
  {
    interval * (index as real / count as real)
  }

  /** One job per symbol, spread evenly over one interval from `now` on. */
  function InitialJobs(symbols: seq<string>, interval: real, now: real): (jobs: seq<Job>)
    ensures Names(jobs) == symbols
  {
    var count := if |symbols| == 0 then 1 else |symbols|;
    seq(|symbols|, i requires 0 <= i < |symbols| => Job(symbols[i], now + Offset(i, count, interval)))
  }

  lemma OffsetStrict(i: nat, j: nat, count: nat, interval: real)
    requires i < j <= count && 0.0 < interval
    ensures Offset(i, count, interval) < Offset(j, count, interval)
  {
    var c := count as real;
    var low, high := i as real / c, j as real / c;
    assert low * c == i as real && high * c == j as real;
    assert (high - low) * c > 0.0;
    assert high > low;
    assert (high - low) * interval > 0.0;
  }

  lemma OffsetEnds(count: nat, interval: real)
    requires count > 0
    ensures Offset(0, count, interval) == 0.0 && Offset(count, count, interval) == interval
  {
  }

  /** The first job is due at once, later ones strictly later, and all within one interval. */
  lemma Staggered(symbols: seq<string>, interval: real, now: real, i: nat, j: nat)
    requires i < j < |symbols| && 0.0 < interval
    ensures var jobs := InitialJobs(symbols, interval, now);
      now == jobs[0].nextRun <= jobs[i].nextRun < jobs[j].nextRun < now + interval
  {
    OffsetEnds(|symbols|, interval);
    OffsetStrict(i, j, |symbols|, interval);
    OffsetStrict(j, |symbols|, |symbols|, interval);
    if i > 0 {
      OffsetStrict(0, i, |symbols|, interval);
    }
  }

  /** And evenly: one is due as much after the one before it as any other. */
  lemma Evenly(symbols: seq<string>, interval: real, now: real, i: nat)
    requires i + 1 < |symbols|
    ensures var jobs := InitialJobs(symbols, interval, now);
      (jobs[i + 1].nextRun - jobs[i].nextRun) * |symbols| as real == interval
  {
    var c := |symbols| as real;
    var low, high := i as real / c, (i + 1) as real / c;
    assert low * c == i as real && high * c == (i + 1) as real;
    var step := high - low;
    assert step * c == 1.0;
    assert interval * high - interval * low == interval * step;
    assert interval * step * c == interval * (step * c);
    var jobs := InitialJobs(symbols, interval, now);
    assert jobs[i].nextRun == now + Offset(i, |symbols|, interval);
    assert jobs[i + 1].nextRun == now + Offset(i + 1, |symbols|, interval);
    assert Offset(i, |symbols|, interval) == interval * low;
    assert Offset(i + 1, |symbols|, interval) == interval * high;
  }

  lemma InitialKeeps(setup: Settings, now: real)
    requires BucketValid(setup.start)
    ensures Kept(Plan(InitialJobs(setup.symbols, setup.interval, now), [], [], []), setup, now)
  {
    assert Names([]) == [];
  }

  // ---------------------------------------------------------------------------------------
  // What follows in every reachable state

  /** The request weight started in any window obeys the token bucket. */
  lemma RequestRate(p: Plan, setup: Settings, now: real, s: real, t: real)
    requires Kept(p, setup, now) && setup.start.lastRefill <= s <= t
    ensures (setup.weight * Requests(p.log, s, t)) as real <= setup.start.capacity + (t - s) * setup.start.rate
  {
    WindowBound(setup.start, p.calls, s, t);
    assert Admitted(setup.start, p.calls, s, t) == setup.weight * Requests(p.log, s, t);
  }

  /** A symbol is queued or in flight, never both, and never twice. */
  lemma OneAtATime(p: Plan, setup: Settings, now: real, symbol: string)
    requires Kept(p, setup, now) && NoRepeats(setup.symbols)
    ensures Flying(p.log, symbol) == multiset(Names(p.active))[symbol]
    ensures 0 <= Flying(p.log, symbol) + multiset(Names(p.jobs))[symbol] == multiset(setup.symbols)[symbol] <= 1
  {
    DistinctOnce(setup.symbols, symbol);
  }

  /** After a success at time `at` the symbol does not start again before `at + interval`. */
  lemma NoEarlyRestart(p: Plan, setup: Settings, now: real, i: nat, j: nat)
    requires Kept(p, setup, now) && NoRepeats(setup.symbols) && i < j < |p.log|
    requires p.log[i].Succeeded? && p.log[j].Started? && p.log[i].symbol == p.log[j].symbol
    ensures p.log[i].at + setup.interval <= p.log[j].at && p.log[j].due <= p.log[j].at
  {
    assert Waited(p.log[i], p.log[j], setup.interval);
  }

  /** After a failure the symbol does not start again before its retry time, at most 5 minutes. */
  lemma NoEarlyRetry(p: Plan, setup: Settings, now: real, i: nat, j: nat)
    requires Kept(p, setup, now) && NoRepeats(setup.symbols) && i < j < |p.log|
    requires p.log[i].Failed? && p.log[j].Started? && p.log[i].symbol == p.log[j].symbol
    ensures p.log[i].at + (if p.log[i].retry < 300 then p.log[i].retry else 300) as real <= p.log[j].at
  {
    assert Waited(p.log[i], p.log[j], setup.interval);
  }

  lemma {:induction false} DeadlineOf(log: seq<Entry>, i: nat, j: nat)
    requires i < j <= |log| && log[i].Failed? && forall k :: i < k < j ==> !log[k].Failed?
    ensures Deadline(log[..j]) == Some(log[i].at + Numbers.Min(log[i].retry, 60) as real)
  {
    assert log[..j][..j - 1] == log[..j - 1];
    if i < j - 1 {
      DeadlineOf(log, i, j - 1);
    }
  }

  /** After a failure no symbol at all starts before its retry time, at most a minute; a later
      failure sets that time anew. */
  lemma FailurePauses(p: Plan, setup: Settings, now: real, i: nat, j: nat)
    requires Kept(p, setup, now) && i < j < |p.log| && p.log[i].Failed? && p.log[j].Started?
    requires forall k :: i < k < j ==> !p.log[k].Failed?
    ensures p.log[i].at + (if p.log[i].retry < 60 then p.log[i].retry else 60) as real <= p.log[j].at
  {
    DeadlineOf(p.log, i, j);
    assert StartAllowed(p.log, j);
  }

  datatype Tier = Tier(bound: nat, weight: nat)

  /** The weight of the first tier, from number `k` on, that reaches up to the limit. */
  function Lookup(tiers: seq<Tier>, k: nat, limit: nat, otherwise: nat): nat
    requires k <= |tiers|
    decreases |tiers| - k
  {
    if k == |tiers| then otherwise
    else if limit <= tiers[k].bound then tiers[k].weight
    else Lookup(tiers, k + 1, limit, otherwise)
  }

  const SPOT_TIERS := [Tier(0, 250), Tier(100, 5), Tier(500, 25), Tier(1000, 50)]
  const FUTURES_TIERS := [Tier(50, 2), Tier(100, 5), Tier(500, 10)]

  /** The exchange's weights as tables; a limit of zero on the spot market costs as much as the largest. */
  lemma WeightTiers(market: Market, limit: nat)
    ensures RequestWeight(market, limit)
         == if market.Spot? then Lookup(SPOT_TIERS, 0, limit, 250) else Lookup(FUTURES_TIERS, 0, limit, 20)
  {
    assert Lookup(SPOT_TIERS, 4, limit, 250) == 250 && Lookup(FUTURES_TIERS, 3, limit, 20) == 20;
    assert Lookup(SPOT_TIERS, 2, limit, 250) == if limit <= 500 then 25 else if limit <= 1000 then 50 else 250;
    assert Lookup(FUTURES_TIERS, 1, limit, 20) == if limit <= 100 then 5 else if limit <= 500 then 10 else 20;
  }

  /** Every request fits the budget of its market, so the wait the limiter returns suffices. */
  lemma WaitSuffices(market: Market, limit: nat, b: Bucket, now: real)
    requires BucketValid(b) && b.capacity == WeightLimit(market) as real * WEIGHT_FRACTION
    requires b.lastRefill <= now && !Paused(b, now) && Ask(b, RequestWeight(market, limit), now).1 > 0.0
    ensures var (after, wait) := Ask(b, RequestWeight(market, limit), now);
      Ask(after, RequestWeight(market, limit), now + wait).1 == 0.0
  {
    WaitIsLeast(b, RequestWeight(market, limit), now, Ask(b, RequestWeight(market, limit), now).1);
  }

  /** The entries record the starts of these jobs, in this order. */
  predicate StartsOf(entries: seq<Entry>, jobs: seq<Job>) {
    |entries| == |jobs| && forall k :: 0 <= k < |jobs| ==>
      entries[k].Started? && entries[k].symbol == jobs[k].symbol && entries[k].due == jobs[k].nextRun
  }

  /** Which request in flight ends next, if any does, and how. */
  datatype Turn = Turn(pick: nat, outcome: Outcome)

  /** Where the scheduler stands between two rounds. */
  datatype Moment = Moment(plan: Plan, bucket: Bucket, now: real)

  /** There is room, and the limiter would admit a request. */
  predicate Open(m: Moment, setup: Settings) {
    |m.plan.active| < setup.concurrency && Admits(m.bucket, setup.weight, m.now)
  }

  /** The limiter refused the request of call `k`. */
  ghost predicate RefusedAt(calls: seq<Call>, k: nat, setup: Settings) {
    && setup.start.rate > 0.0 && k < |calls| && calls[k].Asks?
    && Ask(After(setup.start, calls[..k]), calls[k].weight, calls[k].at).1 > 0.0
  }

  lemma RefusedStill(calls: seq<Call>, k: nat, setup: Settings, more: seq<Call>)
    requires RefusedAt(calls, k, setup) && calls <= more
    ensures RefusedAt(more, k, setup)
  {
    assert more[..k] == calls[..k];
  }

  /** The end of a request is recorded as it happened, and its job is queued again: after a success
      an interval later, after a failure after the remaining block time or 30 seconds, at most 300. */
  predicate Requeued(e: Entry, job: Job, outcome: Outcome, interval: real) {
    && job.symbol == e.symbol
    && match outcome
       case Stored(_) => e.Succeeded? && job.nextRun == e.at + interval
       case Refused(first, second) =>
         && e.Failed? && e.retry == (if first > 0 then second else 30)
         && job.nextRun == e.at + (if e.retry < 300 then e.retry else 300) as real
  }

  /** What the queue comes to when the request of `active[i]` ends. */
  predicate EndsOne(flying: seq<Job>, rest: seq<Job>, i: nat, outcome: Outcome, interval: real, after: Plan, e: Entry)
    requires i < |flying|
  {
    && e.symbol == flying[i].symbol && after.active == Without(flying, i)
    && |after.jobs| == |rest| + 1 && after.jobs[..|rest|] == rest && Requeued(e, after.jobs[|rest|], outcome, interval)
  }

  /** The first `n` jobs in the order of their due times start: at least one if the earliest is due,
      there is room and the limiter admits it, and all that are due unless there is no more room or the
      limiter refuses one. */
  ghost predicate Launches(a: Moment, b: Moment, setup: Settings, due: seq<Job>, n: nat) {
    && ByDue(due) && multiset(due) == multiset(a.plan.jobs) && n <= |due|
    && |a.plan.log| + n <= |b.plan.log| && a.plan.log <= b.plan.log
    && StartsOf(b.plan.log[|a.plan.log|..|a.plan.log| + n], due[..n])
    && (Open(a, setup) && due != [] && due[0].nextRun <= a.now ==> n > 0)
    && (|a.plan.active| + n >= setup.concurrency || n == |due| || due[n].nextRun > a.now
        || RefusedAt(b.plan.calls, |a.plan.calls| + n, setup))
  }

  /** Then one request in flight ends, or, with none in flight, time passes until a job is due or 5
      seconds are over. */
  ghost predicate Closes(a: Moment, b: Moment, turn: Turn, setup: Settings, due: seq<Job>, n: nat)
    requires n <= |due|
  {
    var flying := a.plan.active + due[..n];
    if flying != [] then
      && |b.plan.log| == |a.plan.log| + n + 1
      && EndsOne(flying, due[n..], turn.pick % |flying|, turn.outcome, setup.interval,
                 b.plan, b.plan.log[|b.plan.log| - 1])
    else
      && |b.plan.log| == |a.plan.log| && b.plan.active == [] && b.plan.jobs == due
      && (due != [] ==> due[0].nextRun <= b.now || a.now + 5.0 <= b.now)
  }

  ghost predicate RoundDone(a: Moment, b: Moment, turn: Turn, setup: Settings, due: seq<Job>, n: nat) {
    a.now <= b.now && Launches(a, b, setup, due, n) && Closes(a, b, turn, setup, due, n)
  }

  ghost predicate SomeRound(a: Moment, b: Moment, turn: Turn, setup: Settings) {
    exists due, n :: RoundDone(a, b, turn, setup, due, n)
  }

  lemma FinishedEnds(p: Plan, i: nat, outcome: Outcome, at: real, paused: real, interval: real)
    requires i < |p.active|
    ensures var q := Finished(p, i, outcome, at, paused, interval);
      && |q.log| == |p.log| + 1 && p.log <= q.log && p.calls <= q.calls
      && EndsOne(p.active, p.jobs, i, outcome, interval, q, q.log[|p.log|])
  {
  }

  lemma OpenMeans(m: Moment, setup: Settings)
    ensures Open(m, setup) ==> |m.plan.active| < setup.concurrency && Admits(m.bucket, setup.weight, m.now)
  {
  }

  lemma StartsNone(entries: seq<Entry>, jobs: seq<Job>)
    requires entries == [] && jobs == []
    ensures StartsOf(entries, jobs)
  {
  }

  lemma StartsMore(entries: seq<Entry>, jobs: seq<Job>, n: nat, e: Entry)
    requires n < |jobs| && StartsOf(entries, jobs[..n])
    requires e.Started? && e.symbol == jobs[n].symbol && e.due == jobs[n].nextRun
    ensures StartsOf(entries + [e], jobs[..n + 1])
  {
    assert jobs[..n + 1] == jobs[..n] + [jobs[n]];
  }

  lemma DueSplit(jobs: seq<Job>, n: nat)
    requires ByDue(jobs) && n <= |jobs|
    ensures forall started <- jobs[..n], queued <- jobs[n..] :: started.nextRun <= queued.nextRun
  {
  }

  lemma OpenSame(a: Moment, b: Moment, setup: Settings)
    requires a.plan.active == b.plan.active && a.bucket == b.bucket && a.now == b.now
    ensures Open(a, setup) == Open(b, setup)
  {
  }

  lemma StartsCount(entries: seq<Entry>, jobs: seq<Job>)
    requires StartsOf(entries, jobs)
    ensures |entries| == |jobs|
  {
  }

  lemma LaunchesOf(a: Moment, b: Moment, setup: Settings, due: seq<Job>, n: nat)
    requires ByDue(due) && multiset(due) == multiset(a.plan.jobs) && n <= |due|
    requires a.plan.log <= b.plan.log && StartsOf(b.plan.log[|a.plan.log|..], due[..n])
    requires Open(a, setup) && due != [] && due[0].nextRun <= a.now ==> n > 0
    requires |a.plan.active| + n >= setup.concurrency || n == |due| || due[n].nextRun > a.now
      || RefusedAt(b.plan.calls, |a.plan.calls| + n, setup)
    ensures Launches(a, b, setup, due, n) && |b.plan.log| == |a.plan.log| + n
  {
    StartsCount(b.plan.log[|a.plan.log|..], due[..n]);
    assert b.plan.log[|a.plan.log|..|a.plan.log| + n] == b.plan.log[|a.plan.log|..];
  }

  lemma LaunchesParts(a: Moment, b: Moment, setup: Settings, due: seq<Job>, n: nat)
    requires Launches(a, b, setup, due, n)
    ensures n <= |due| && a.plan.log <= b.plan.log
  {
  }

  /** What a round has launched stays launched. */
  lemma LaunchesStill(a: Moment, m: Moment, setup: Settings, due: seq<Job>, n: nat, b: Moment)
    requires Launches(a, m, setup, due, n) && m.plan.log <= b.plan.log && m.plan.calls <= b.plan.calls
    ensures Launches(a, b, setup, due, n)
  {
    hide ByDue, StartsOf, RefusedAt, Open;
    var k := |a.plan.log|;
    assert b.plan.log[k..k + n] == m.plan.log[k..k + n];
    if RefusedAt(m.plan.calls, |a.plan.calls| + n, setup) {
      RefusedStill(m.plan.calls, |a.plan.calls| + n, setup, b.plan.calls);
    }
  }

  // ---------------------------------------------------------------------------------------
  // The scheduler object

  /** A clock that never goes back; `steps` says by how much each reading moves it on. */
  class Clock {
    var now: real
    var steps: seq<real>

    constructor (now: real, steps: seq<real>)
      ensures this.now == now
    {
      this.now, this.steps := now, steps;
    }

    method Read() returns (t: real)
      modifies this
      ensures t == now && old(now) <= now
    {
      if steps != [] {
        now, steps := now + Max(steps[0], 0.0), steps[1..];
      }
      return now;
    }

    method Sleep(duration: real)
      modifies this
      ensures old(now) <= now && old(now) + duration <= now
    {
      now := now + Max(duration, 0.0);
      var _ := Read();
    }
  }

  class SnapshotScheduler {
    const setup: Settings
    const limiter: WeightedLimiter
    const clock: Clock
    var jobs: seq<Job>
    var active: seq<Job>
    var successes: nat
    ghost var log: seq<Entry>
    ghost var calls: seq<Call>

    ghost function State(): Plan
      reads this
    {
      Plan(jobs, active, log, calls)
    }

    /** Where the scheduler stands. */
    ghost function Now(): Moment
      reads this, limiter, clock
    {
      Moment(State(), limiter.State(), clock.now)
    }

    /** The limiter is where the recorded calls have brought it. */
    ghost predicate Linked()
      reads this`calls, limiter
    {
      setup.start.rate > 0.0 && limiter.Valid() && limiter.State() == After(setup.start, calls)
    }

    ghost predicate Valid()
      reads this, limiter, clock
    {
      0.0 <= setup.interval && Linked() && Kept(State(), setup, clock.now)
    }

    constructor (market: Market, limit: nat, symbols: seq<string>, concurrency: nat, interval: nat, clock: Clock)
      modifies clock
      ensures Valid() && this.clock == clock && fresh(limiter) && active == [] && log == []
      ensures setup.symbols == symbols == Names(jobs) && setup.concurrency == concurrency
      ensures setup.interval == interval as real && setup.weight == RequestWeight(market, limit)
      ensures setup.start.capacity == WeightLimit(market) as real * WEIGHT_FRACTION
    {
      var at := clock.Read();
      var bucket := new WeightedLimiter(WeightLimit(market), at);
      var start := bucket.State();
      var now := clock.Read();
      limiter, this.clock := bucket, clock;
      setup := Settings(symbols, concurrency, interval as real, RequestWeight(market, limit), start);
      jobs, active, successes := InitialJobs(symbols, interval as real, now), [], 0;
      log, calls := [], [];
      new;
      InitialKeeps(setup, now);
    }

    method Sort()
      requires Valid()
      modifies this`jobs
      ensures Valid() && ByDue(jobs) && multiset(jobs) == multiset(old(jobs))
    {
      jobs := SortByDue(jobs);
      SortKeeps(old(State()), setup, clock.now, jobs);
    }

    /** Asks the limiter to admit one request. */
    method AskLimiter() returns (wait: real)
      requires Linked()
      modifies this`calls, limiter, clock
      ensures Linked() && old(clock.now) <= clock.now && 0.0 <= wait
      ensures calls == old(calls) + [Asks(setup.weight, clock.now)]
      ensures wait == Ask(After(setup.start, old(calls)), setup.weight, clock.now).1
    {
      var at := clock.Read();
      WaitPositive(limiter.State(), setup.weight, at);
      wait := limiter.WaitFor(setup.weight, at);
      AfterAppend(setup.start, calls, Asks(setup.weight, at));
      calls := calls + [Asks(setup.weight, at)];
    }

    /** Starts the front job if it is due and the limiter admits it; otherwise says so. */
    method LaunchFront() returns (started: bool, wait: real)
      requires Valid() && jobs != [] && |active| < setup.concurrency
      modifies this`jobs, this`active, this`log, this`calls, limiter, clock
      ensures Valid() && old(clock.now) <= clock.now && 0.0 <= wait
      ensures var job := old(jobs)[0];
        if started then
          && job.nextRun <= clock.now
          && jobs == old(jobs)[1..] && active == old(active) + [job]
          && log == old(log) + [Started(job.symbol, clock.now, job.nextRun)]
        else
          && jobs == old(jobs) && active == old(active) && log == old(log)
          && (job.nextRun > clock.now || wait > 0.0)
      ensures wait > 0.0 ==> !started && old(jobs)[0].nextRun <= clock.now
      ensures calls == old(calls) + if started || wait > 0.0 then [Asks(setup.weight, clock.now)] else []
      ensures wait > 0.0 ==> RefusedAt(calls, |old(calls)|, setup)
      ensures old(jobs)[0].nextRun <= old(clock.now) && Admits(old(limiter.State()), setup.weight, old(clock.now)) ==>
        started
    {
      var job := jobs[0];
      ghost var before, now, bucket := State(), clock.now, limiter.State();
      var reading := clock.Read();
      if job.nextRun > reading {
        LaterKeeps(before, setup, now, reading);
        return false, 0.0;
      }
      jobs := jobs[1..];
      wait := AskLimiter();
      if Admits(bucket, setup.weight, now) {
        AdmitsLater(bucket, setup.weight, now, clock.now);
      }
      if wait != 0.0 {
        jobs := [job] + jobs;
        assert State() == Deferred(before, setup.weight, clock.now);
        assert calls[..|before.calls|] == before.calls;
        DeferKeeps(before, setup, now, clock.now);
        return false, wait;
      }
      active := active + [job];
      log := log + [Started(job.symbol, clock.now, job.nextRun)];
      assert State() == Launched(before, setup.weight, clock.now);
      LaunchKeeps(before, setup, now, clock.now);
      return true, 0.0;
    }

    /** Starts due jobs from the front of the queue while there is room and the limiter admits
        them: the first `n` of the queue, in this order, none of them due after one that stays. */
    method LaunchDue() returns (limiterWait: real)
      requires Valid() && ByDue(jobs)
      modifies this`jobs, this`active, this`log, this`calls, limiter, clock
      ensures Valid() && old(clock.now) <= clock.now && 0.0 <= limiterWait
      ensures |old(active)| <= |active| && |active| - |old(active)| <= |old(jobs)|
      ensures var n := |active| - |old(active)|;
        && active == old(active) + old(jobs)[..n] && jobs == old(jobs)[n..]
        && old(log) <= log && StartsOf(log[|old(log)|..], old(jobs)[..n])
        && forall started <- old(jobs)[..n], queued <- jobs :: started.nextRun <= queued.nextRun
      ensures |active| >= setup.concurrency || jobs == [] || jobs[0].nextRun > clock.now || limiterWait > 0.0
      ensures limiterWait > 0.0 ==> jobs != [] && jobs[0].nextRun <= clock.now
      ensures limiterWait > 0.0 ==> RefusedAt(calls, |old(calls)| + |active| - |old(active)|, setup)
      ensures Open(old(Now()), setup) && old(jobs) != [] && old(jobs)[0].nextRun <= old(clock.now) ==>
        |active| > |old(active)|
    {
      hide Kept, Level, Linked, RefusedAt, ByDue, StartsOf, Open;
      limiterWait := 0.0;
      ghost var before := Now();
      OpenMeans(before, setup);
      ghost var queue, flying, past := jobs, active, log;
      ghost var n := 0;
      StartsNone(log[|past|..], queue[..n]);
      while |active| < setup.concurrency
        invariant Valid() && old(clock.now) <= clock.now && 0.0 == limiterWait
        invariant 0 <= n <= |queue| && active == flying + queue[..n] && jobs == queue[n..]
        invariant past <= log && StartsOf(log[|past|..], queue[..n]) && |calls| == |old(calls)| + n
        invariant n == 0 ==> limiter.State() == old(limiter.State()) && clock.now == old(clock.now)
        decreases |jobs|
      {
        if jobs == [] {
          break;
        }
        ghost var entries := log;
        var started, wait := LaunchFront();
        if !started {
          limiterWait := wait;
          break;
        }
        StartsMore(entries[|past|..], queue, n, log[|entries|]);
        assert queue[..n] + [queue[n]] == queue[..n + 1];
        assert log[|past|..] == entries[|past|..] + [log[|entries|]];
        n := n + 1;
      }
      DueSplit(queue, n);
    }

    /** A request of `job` succeeded. */
    method Store(job: Job, used: Option<nat>) returns (at: real)
      requires Linked()
      modifies this`successes, this`jobs, this`log, this`calls, limiter, clock
      ensures Linked() && old(clock.now) <= at == clock.now
      ensures successes == Numbers.SaturatingAdd(old(successes), 1)
      ensures jobs == old(jobs) + [Job(job.symbol, at + setup.interval)]
      ensures log == old(log) + [Succeeded(job.symbol, at)] && calls == old(calls) + Observed(used, at)
    {
      if used.Some? {
        limiter.ObserveUsedWeight(used.value);
      }
      successes := Numbers.SaturatingAdd(successes, 1);
      at := clock.Read();
      jobs := jobs + [Job(job.symbol, at + setup.interval)];
      log := log + [Succeeded(job.symbol, at)];
      if used.Some? {
        AfterAppend(setup.start, calls, Observes(used.value, at));
      } else {
        assert calls + Observed(used, at) == calls;
      }
      calls := calls + Observed(used, at);
    }

    /** A request of `job` failed. */
    method Refuse(job: Job, first: nat, second: nat) returns (at: real)
      requires Linked()
      modifies this`jobs, this`log, this`calls, limiter, clock
      ensures Linked() && old(clock.now) <= at <= clock.now
      ensures var retry := RetrySeconds(Refused(first, second));
        && jobs == old(jobs) + [Job(job.symbol, at + Numbers.Min(retry, 300) as real)]
        && log == old(log) + [Failed(job.symbol, at, retry)]
        && calls == old(calls) + [Pauses(Numbers.Min(retry, 60) as real, clock.now)]
    {
      var retry := if first > 0 then second else 30;
      at := clock.Read();
      jobs := jobs + [Job(job.symbol, at + Numbers.Min(retry, 300) as real)];
      var paused := clock.Read();
      limiter.Pause(Numbers.Min(retry, 60) as real, paused);
      log := log + [Failed(job.symbol, at, retry)];
      AfterAppend(setup.start, calls, Pauses(Numbers.Min(retry, 60) as real, paused));
      calls := calls + [Pauses(Numbers.Min(retry, 60) as real, paused)];
    }

    /** The request of `active[i]` ends. */
    method Finish(i: nat, outcome: Outcome) returns (at: real)
      requires Valid() && i < |active|
      modifies this, limiter, clock
      ensures Valid() && old(clock.now) <= at <= clock.now
      ensures State() == Finished(old(State()), i, outcome, at, clock.now, setup.interval)
    {
      ghost var before, now := State(), clock.now;
      var job := active[i];
      active := Without(active, i);
      match outcome {
        case Stored(used) =>
          at := Store(job, used);
        case Refused(first, second) =>
          at := Refuse(job, first, second);
      }
      assert State() == Finished(before, i, outcome, at, clock.now, setup.interval);
      FinishKeeps(before, setup, i, outcome, now, at, clock.now);
    }

    /** Nothing is in flight: sleeps until the front job is due, the limiter may admit it or 5
        seconds have passed, whichever is first, and does not sleep only if it waits for nothing. */
    method Rest(limiterWait: real) returns (reading: real, duration: real)
      requires Valid() && jobs != [] && 0.0 <= limiterWait
      modifies clock
      ensures Valid() && old(clock.now) <= reading && reading + duration <= clock.now && 0.0 <= duration <= 5.0
      ensures jobs[0].nextRun > reading ==> reading + duration <= jobs[0].nextRun
      ensures limiterWait > 0.0 ==> duration <= limiterWait
      ensures duration == 5.0 || reading + duration == jobs[0].nextRun || duration == limiterWait
      ensures duration == 0.0 ==> jobs[0].nextRun <= reading && limiterWait == 0.0
    {
      ghost var now := clock.now;
      reading := clock.Read();
      var due := Max(jobs[0].nextRun - reading, 0.0);
      duration := due;
      if limiterWait != 0.0 {
        duration := if due == 0.0 then limiterWait else Min(due, limiterWait);
      }
      duration := Min(duration, 5.0);
      clock.Sleep(duration);
      LaterKeeps(State(), setup, now, clock.now);
    }

    /** Sorts the queue and starts what may start. */
    method Launch() returns (limiterWait: real, ghost due: seq<Job>, ghost n: nat)
      requires Valid()
      modifies this`jobs, this`active, this`log, this`calls, limiter, clock
      ensures Valid() && old(clock.now) <= clock.now && 0.0 <= limiterWait
      ensures Launches(old(Now()), Now(), setup, due, n) && |log| == |old(log)| + n
      ensures active == old(active) + due[..n] && jobs == due[n..]
      ensures limiterWait > 0.0 ==> jobs != [] && jobs[0].nextRun <= clock.now
    {
      hide Kept, Level, StartsOf, ByDue, Linked, RefusedAt, Launches, Open;
      Sort();
      due := jobs;
      ghost var sorted := Now();
      limiterWait := LaunchDue();
      n := |active| - |sorted.plan.active|;
      OpenSame(old(Now()), sorted, setup);
      LaunchesOf(old(Now()), Now(), setup, due, n);
    }

    /** One round of the scheduler's loop. */
    method Round(turn: Turn) returns (ghost due: seq<Job>, ghost n: nat)
      requires Valid()
      modifies this, limiter, clock
      ensures Valid() && RoundDone(old(Now()), Now(), turn, setup, due, n)
    {
      hide Kept, Level, Launches, EndsOne, Finished, Linked;
      var limiterWait;
      limiterWait, due, n := Launch();
      ghost var launched := Now();
      if active != [] {
        var i := turn.pick % |active|;
        var at := Finish(i, turn.outcome);
        FinishedEnds(launched.plan, i, turn.outcome, at, clock.now, setup.interval);
      } else if jobs != [] {
        var _, _ := Rest(limiterWait);
      }
      LaunchesStill(old(Now()), launched, setup, due, n, Now());
      LaunchesParts(old(Now()), Now(), setup, due, n);
    }

    /** Any number of rounds, whatever ends when. */
    method Run(turns: seq<Turn>) returns (ghost moments: seq<Moment>)
      requires Valid()
      modifies this, limiter, clock
      ensures Valid() && |moments| == |turns| + 1 && moments[0] == old(Now()) && moments[|turns|] == Now()
      ensures forall k :: 0 <= k < |turns| ==> SomeRound(moments[k], moments[k + 1], turns[k], setup)
    {
      moments := [Now()];
      for k := 0 to |turns|
        invariant Valid() && |moments| == k + 1 && moments[0] == old(Now()) && moments[k] == Now()
        invariant forall i :: 0 <= i < k ==> SomeRound(moments[i], moments[i + 1], turns[i], setup)
      {
        hide RoundDone, Kept;
        ghost var due, n := Round(turns[k]);
        assert SomeRound(moments[k], Now(), turns[k], setup);
        moments := moments + [Now()];
      }
    }
  }
}
