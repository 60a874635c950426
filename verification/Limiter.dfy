/**
 The weighted token bucket of the snapshot scheduler, over real-valued time and tokens.
 */
module Limiter {
  import opened Wrappers

  datatype Bucket = Bucket(capacity: real, tokens: real, rate: real, lastRefill: real, pausedUntil: Option<real>)

  const WEIGHT_FRACTION := 0.80

  function Min(a: real, b: real): real {
    if a <= b then a else b
  }

  function Max(a: real, b: real): real {
    if a <= b then b else a
  }

  predicate BucketValid(b: Bucket) {
    0.0 <= b.tokens <= b.capacity && 0.0 < b.rate
  }

  /** What a span of time refills. */
  function Gain(elapsed: real, rate: real): real {
    elapsed * rate
  }

  /** The tokens at time `now`, if nothing happens until then. */
  function Level(b: Bucket, now: real): real {
    Min(b.tokens + Gain(Max(now - b.lastRefill, 0.0), b.rate), b.capacity)
  }

  function Refill(b: Bucket, now: real): Bucket {
    b.(tokens := Level(b, now), lastRefill := now)
  }

  predicate Paused(b: Bucket, now: real) {
    b.pausedUntil.Some? && now < b.pausedUntil.value
  }

  /** Admits the weight and returns zero, or returns how long to wait. */
  function Ask(b: Bucket, weight: nat, now: real): (Bucket, real)
    requires b.rate > 0.0
  {
    var r := Refill(b, now);
    if Paused(b, now) then (r, b.pausedUntil.value - now)
    else
      var u := r.(pausedUntil := None);
      var needed := weight as real - u.tokens;
      if needed <= 0.0 then (u.(tokens := u.tokens - weight as real), 0.0)
      else (u, needed / u.rate)
  }

  function Hold(b: Bucket, duration: real, now: real): Bucket {
    b.(pausedUntil := Some(now + duration))
  }

  function Observe(b: Bucket, used: nat): Bucket {
    b.(tokens := Min(b.tokens, Max(b.capacity - used as real, 0.0)))
  }

  // ---------------------------------------------------------------------------------------
  // Runs of calls

  datatype Call = Asks(weight: nat, at: real) | Pauses(duration: real, at: real) | Observes(used: nat, at: real)

  function Step(b: Bucket, call: Call): Bucket
    requires b.rate > 0.0
  {
    match call
    case Asks(weight, at) => Ask(b, weight, at).0
    case Pauses(duration, at) => Hold(b, duration, at)
    case Observes(used, _) => Observe(b, used)
  }

  /** The weight a call is granted. */
  function Granted(b: Bucket, call: Call): nat
    requires b.rate > 0.0
  {
    if call.Asks? && Ask(b, call.weight, call.at).1 == 0.0 then call.weight else 0
  }

  predicate Ordered(calls: seq<Call>) {
    forall i, j :: 0 <= i < j < |calls| ==> calls[i].at <= calls[j].at
  }

  function After(b: Bucket, calls: seq<Call>): (r: Bucket)
    requires b.rate > 0.0
    ensures r.rate == b.rate && r.capacity == b.capacity
    decreases |calls|
  {
    if calls == [] then b else After(Step(b, calls[0]), calls[1..])
  }

  /** The weight granted to the calls that fall into the window [s, t]. */
  function Admitted(b: Bucket, calls: seq<Call>, s: real, t: real): nat
    requires b.rate > 0.0
    decreases |calls|
  {
    if calls == [] then 0
    else
      (if s <= calls[0].at <= t then Granted(b, calls[0]) else 0) + Admitted(Step(b, calls[0]), calls[1..], s, t)
  }

  lemma {:induction false} AfterAppend(b: Bucket, calls: seq<Call>, call: Call)
    requires b.rate > 0.0
    ensures After(b, calls + [call]) == Step(After(b, calls), call)
    decreases |calls|
  {
    if calls == [] {
      assert After(Step(b, call), []) == Step(b, call);
    } else {
      assert (calls + [call])[1..] == calls[1..] + [call];
      AfterAppend(Step(b, calls[0]), calls[1..], call);
    }
  }

  lemma {:induction false} AdmittedAppend(b: Bucket, calls: seq<Call>, call: Call, s: real, t: real)
    requires b.rate > 0.0
    ensures Admitted(b, calls + [call], s, t)
         == Admitted(b, calls, s, t) + (if s <= call.at <= t then Granted(After(b, calls), call) else 0)
    decreases |calls|
  {
    if calls == [] {
      assert Admitted(Step(b, call), [], s, t) == 0;
    } else {
      assert (calls + [call])[1..] == calls[1..] + [call];
      AdmittedAppend(Step(b, calls[0]), calls[1..], call, s, t);
    }
  }

  // ---------------------------------------------------------------------------------------
  // Bounds

  lemma TimesMonotone(a: real, b: real, rate: real)
    requires a <= b && 0.0 <= rate
    ensures a * rate <= b * rate
  {
  }

  lemma TimesStrict(a: real, b: real, rate: real)
    requires a < b && 0.0 < rate
    ensures a * rate < b * rate
  {
    assert 0.0 < (b - a) * rate;
  }

  lemma GainPositive(elapsed: real, rate: real)
    requires 0.0 <= elapsed && 0.0 <= rate
    ensures 0.0 <= Gain(elapsed, rate)
  {
  }

  lemma GainSplits(from: real, mid: real, to: real, rate: real)
    ensures Gain(to - from, rate) == Gain(mid - from, rate) + Gain(to - mid, rate)
  {
  }

  lemma LevelBounds(b: Bucket, now: real)
    requires BucketValid(b)
    ensures 0.0 <= Level(b, now) <= b.capacity
  {
    hide Gain;
    GainPositive(Max(now - b.lastRefill, 0.0), b.rate);
  }

  /** Tokens never leave [0, capacity]. */
  lemma StepValid(b: Bucket, call: Call)
    requires BucketValid(b)
    ensures BucketValid(Step(b, call))
  {
    hide Gain;
    LevelBounds(b, call.at);
  }

  lemma {:induction false} AlwaysValid(b: Bucket, calls: seq<Call>)
    requires BucketValid(b)
    ensures BucketValid(After(b, calls))
    decreases |calls|
  {
    hide Gain;
    if calls != [] {
      var next, rest := Step(b, calls[0]), calls[1..];
      StepValid(b, calls[0]);
      AlwaysValid(next, rest);
      assert After(b, calls) == After(next, rest);
    }
  }

  /** The deadline that call `i` set stands until a later call sets another. */
  lemma {:induction false} PauseStands(b: Bucket, calls: seq<Call>, i: nat, j: nat)
    requires b.rate > 0.0 && i < j <= |calls| && calls[i].Pauses?
    requires forall k :: i < k < j ==> !calls[k].Pauses? && calls[k].at < calls[i].at + calls[i].duration
    ensures After(b, calls[..j]).pausedUntil == Some(calls[i].at + calls[i].duration)
  {
    assert calls[..j] == calls[..j - 1] + [calls[j - 1]];
    AfterAppend(b, calls[..j - 1], calls[j - 1]);
    if i < j - 1 {
      PauseStands(b, calls, i, j - 1);
    }
  }

  /** Over any ordered calls, nothing is admitted before the deadline of the latest pause, and the
      wait that a refused request is told ends there. */
  lemma PauseHolds(b: Bucket, calls: seq<Call>, i: nat, j: nat)
    requires b.rate > 0.0 && Ordered(calls) && i < j < |calls| && calls[i].Pauses? && calls[j].Asks?
    requires (forall k :: i < k < j ==> !calls[k].Pauses?) && calls[j].at < calls[i].at + calls[i].duration
    ensures Granted(After(b, calls[..j]), calls[j]) == 0
    ensures calls[j].at + Ask(After(b, calls[..j]), calls[j].weight, calls[j].at).1 == calls[i].at + calls[i].duration
  {
    PauseStands(b, calls, i, j);
  }

  /** The level grows at most at the refill rate. */
  lemma LevelGrows(b: Bucket, from: real, to: real)
    requires BucketValid(b) && b.lastRefill <= from <= to
    ensures Level(b, to) <= Level(b, from) + Gain(to - from, b.rate)
  {
    hide Gain;
    GainSplits(b.lastRefill, from, to, b.rate);
    GainPositive(to - from, b.rate);
  }

  /** Just refilled, the level is what is there. */
  lemma LevelNow(b: Bucket)
    requires BucketValid(b)
    ensures Level(b, b.lastRefill) == b.tokens
  {
    assert Gain(0.0, b.rate) == 0.0;
  }

  /** What one call grants comes out of the level. */
  lemma StepLevel(b: Bucket, call: Call)
    requires BucketValid(b) && b.lastRefill <= call.at
    ensures Granted(b, call) as real + Level(Step(b, call), call.at) <= Level(b, call.at)
  {
    hide Gain;
    StepValid(b, call);
    GainPositive(call.at - b.lastRefill, b.rate);
    if call.Asks? {
      LevelNow(Step(b, call));
    }
  }

  lemma StepRefilled(b: Bucket, call: Call, now: real)
    requires b.rate > 0.0 && b.lastRefill <= now && call.at <= now
    ensures Step(b, call).lastRefill <= now
  {
  }

  /** No call comes before `from`. */
  predicate NotBefore(calls: seq<Call>, from: real) {
    forall i :: 0 <= i < |calls| ==> from <= calls[i].at
  }

  lemma TailOrdered(calls: seq<Call>)
    requires calls != [] && Ordered(calls)
    ensures Ordered(calls[1..]) && NotBefore(calls[1..], calls[0].at)
  {
  }

  /** What may still be granted up to time `t`, seen at time `s`. */
  function Budget(b: Bucket, s: real, t: real): real {
    Level(b, s) + Gain(t - s, b.rate)
  }

  lemma StepSettings(b: Bucket, call: Call)
    requires b.rate > 0.0
    ensures Step(b, call).rate == b.rate && Step(b, call).capacity == b.capacity
  {
  }

  lemma BudgetStep(b: Bucket, call: Call, s: real, t: real)
    requires BucketValid(b) && b.lastRefill <= s <= call.at <= t
    ensures Granted(b, call) as real + Budget(Step(b, call), call.at, t) <= Budget(b, s, t)
  {
    hide Gain, Level;
    StepLevel(b, call);
    LevelGrows(b, s, call.at);
    StepSettings(b, call);
    GainSplits(s, call.at, t, b.rate);
  }

  lemma BudgetPositive(b: Bucket, s: real, t: real)
    requires BucketValid(b) && s <= t
    ensures 0.0 <= Budget(b, s, t) <= b.capacity + Gain(t - s, b.rate)
  {
    hide Gain, Level;
    LevelBounds(b, s);
    GainPositive(t - s, b.rate);
  }

  lemma {:induction false} NoneAfter(b: Bucket, calls: seq<Call>, s: real, t: real)
    requires b.rate > 0.0 && forall i :: 0 <= i < |calls| ==> t < calls[i].at
    ensures Admitted(b, calls, s, t) == 0
    decreases |calls|
  {
    if calls != [] {
      NoneAfter(Step(b, calls[0]), calls[1..], s, t);
    }
  }

  /** From time `from` on, the calls up to time `t` are granted no more than the budget. */
  lemma {:induction false} SpendBound(b: Bucket, calls: seq<Call>, s: real, from: real, t: real)
    requires BucketValid(b) && Ordered(calls) && s <= from <= t && b.lastRefill <= from && NotBefore(calls, from)
    ensures Admitted(b, calls, s, t) as real <= Budget(b, from, t)
    decreases |calls|
  {
    hide Gain, Level;
    BudgetPositive(b, from, t);
    if calls != [] {
      var call := calls[0];
      TailOrdered(calls);
      if t < call.at {
        NoneAfter(b, calls, s, t);
      } else {
        StepValid(b, call);
        StepRefilled(b, call, call.at);
        SpendBound(Step(b, call), calls[1..], s, call.at, t);
        BudgetStep(b, call, from, t);
      }
    }
  }

  lemma FromStart(b: Bucket, calls: seq<Call>, s: real, t: real)
    requires BucketValid(b) && Ordered(calls) && s <= t && b.lastRefill <= s && NotBefore(calls, s)
    ensures Admitted(b, calls, s, t) as real <= b.capacity + Gain(t - s, b.rate)
  {
    hide Gain, Level;
    SpendBound(b, calls, s, s, t);
    BudgetPositive(b, s, t);
  }

  /** The calls that come before time `s`. */
  function Early(calls: seq<Call>, s: real): (k: nat)
    ensures k <= |calls| && (forall i :: 0 <= i < k ==> calls[i].at < s) && (k < |calls| ==> s <= calls[k].at)
  {
    if calls == [] || s <= calls[0].at then 0 else 1 + Early(calls[1..], s)
  }

  lemma {:induction false} EarlySkipped(b: Bucket, calls: seq<Call>, s: real, t: real)
    requires b.rate > 0.0
    ensures var k := Early(calls, s);
      Admitted(b, calls, s, t) == Admitted(After(b, calls[..k]), calls[k..], s, t)
    decreases |calls|
  {
    var k := Early(calls, s);
    if k == 0 {
      assert calls[..0] == [] && calls[0..] == calls;
    } else {
      EarlySkipped(Step(b, calls[0]), calls[1..], s, t);
      assert calls[..k][1..] == calls[1..][..k - 1] && calls[k..] == calls[1..][k - 1..];
    }
  }

  lemma {:induction false} RefilledBefore(b: Bucket, calls: seq<Call>, now: real)
    requires b.rate > 0.0 && b.lastRefill <= now && forall i :: 0 <= i < |calls| ==> calls[i].at <= now
    ensures After(b, calls).lastRefill <= now
    decreases |calls|
  {
    if calls != [] {
      StepRefilled(b, calls[0], now);
      RefilledBefore(Step(b, calls[0]), calls[1..], now);
    }
  }

  lemma WindowGain(b: Bucket, calls: seq<Call>, s: real, t: real)
    requires BucketValid(b) && b.lastRefill <= s <= t && Ordered(calls)
    ensures Admitted(b, calls, s, t) as real <= b.capacity + Gain(t - s, b.rate)
  {
    hide Gain, Level, Step;
    var k := Early(calls, s);
    var before, rest, after := calls[..k], calls[k..], After(b, calls[..k]);
    EarlySkipped(b, calls, s, t);
    AlwaysValid(b, before);
    RefilledBefore(b, before, s);
    assert NotBefore(rest, s) && Ordered(rest);
    FromStart(after, rest, s, t);
  }

  /** The window bound: over any run of calls at non-decreasing times, the weight admitted in any
      window [s, t] is at most the capacity plus what the window refills. */
  lemma WindowBound(b: Bucket, calls: seq<Call>, s: real, t: real)
    requires BucketValid(b) && b.lastRefill <= s <= t && Ordered(calls)
    ensures Admitted(b, calls, s, t) as real <= b.capacity + (t - s) * b.rate
  {
    hide Admitted, Early, After, Step, Level, Ordered;
    WindowGain(b, calls, s, t);
  }

  // ---------------------------------------------------------------------------------------
  // The returned wait

  lemma Quotient(x: real, rate: real, d: real)
    requires 0.0 < rate
    ensures d >= x / rate <==> Gain(d, rate) >= x
  {
    var q := x / rate;
    assert q * rate == x;
    if d >= q {
      TimesMonotone(q, d, rate);
    } else {
      TimesStrict(d, q, rate);
    }
  }

  lemma QuotientSign(x: real, rate: real)
    requires 0.0 < rate && 0.0 < x
    ensures 0.0 < x / rate
  {
  }

  lemma WaitPositive(b: Bucket, weight: nat, now: real)
    requires BucketValid(b)
    ensures 0.0 <= Ask(b, weight, now).1
  {
    hide Gain, Level;
    var missing := weight as real - Level(b, now);
    if !Paused(b, now) && missing > 0.0 {
      QuotientSign(missing, b.rate);
      assert Ask(b, weight, now).1 == missing / b.rate;
    }
  }

  /** An unpaused request is granted exactly when the level covers it. */
  lemma AskGranted(b: Bucket, weight: nat, now: real)
    requires BucketValid(b) && !Paused(b, now)
    ensures Ask(b, weight, now).1 == 0.0 <==> weight as real <= Level(b, now)
  {
    hide Gain, Level;
    var missing := weight as real - Level(b, now);
    if missing > 0.0 {
      QuotientSign(missing, b.rate);
    }
  }

  /** The request would be granted. */
  predicate Admits(b: Bucket, weight: nat, now: real) {
    !Paused(b, now) && weight as real <= Level(b, now)
  }

  lemma LevelMonotone(b: Bucket, now: real, later: real)
    requires BucketValid(b) && now <= later
    ensures Level(b, now) <= Level(b, later)
  {
    var early, late := Max(now - b.lastRefill, 0.0), Max(later - b.lastRefill, 0.0);
    TimesMonotone(early, late, b.rate);
    assert Gain(early, b.rate) <= Gain(late, b.rate);
    hide Gain;
  }

  /** Admission is not lost by waiting. */
  lemma AdmitsLater(b: Bucket, weight: nat, now: real, later: real)
    requires BucketValid(b) && Admits(b, weight, now) && now <= later
    ensures Admits(b, weight, later) && Ask(b, weight, later).1 == 0.0
  {
    LevelMonotone(b, now, later);
    AskGranted(b, weight, later);
  }

  /** What the exchange reports as used is not granted again: right after the report a request is
      granted exactly if it was before and the capacity covers both. */
  lemma ObserveExactly(b: Bucket, used: nat, weight: nat)
    requires BucketValid(b) && weight > 0
    ensures Admits(Observe(b, used), weight, b.lastRefill) <==>
      Admits(b, weight, b.lastRefill) && (used + weight) as real <= b.capacity
  {
    LevelNow(b);
    StepValid(b, Observes(used, b.lastRefill));
    LevelNow(Observe(b, used));
  }

  /** And up to any later time at most what the capacity leaves, and what is refilled. */
  lemma ObservedBound(b: Bucket, used: nat, calls: seq<Call>, at: real, t: real)
    requires BucketValid(b) && b.lastRefill <= at <= t && Ordered(calls) && NotBefore(calls, at)
    ensures Admitted(Observe(b, used), calls, at, t) as real
         <= Max(b.capacity - used as real, 0.0) + Gain(t - b.lastRefill, b.rate)
  {
    hide Gain, Level;
    var after := Observe(b, used);
    StepValid(b, Observes(used, at));
    SpendBound(after, calls, at, at, t);
    LevelGrows(after, b.lastRefill, at);
    LevelNow(after);
    GainSplits(b.lastRefill, at, t, b.rate);
  }

  /** What a refusal leaves and says. */
  lemma RefusedAsk(b: Bucket, weight: nat, now: real)
    requires BucketValid(b) && !Paused(b, now) && Ask(b, weight, now).1 > 0.0
    ensures var (after, wait) := Ask(b, weight, now);
      && BucketValid(after) && after.lastRefill == now && after.pausedUntil.None?
      && after.rate == b.rate && after.capacity == b.capacity
      && after.tokens < weight as real && wait == (weight as real - after.tokens) / b.rate
  {
    hide Gain, Level;
    LevelBounds(b, now);
  }

  /** A refused request of a weight within the capacity is granted after a delay exactly when
      the delay is at least the returned wait; one above the capacity never is. */
  lemma WaitIsLeast(b: Bucket, weight: nat, now: real, delay: real)
    requires BucketValid(b) && b.lastRefill <= now && !Paused(b, now) && 0.0 <= delay
    requires Ask(b, weight, now).1 > 0.0
    ensures var (after, wait) := Ask(b, weight, now);
      Ask(after, weight, now + delay).1 == 0.0 <==> weight as real <= b.capacity && wait <= delay
  {
    hide Gain, Ask;
    var (after, wait) := Ask(b, weight, now);
    RefusedAsk(b, weight, now);
    AskGranted(after, weight, now + delay);
    assert Max(now + delay - after.lastRefill, 0.0) == delay;
    Quotient(weight as real - after.tokens, after.rate, delay);
  }

  // ---------------------------------------------------------------------------------------
  // The object the scheduler updates

  class WeightedLimiter {
    const capacity: real
    const rate: real
    var tokens: real
    var lastRefill: real
    var pausedUntil: Option<real>

    function State(): Bucket
      reads this
    {
      Bucket(capacity, tokens, rate, lastRefill, pausedUntil)
    }

    ghost predicate Valid()
      reads this
    {
      BucketValid(State())
    }

    constructor (weightPerMinute: nat, now: real)
      requires weightPerMinute > 0
      ensures Valid() && tokens == capacity == weightPerMinute as real * WEIGHT_FRACTION
      ensures rate * 60.0 == capacity && lastRefill == now && pausedUntil == None
    {
      var budget := weightPerMinute as real * WEIGHT_FRACTION;
      capacity, tokens, rate := budget, budget, budget / 60.0;
      lastRefill, pausedUntil := now, None;
    }

    method WaitFor(weight: nat, now: real) returns (wait: real)
      requires Valid()
      modifies this
      ensures Valid() && (State(), wait) == Ask(old(State()), weight, now)
    {
      StepValid(State(), Asks(weight, now));
      tokens := Min(tokens + Gain(Max(now - lastRefill, 0.0), rate), capacity);
      lastRefill := now;
      assert State() == Refill(old(State()), now);
      if pausedUntil.Some? {
        if pausedUntil.value > now {
          return pausedUntil.value - now;
        }
        pausedUntil := None;
      }
      var needed := weight as real - tokens;
      if needed <= 0.0 {
        tokens := tokens - weight as real;
        return 0.0;
      }
      return needed / rate;
    }

    method Pause(duration: real, now: real)
      requires Valid()
      modifies this
      ensures Valid() && State() == Hold(old(State()), duration, now)
    {
      pausedUntil := Some(now + duration);
    }

    method ObserveUsedWeight(used: nat)
      requires Valid()
      modifies this
      ensures Valid() && State() == Observe(old(State()), used)
    {
      tokens := Min(tokens, Max(capacity - used as real, 0.0));
    }
  }
}
