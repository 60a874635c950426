/**
 When the lock keeps compaction runs apart. A run that finds the lock object older than the cut
 deletes whatever object is there later and takes the lock itself. The lock excludes exactly as
 long as no such deletion happens while a run is at work; that holds when every run ends within
 the cut and every deletion removes the object that was found stale.
 */
module LockSafety {
  import opened Bucket
  import opened Wrappers

  // ---------------------------------------------------------------------------------------
  // The exact condition

  ghost predicate AtWork(s: State, pid: nat) {
    pid in s.procs && Critical(s.procs[pid])
  }

  /** Two runs are between taking and giving up the lock. */
  ghost predicate Crowded(s: State) {
    exists p, q :: p != q && AtWork(s, p) && AtWork(s, q)
  }

  /** Events that are possible one after the other from `s` on, none of them a takeover. */
  ghost predicate GoesOn(s: State, ts: seq<State>, fs: seq<Event>) {
    && |ts| == |fs| + 1 && ts[0] == s
    && forall i :: 0 <= i < |fs| ==> StepAt(ts, fs, i) && !TakesOver(ts[i], fs[i])
  }

  lemma {:induction false} GoesOnKeeps(s: State, ts: seq<State>, fs: seq<Event>, i: nat)
    requires LockInv(s) && GoesOn(s, ts, fs) && i <= |fs|
    ensures LockInv(ts[i])
  {
    if i > 0 {
      GoesOnKeeps(s, ts, fs, i - 1);
      assert StepAt(ts, fs, i - 1) && !TakesOver(ts[i - 1], fs[i - 1]);
      LockKept(ts[i - 1], fs[i - 1]);
    }
  }

  lemma {:induction false} Unused(pids: set<nat>) returns (pid: nat)
    ensures forall other <- pids :: other < pid
  {
    if pids == {} {
      pid := 0;
    } else {
      var one :| one in pids;
      var rest := Unused(pids - {one});
      pid := if one < rest then rest else one + 1;
      assert pids == pids - {one} + {one};
    }
  }

  /** After a takeover that disregards a run at work, the next run joins it. */
  lemma JoinsAfterTakeover(s: State, e: Event, p: nat) returns (ts: seq<State>, fs: seq<Event>)
    requires Enabled(s, e) && TakesOver(s, e) && AtWork(s, p)
    ensures GoesOn(Apply(s, e), ts, fs) && Crowded(ts[|fs|])
    ensures exists q :: fs == [Spawn(q), Inspect(q, true), PutLock(q, Success)]
  {
    var t := Apply(s, e);
    var q := Unused(t.procs.Keys);
    assert q !in t.procs && t.lock.None? && AtWork(t, p);
    var t1 := Apply(t, Spawn(q));
    var t2 := Apply(t1, Inspect(q, true));
    var t3 := Apply(t2, PutLock(q, Success));
    ts, fs := [t, t1, t2, t3], [Spawn(q), Inspect(q, true), PutLock(q, Success)];
    assert AtWork(t3, p) && AtWork(t3, q);
  }

  /** Mutual exclusion, exactly: no lock object was removed from under a run at work if and only
      if no state of the run can go on, without a further takeover, to two runs at work. */
  lemma TakeoverExact(ss: seq<State>, es: seq<Event>)
    requires IsRun(ss, es)
    ensures SafeTakeovers(ss, es) <==>
      forall k: nat, ts, fs :: k <= |es| && GoesOn(ss[k], ts, fs) ==> !Crowded(ts[|fs|])
  {
    if SafeTakeovers(ss, es) {
      forall k: nat, ts, fs | k <= |es| && GoesOn(ss[k], ts, fs) ensures !Crowded(ts[|fs|]) {
        LockHolds(ss, es, k);
        GoesOnKeeps(ss[k], ts, fs, |fs|);
      }
    } else {
      var i :| 0 <= i < |es| && TakesOver(ss[i], es[i]) && !NoneCritical(ss[i]);
      var p :| p in ss[i].procs && Critical(ss[i].procs[p]);
      assert StepAt(ss, es, i) && AtWork(ss[i], p);
      var ts, fs := JoinsAfterTakeover(ss[i], es[i], p);
      assert GoesOn(ss[i + 1], ts, fs);
    }
  }

  // ---------------------------------------------------------------------------------------
  // When a run gets the lock

  /** The run is started and every request of it is granted. */
  predicate Granted(e: Event, pid: nat, answered: bool) {
    e == Spawn(pid) || e == Inspect(pid, answered) || e == RemoveStale(pid, Success) || e == PutLock(pid, Success)
  }

  /** Nothing happens but granted requests of the run; `answered` says whether it learns of the lock. */
  ghost predicate OnItsOwn(s: State, ts: seq<State>, fs: seq<Event>, pid: nat, answered: bool) {
    && |ts| == |fs| + 1 && ts[0] == s
    && forall i :: 0 <= i < |fs| ==> StepAt(ts, fs, i) && Granted(fs[i], pid, answered)
  }

  /** Another run's lock object that is not older than 12 hours, or that the run does not learn of. */
  predicate Barred(s: State, answered: bool) {
    s.lock.Some? && !(answered && s.lock.value.modified + 43_200 < s.now)
  }

  lemma {:induction false} BarredStays(s: State, ts: seq<State>, fs: seq<Event>, i: nat, pid: nat, answered: bool)
    requires pid !in s.procs && Barred(s, answered) && OnItsOwn(s, ts, fs, pid, answered) && i <= |fs|
    ensures ts[i].lock == s.lock && ts[i].now == s.now
    ensures pid in ts[i].procs ==>
      ts[i].procs[pid].Starting? || ts[i].procs[pid].Ended? || (!answered && ts[i].procs[pid].Locking?)
  {
    if i > 0 {
      BarredStays(s, ts, fs, i - 1, pid, answered);
      assert StepAt(ts, fs, i - 1) && Granted(fs[i - 1], pid, answered);
    }
  }

  lemma Acquires(s: State, pid: nat, answered: bool) returns (ts: seq<State>, fs: seq<Event>)
    requires pid !in s.procs && !Barred(s, answered)
    ensures OnItsOwn(s, ts, fs, pid, answered) && AtWork(ts[|fs|], pid)
  {
    var s1 := Apply(s, Spawn(pid));
    var s2 := Apply(s1, Inspect(pid, answered));
    ts, fs := [s, s1, s2], [Spawn(pid), Inspect(pid, answered)];
    if s.lock.Some? {
      var s3 := Apply(s2, RemoveStale(pid, Success));
      ts, fs := ts + [s3], fs + [RemoveStale(pid, Success)];
    }
    var last := ts[|fs|];
    ts, fs := ts + [Apply(last, PutLock(pid, Success))], fs + [PutLock(pid, Success)];
  }

  /** With all its requests granted a new run comes to work if and only if there is no lock object,
      or it learns of one and finds it more than 12 hours old. */
  lemma AcquireExactly(s: State, pid: nat, answered: bool)
    requires pid !in s.procs
    ensures (exists ts, fs :: OnItsOwn(s, ts, fs, pid, answered) && AtWork(ts[|fs|], pid)) <==>
      s.lock.None? || (answered && s.lock.value.modified + 43_200 < s.now)
  {
    if Barred(s, answered) {
      forall ts, fs | OnItsOwn(s, ts, fs, pid, answered) ensures !AtWork(ts[|fs|], pid) {
        BarredStays(s, ts, fs, |fs|, pid, answered);
      }
    } else {
      var ts, fs := Acquires(s, pid, answered);
      assert OnItsOwn(s, ts, fs, pid, answered) && AtWork(ts[|fs|], pid);
    }
  }

  // ---------------------------------------------------------------------------------------
  // What a maintainer can check

  /** Every run is done with its work within the cut after it took the lock. */
  ghost predicate EndsInTime(ss: seq<State>, es: seq<Event>)
    requires |ss| == |es| + 1
  {
    forall k, i, pid :: 0 <= k < i <= |es| && es[k] == PutLock(pid, Success) && AtWork(ss[i], pid) ==>
      ss[i].now - ss[k].now <= STALE_SECONDS
  }

  /** A takeover removes the lock object that its own run inspected, or finds none. */
  ghost predicate RemovesWhatItSaw(ss: seq<State>, es: seq<Event>)
    requires |ss| == |es| + 1
  {
    forall j, i :: 0 <= j < i < |es| && es[j].Inspect? && TakesOver(ss[i], es[i]) && es[i].pid == es[j].pid ==>
      ss[i].lock.None? || ss[i].lock == ss[j].lock
  }

  /** Takeovers are safe among the first `n` events. */
  ghost predicate SafeUntil(ss: seq<State>, es: seq<Event>, n: nat)
    requires n <= |es| < |ss|
  {
    forall i :: 0 <= i < n && TakesOver(ss[i], es[i]) ==> NoneCritical(ss[i])
  }

  lemma {:induction false} LockUntil(ss: seq<State>, es: seq<Event>, n: nat)
    requires IsRun(ss, es) && n <= |es| && SafeUntil(ss, es, n)
    ensures LockInv(ss[n])
  {
    if n > 0 {
      assert StepAt(ss, es, n - 1);
      LockUntil(ss, es, n - 1);
      LockKept(ss[n - 1], es[n - 1]);
    }
  }

  /** The run whose lock object is there took it at the time the object carries. */
  ghost predicate TakenAt(ss: seq<State>, es: seq<Event>, i: nat, p: nat, k: nat)
    requires i <= |es| < |ss|
  {
    k < i && es[k] == PutLock(p, Success) && ss[i].lock == Some(Lock(p, ss[k].now))
  }

  /** One event: a run at work before and after it keeps its lock object, another one just took it. */
  lemma TakenStep(s: State, e: Event, p: nat)
    requires Enabled(s, e) && LockInv(s) && (TakesOver(s, e) ==> NoneCritical(s)) && AtWork(Apply(s, e), p)
    ensures if AtWork(s, p) then Apply(s, e).lock == s.lock
            else e == PutLock(p, Success) && Apply(s, e).lock == Some(Lock(p, s.now))
  {
  }

  lemma {:induction false} OwnerTook(ss: seq<State>, es: seq<Event>, i: nat, p: nat) returns (k: nat)
    requires IsRun(ss, es) && i <= |es| && SafeUntil(ss, es, i) && AtWork(ss[i], p)
    ensures TakenAt(ss, es, i, p, k)
  {
    assert i > 0;
    assert StepAt(ss, es, i - 1);
    LockUntil(ss, es, i - 1);
    TakenStep(ss[i - 1], es[i - 1], p);
    if AtWork(ss[i - 1], p) {
      k := OwnerTook(ss, es, i - 1, p);
    } else {
      k := i - 1;
    }
  }

  /** A run about to remove the lock found it stale. */
  ghost predicate SawStale(ss: seq<State>, es: seq<Event>, i: nat, pid: nat, j: nat)
    requires i <= |es| < |ss|
  {
    j < i && es[j] == Inspect(pid, true) && LockIsStale(ss[j]) && ss[j].now <= ss[i].now
  }

  lemma RemovingStep(s: State, e: Event, pid: nat)
    requires Enabled(s, e) && pid in Apply(s, e).procs && Apply(s, e).procs[pid].Removing?
    ensures s.now <= Apply(s, e).now
    ensures (pid in s.procs && s.procs[pid].Removing?) || (e == Inspect(pid, true) && LockIsStale(s))
  {
  }

  lemma {:induction false} RemoverSaw(ss: seq<State>, es: seq<Event>, i: nat, pid: nat) returns (j: nat)
    requires IsRun(ss, es) && i <= |es| && pid in ss[i].procs && ss[i].procs[pid].Removing?
    ensures SawStale(ss, es, i, pid, j)
  {
    assert i > 0;
    var s, e := ss[i - 1], es[i - 1];
    assert StepAt(ss, es, i - 1);
    RemovingStep(s, e, pid);
    if pid in s.procs && s.procs[pid].Removing? {
      j := RemoverSaw(ss, es, i - 1, pid);
    } else {
      j := i - 1;
    }
  }

  lemma SafeStep(ss: seq<State>, es: seq<Event>, i: nat)
    requires IsRun(ss, es) && EndsInTime(ss, es) && RemovesWhatItSaw(ss, es)
    requires i < |es| && SafeUntil(ss, es, i) && TakesOver(ss[i], es[i])
    ensures NoneCritical(ss[i])
  {
    var s, pid := ss[i], es[i].pid;
    assert StepAt(ss, es, i);
    var j := RemoverSaw(ss, es, i, pid);
    LockUntil(ss, es, i);
    forall p ensures !AtWork(s, p) {
      if AtWork(s, p) {
        var k := OwnerTook(ss, es, i, p);
      }
    }
    assert forall p <- s.procs :: !AtWork(s, p);
  }

  lemma {:induction false} SafeAllAlong(ss: seq<State>, es: seq<Event>, n: nat)
    requires IsRun(ss, es) && EndsInTime(ss, es) && RemovesWhatItSaw(ss, es) && n <= |es|
    ensures SafeUntil(ss, es, n)
  {
    if n > 0 {
      SafeAllAlong(ss, es, n - 1);
      if TakesOver(ss[n - 1], es[n - 1]) {
        SafeStep(ss, es, n - 1);
      }
    }
  }

  /** Runs that end within the cut, and takeovers that remove what they saw, are safe; a crashed
      run may be recovered from. */
  lemma TimelyRunsAreSafe(ss: seq<State>, es: seq<Event>)
    requires IsRun(ss, es) && EndsInTime(ss, es) && RemovesWhatItSaw(ss, es)
    ensures SafeTakeovers(ss, es)
  {
    SafeAllAlong(ss, es, |es|);
  }

  /** No run ever inspects a lock object past the staleness cut. */
  ghost predicate NeverStale(ss: seq<State>, es: seq<Event>)
    requires |ss| == |es| + 1
  {
    forall i :: 0 <= i < |es| && es[i].Inspect? && es[i].answered ==> !LockIsStale(ss[i])
  }

  /** While locks stay younger than the cut, nothing is taken over. */
  lemma NeverStaleIsSafe(ss: seq<State>, es: seq<Event>)
    requires IsRun(ss, es) && NeverStale(ss, es)
    ensures SafeTakeovers(ss, es)
  {
    forall i | 0 <= i < |es| ensures !TakesOver(ss[i], es[i]) {
      assert StepAt(ss, es, i);
      if TakesOver(ss[i], es[i]) {
        var j := RemoverSaw(ss, es, i, es[i].pid);
      }
    }
  }

  // ---------------------------------------------------------------------------------------
  // Neither condition can be missed

  const SLOW := STALE_SECONDS + 1

  function Locked(now: int, owner: nat, since: int, procs: map<nat, Proc>): State {
    State(now, Some(Lock(owner, since)), map[], procs)
  }

  function Unlocked(now: int, procs: map<nat, Proc>): State {
    State(now, None, map[], procs)
  }

  /** Run 0 takes the lock and is still at work when run 1 finds the lock stale and takes it. */
  function SlowStates(): seq<State> {
    [Unlocked(0, map[]), Unlocked(0, map[0 := Starting]), Unlocked(0, map[0 := Locking]),
     Locked(0, 0, 0, map[0 := Scanning]), Locked(SLOW, 0, 0, map[0 := Scanning]),
     Locked(SLOW, 0, 0, map[0 := Scanning, 1 := Starting]), Locked(SLOW, 0, 0, map[0 := Scanning, 1 := Removing]),
     Unlocked(SLOW, map[0 := Scanning, 1 := Locking]), Locked(SLOW, 1, SLOW, map[0 := Scanning, 1 := Scanning])]
  }

  function SlowEvents(): seq<Event> {
    [Spawn(0), Inspect(0, true), PutLock(0, Success), Tick(SLOW),
     Spawn(1), Inspect(1, true), RemoveStale(1, Success), PutLock(1, Success)]
  }

  lemma SlowSteps(i: nat)
    requires i < 8
    ensures StepAt(SlowStates(), SlowEvents(), i)
  {
  }

  /** A run that outlives the cut is joined, although the takeover removes what it saw. */
  lemma SlowRunIsJoined() returns (ss: seq<State>, es: seq<Event>)
    ensures IsRun(ss, es) && Crowded(ss[|es|])
    ensures RemovesWhatItSaw(ss, es) && !EndsInTime(ss, es)
  {
    ss, es := SlowStates(), SlowEvents();
    forall i | 0 <= i < |es| ensures StepAt(ss, es, i) {
      SlowSteps(i);
    }
    assert AtWork(ss[8], 0) && AtWork(ss[8], 1);
    assert es[2] == PutLock(0, Success) && ss[8].now - ss[2].now > STALE_SECONDS;
    assert forall i :: 0 <= i < |es| && TakesOver(ss[i], es[i]) ==> i == 6;
  }

  /** Run 0 crashed. Runs 1 and 2 both find its lock stale; run 1 removes it and takes the lock,
      then run 2 removes the lock of run 1. */
  function CollisionStates(): seq<State> {
    [Unlocked(0, map[]), Unlocked(0, map[0 := Starting]), Unlocked(0, map[0 := Locking]),
     Locked(0, 0, 0, map[0 := Scanning]), Locked(0, 0, 0, map[0 := Ended]), Locked(SLOW, 0, 0, map[0 := Ended]),
     Locked(SLOW, 0, 0, map[0 := Ended, 1 := Starting]), Locked(SLOW, 0, 0, map[0 := Ended, 1 := Removing]),
     Locked(SLOW, 0, 0, map[0 := Ended, 1 := Removing, 2 := Starting]),
     Locked(SLOW, 0, 0, map[0 := Ended, 1 := Removing, 2 := Removing]),
     Unlocked(SLOW, map[0 := Ended, 1 := Locking, 2 := Removing]),
     Locked(SLOW, 1, SLOW, map[0 := Ended, 1 := Scanning, 2 := Removing]),
     Unlocked(SLOW, map[0 := Ended, 1 := Scanning, 2 := Locking]),
     Locked(SLOW, 2, SLOW, map[0 := Ended, 1 := Scanning, 2 := Scanning])]
  }

  function CollisionEvents(): seq<Event> {
    [Spawn(0), Inspect(0, true), PutLock(0, Success), Crash(0, false, {}), Tick(SLOW),
     Spawn(1), Inspect(1, true), Spawn(2), Inspect(2, true),
     RemoveStale(1, Success), PutLock(1, Success), RemoveStale(2, Success), PutLock(2, Success)]
  }

  lemma CollisionBegins(i: nat)
    requires i < 7
    ensures StepAt(CollisionStates(), CollisionEvents(), i)
  {
  }

  lemma CollisionEnds(i: nat)
    requires 7 <= i < 13
    ensures StepAt(CollisionStates(), CollisionEvents(), i)
  {
  }

  lemma CollisionIsTimely(k: nat, i: nat, pid: nat)
    requires k < i <= 13 && CollisionEvents()[k] == PutLock(pid, Success) && AtWork(CollisionStates()[i], pid)
    ensures CollisionStates()[i].now - CollisionStates()[k].now <= STALE_SECONDS
  {
    if pid == 0 {
      assert k == 2 && i == 3;
    } else {
      assert k >= 10;
    }
  }

  lemma CollisionSteps(i: nat)
    requires i < 13
    ensures StepAt(CollisionStates(), CollisionEvents(), i)
  {
    if i < 7 {
      CollisionBegins(i);
    } else {
      CollisionEnds(i);
    }
  }

  /** Two runs that recover from one crash collide, although no run at work is a second old. */
  lemma RemoversCollide() returns (ss: seq<State>, es: seq<Event>)
    ensures IsRun(ss, es) && Crowded(ss[|es|])
    ensures EndsInTime(ss, es) && !RemovesWhatItSaw(ss, es)
  {
    ss, es := CollisionStates(), CollisionEvents();
    assert AtWork(ss[13], 1) && AtWork(ss[13], 2);
    assert TakesOver(ss[11], es[11]) && ss[11].lock != ss[8].lock && es[8].Inspect?;
    assert |ss| == |es| + 1 == 14 && Initial(ss[0]);
    hide CollisionStates, CollisionEvents, AtWork;
    forall i | 0 <= i < |es| ensures StepAt(ss, es, i) {
      CollisionSteps(i);
    }
    forall k, i, pid | 0 <= k < i <= |es| && es[k] == PutLock(pid, Success) && AtWork(ss[i], pid)
      ensures ss[i].now - ss[k].now <= STALE_SECONDS
    {
      CollisionIsTimely(k, i, pid);
    }
  }
}
