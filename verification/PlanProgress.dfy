/**
 What a compaction run does with its plan. A run that is neither refused nor interrupted compacts
 every partition it planned, in the order of the plan; a run that fails once does nothing more.
 */
module PlanProgress {
  import opened Bucket
  import opened BucketRows
  import opened Compaction

  // ---------------------------------------------------------------------------------------
  // Words for the history of one run

  /** The partitions whose attempts `pid` finished by the events from `i` up to `n`, in order. */
  function FinishedParts(ss: seq<State>, es: seq<Event>, pid: nat, i: nat, n: nat): seq<string>
    requires i <= n <= |es| < |ss|
  {
    if n == i then []
    else
      FinishedParts(ss, es, pid, i, n - 1) +
        if es[n - 1] == Finish(pid) && pid in ss[n - 1].procs && ss[n - 1].procs[pid].Working? then
          [ss[n - 1].procs[pid].part]
        else []
  }

  function PlannedParts(plan: seq<Planned>): seq<string> {
    seq(|plan|, k requires 0 <= k < |plan| => plan[k].part)
  }

  /** A request of the run failed, or the run crashed. */
  predicate Setback(e: Event, pid: nat) {
    match e
    case RemoveStale(p, reply) => p == pid && reply.Failure?
    case PutLock(p, reply) => p == pid && reply.Failure?
    case ScanFails(p) => p == pid
    case RequestFails(p, _, _) => p == pid
    case Save(p, ok) => p == pid && !ok
    case Crash(p, _, _) => p == pid
    case _ => false
  }

  ghost predicate Undisturbed(es: seq<Event>, pid: nat, i: nat, n: nat)
    requires i <= n <= |es|
  {
    forall j :: i <= j < n ==> !Setback(es[j], pid)
  }

  /** The producer put the segment in the events from `i` up to `n`. */
  ghost predicate PutSince(es: seq<Event>, i: nat, n: nat, part: string, name: string)
    requires i <= n <= |es|
  {
    exists j :: i <= j < n && es[j].Upload? && es[j].part == part && es[j].name == name
  }

  // ---------------------------------------------------------------------------------------
  // A plan is carried out

  /** The run has finished the first `|done|` partitions of its plan and stands at the next one. */
  ghost predicate OnPlan(s: State, pid: nat, plan: seq<Planned>, done: seq<string>) {
    var d := |done|;
    && pid in s.procs && d <= |plan| && done == PlannedParts(plan[..d])
    && match s.procs[pid]
       case Working(part, attempt, rest) =>
         d < |plan| && part == plan[d].part && attempt.sources == plan[d].sources && rest == plan[d + 1..]
       case Saving(rest, last) => rest == plan[d..] && (last ==> d == |plan|)
       case Releasing => d == |plan|
       case Ended => d == |plan|
       case _ => false
  }

  /** The partition the event finishes for the run. */
  function Finishes(s: State, e: Event, pid: nat): seq<string> {
    if e == Finish(pid) && pid in s.procs && s.procs[pid].Working? then [s.procs[pid].part] else []
  }

  lemma PlannedStep(plan: seq<Planned>, d: nat)
    requires d < |plan|
    ensures PlannedParts(plan[..d + 1]) == PlannedParts(plan[..d]) + [plan[d].part]
    ensures plan[d..][0] == plan[d] && plan[d..][1..] == plan[d + 1..]
  {
  }

  lemma AdvanceSources(p: Part, a: Attempt, c: Choice)
    requires CanAdvance(p, a, c)
    ensures Advance(p, a, c).1.sources == a.sources
  {
  }

  lemma OnPlanStep(s: State, e: Event, pid: nat, plan: seq<Planned>, done: seq<string>)
    requires Enabled(s, e) && !Setback(e, pid) && OnPlan(s, pid, plan, done)
    ensures OnPlan(Apply(s, e), pid, plan, done + Finishes(s, e, pid))
  {
    var d := |done|;
    if d < |plan| {
      PlannedStep(plan, d);
    }
    if e.Request? {
      AdvanceSources(Objects(s, s.procs[e.pid].part), s.procs[e.pid].attempt, e.choice);
    }
    assert done + [] == done;
    hide Advance, CanAdvance, Objects;
  }

  lemma {:induction false} PlanStands(ss: seq<State>, es: seq<Event>, i: nat, n: nat, pid: nat, plan: seq<Planned>)
    requires IsRun(ss, es) && i < n <= |es| && es[i] == Scan(pid, plan) && Undisturbed(es, pid, i, n)
    ensures OnPlan(ss[n], pid, plan, FinishedParts(ss, es, pid, i, n))
  {
    assert StepAt(ss, es, n - 1);
    if n == i + 1 {
      assert plan[0..] == plan && PlannedParts(plan[..0]) == [];
    } else {
      PlanStands(ss, es, i, n - 1, pid, plan);
      OnPlanStep(ss[n - 1], es[n - 1], pid, plan, FinishedParts(ss, es, pid, i, n - 1));
    }
  }

  // ---------------------------------------------------------------------------------------
  // What finishing a partition means

  /** What the attempt under way has deleted is live only where it was put again since. */
  ghost predicate GoneSince(s: State, es: seq<Event>, i: nat, n: nat, pid: nat)
    requires i <= n <= |es|
  {
    pid in s.procs && s.procs[pid].Working? ==>
      forall name :: name in Removed(s.procs[pid].attempt) && name in Objects(s, s.procs[pid].part).segments ==>
        PutSince(es, i, n, s.procs[pid].part, name)
  }

  /** Live segments appear by puts only, and the names a granted request deletes are not live after it. */
  lemma SegmentsStep(s: State, e: Event, part: string, name: string)
    requires Enabled(s, e) && name in Objects(Apply(s, e), part).segments
    ensures name in Objects(s, part).segments || (e.Upload? && e.part == part && e.name == name)
  {
  }

  lemma RemovedStep(p: Part, a: Attempt, c: Choice, name: string)
    requires CanAdvance(p, a, c)
    requires name in Removed(Advance(p, a, c).1) && name in Advance(p, a, c).0.segments
    ensures name in Removed(a) && name in p.segments
  {
    if a.phase.Deleting? {
      assert a.sources[..|a.sources|] == a.sources;
      NamesCut(a.sources, a.phase.next, ChunkEnd(a, a.phase.next));
    }
  }

  /** The attempt a run is at after an event is the one before it, advanced if the event is its
      own request, or has not deleted anything. */
  lemma AttemptStep(s: State, e: Event, pid: nat)
    requires Enabled(s, e) && pid in Apply(s, e).procs && Apply(s, e).procs[pid].Working?
    ensures var after := Apply(s, e).procs[pid];
      || Removed(after.attempt) == {}
      || (&& pid in s.procs && s.procs[pid].Working? && s.procs[pid].part == after.part
          && if e.Request? && e.pid == pid then
               && CanAdvance(Objects(s, after.part), s.procs[pid].attempt, e.choice)
               && after.attempt == Advance(Objects(s, after.part), s.procs[pid].attempt, e.choice).1
               && Objects(Apply(s, e), after.part) == Advance(Objects(s, after.part), s.procs[pid].attempt, e.choice).0
             else after.attempt == s.procs[pid].attempt)
  {
    hide Advance, CanAdvance;
  }

  lemma GoneStep(s: State, es: seq<Event>, i: nat, n: nat, pid: nat)
    requires i <= n < |es| && Enabled(s, es[n]) && GoneSince(s, es, i, n, pid)
    ensures GoneSince(Apply(s, es[n]), es, i, n + 1, pid)
  {
    var e, t := es[n], Apply(s, es[n]);
    if pid in t.procs && t.procs[pid].Working? {
      var part := t.procs[pid].part;
      AttemptStep(s, e, pid);
      forall name | name in Removed(t.procs[pid].attempt) && name in Objects(t, part).segments
        ensures PutSince(es, i, n + 1, part, name)
      {
        SegmentsStep(s, e, part, name);
        if e.Request? && e.pid == pid {
          RemovedStep(Objects(s, part), s.procs[pid].attempt, e.choice, name);
        }
        hide Apply, Enabled, Advance, CanAdvance, Removed;
        if name in Objects(s, part).segments {
          assert PutSince(es, i, n, part, name);
          var j :| i <= j < n && es[j].Upload? && es[j].part == part && es[j].name == name;
        } else {
          assert es[n].Upload?;
        }
      }
    }
  }

  lemma {:induction false} GoneHolds(ss: seq<State>, es: seq<Event>, i: nat, n: nat, pid: nat)
    requires IsRun(ss, es) && i <= n <= |es| && (pid in ss[i].procs ==> !ss[i].procs[pid].Working?)
    ensures GoneSince(ss[n], es, i, n, pid)
  {
    if n > i {
      GoneHolds(ss, es, i, n - 1, pid);
      assert StepAt(ss, es, n - 1);
      GoneStep(ss[n - 1], es, i, n - 1, pid);
    }
  }

  /** When a run finishes an attempt, the marker and the output of the partition are there, every
      planned source was checked, and none is live unless it was put again since the scan. */
  ghost predicate Compacted(s: State, es: seq<Event>, i: nat, j: nat, planned: Planned)
    requires i <= j <= |es|
  {
    var p := Objects(s, planned.part);
    && p.marked && p.output.Some? && Names(planned.sources) <= p.checked
    && forall name <- Names(planned.sources) :: name in p.segments ==> PutSince(es, i, j, planned.part, name)
  }

  /** A run that was neither refused nor interrupted since its scan and has reached its end has
      finished exactly the partitions of its plan, in the order of the plan, and each was compacted
      when it was finished. */
  lemma PlanCarriedOut(ss: seq<State>, es: seq<Event>, i: nat, n: nat, pid: nat, plan: seq<Planned>)
    requires IsRun(ss, es) && i < n <= |es| && es[i] == Scan(pid, plan) && Undisturbed(es, pid, i, n)
    requires pid in ss[n].procs && (ss[n].procs[pid].Releasing? || ss[n].procs[pid].Ended?)
    ensures FinishedParts(ss, es, pid, i, n) == PlannedParts(plan)
  {
    PlanStands(ss, es, i, n, pid, plan);
    assert plan[..|plan|] == plan;
  }

  lemma FinishedIsCompacted(ss: seq<State>, es: seq<Event>, i: nat, j: nat, pid: nat, plan: seq<Planned>)
    requires IsRun(ss, es) && SafeTakeovers(ss, es)
    requires i < j < |es| && es[i] == Scan(pid, plan) && Undisturbed(es, pid, i, j) && es[j] == Finish(pid)
    ensures var k := |FinishedParts(ss, es, pid, i, j)|;
      && k < |plan| && FinishedParts(ss, es, pid, i, j + 1) == PlannedParts(plan[..k + 1])
      && Compacted(ss[j], es, i, j, plan[k])
  {
    assert StepAt(ss, es, i) && StepAt(ss, es, j);
    PlanStands(ss, es, i, j, pid, plan);
    PlannedStep(plan, |FinishedParts(ss, es, pid, i, j)|);
    GoneHolds(ss, es, i, j, pid);
    LockHolds(ss, es, j);
    var s := ss[j];
    assert Critical(s.procs[pid]);
    ObjectsConsistent(ss, es, j, s.procs[pid].part);
  }

  // ---------------------------------------------------------------------------------------
  // A run stops at its first failure

  /** The run works on: anything but giving up the lock or dying. */
  predicate WorksOn(e: Event, pid: nat) {
    match e
    case Spawn(p) => p == pid
    case Inspect(p, _) => p == pid
    case RemoveStale(p, _) => p == pid
    case PutLock(p, _) => p == pid
    case Scan(p, _) => p == pid
    case ScanFails(p) => p == pid
    case Request(p, _) => p == pid
    case RequestFails(p, _, _) => p == pid
    case Finish(p) => p == pid
    case Save(p, _) => p == pid
    case _ => false
  }

  ghost predicate Stopping(s: State, pid: nat) {
    pid in s.procs && (s.procs[pid].Releasing? || s.procs[pid].Ended?)
  }

  lemma StoppingStep(s: State, e: Event, pid: nat)
    requires Enabled(s, e) && (Setback(e, pid) || Stopping(s, pid))
    ensures Stopping(Apply(s, e), pid)
  {
  }

  lemma {:induction false} StoppingStays(ss: seq<State>, es: seq<Event>, i: nat, j: nat, pid: nat)
    requires IsRun(ss, es) && i < j <= |es| && Setback(es[i], pid)
    ensures Stopping(ss[j], pid)
  {
    assert StepAt(ss, es, j - 1);
    if i < j - 1 {
      StoppingStays(ss, es, i, j - 1, pid);
    }
    StoppingStep(ss[j - 1], es[j - 1], pid);
  }

  /** After its first failure a run does no more work. */
  lemma StopsAfterSetback(ss: seq<State>, es: seq<Event>, i: nat, j: nat, pid: nat)
    requires IsRun(ss, es) && i < j < |es| && Setback(es[i], pid)
    ensures !WorksOn(es[j], pid)
  {
    StoppingStays(ss, es, i, j, pid);
    assert StepAt(ss, es, j);
  }

  /** A run whose work failed while it held the lock still gives it up, and then the lock is gone. */
  lemma FailedWorkReleases(ss: seq<State>, es: seq<Event>, i: nat, pid: nat)
    requires IsRun(ss, es) && i < |es|
    requires es[i] == ScanFails(pid) || es[i] == Save(pid, false) || (es[i].RequestFails? && es[i].pid == pid)
    ensures Enabled(ss[i + 1], Release(pid, Success)) && Apply(ss[i + 1], Release(pid, Success)).lock.None?
  {
    assert StepAt(ss, es, i);
  }
}
