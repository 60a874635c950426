/**
 The bucket shared by any number of compaction runs and by the producer. Every run inspects
 the lock object, takes it with a conditional put, scans, compacts its partitions one after
 the other and deletes the lock. Each event is one S3 request, one crash or one action of the
 producer, so a sequence of events is an interleaving; a run that crashes or whose request
 fails simply stops taking part, and a later run starts from scratch.
 */
module Bucket {
  import opened Wrappers
  import opened Rows
  import opened Compaction

  datatype Planned = Planned(part: string, sources: seq<Source>)

  /** Where a compaction run stands; the request it is about to issue. */
  datatype Proc =
    | Starting
    | Removing
    | Locking
    | Scanning
    | Working(part: string, attempt: Attempt, rest: seq<Planned>)
    | Saving(rest: seq<Planned>, last: bool)
    | Releasing
    | Ended

  /** `owner` is a history variable: the lock object itself only carries its time. */
  datatype Lock = Lock(owner: nat, modified: int)

  datatype State = State(now: int, lock: Option<Lock>, parts: map<string, Part>, procs: map<nat, Proc>)

  /** A failed write may still have been applied. */
  datatype Reply = Success | Failure(applied: bool)

  datatype Event =
    | Tick(later: int)
    | Spawn(pid: nat)
    | Inspect(pid: nat, answered: bool)
    | RemoveStale(pid: nat, reply: Reply)
    | PutLock(pid: nat, reply: Reply)
    | Scan(pid: nat, plan: seq<Planned>)
    | ScanFails(pid: nat)
    | Request(pid: nat, choice: Choice)
    | RequestFails(pid: nat, applied: bool, lost: set<string>)
    | Finish(pid: nat)
    | Save(pid: nat, ok: bool)
    | Release(pid: nat, reply: Reply)
    | Crash(pid: nat, applied: bool, lost: set<string>)
    | Upload(part: string, name: string, file: File)
    | ExpireCopy(part: string, name: string)

  const STALE_SECONDS := 12 * 60 * 60

  function Objects(s: State, part: string): Part {
    if part in s.parts then s.parts[part] else EMPTY_PART
  }

  predicate LockIsStale(s: State) {
    s.lock.Some? && s.lock.value.modified < s.now - STALE_SECONDS
  }

  /** Between taking and giving up the lock. */
  predicate Critical(proc: Proc) {
    proc.Scanning? || proc.Working? || proc.Saving? || proc.Releasing?
  }

  function Plans(proc: Proc): seq<Planned> {
    if proc.Working? || proc.Saving? then proc.rest else []
  }

  /** A scan lists live segments, grouped by partition. */
  predicate PlanAllowed(s: State, plan: seq<Planned>) {
    && (forall i :: 0 <= i < |plan| ==>
          Distinct(plan[i].sources) && Names(plan[i].sources) <= Objects(s, plan[i].part).segments.Keys)
    && (forall i, j :: 0 <= i < j < |plan| ==> plan[i].part != plan[j].part)
  }

  function Next(plan: seq<Planned>): Proc {
    if plan == [] then Saving([], true)
    else Working(plan[0].part, Attempt(plan[0].sources, false, Probing), plan[1..])
  }

  predicate Enabled(s: State, e: Event) {
    match e
    case Tick(later) => s.now <= later
    case Spawn(pid) => pid !in s.procs
    case Inspect(pid, _) => pid in s.procs && s.procs[pid].Starting?
    case RemoveStale(pid, _) => pid in s.procs && s.procs[pid].Removing?
    case PutLock(pid, reply) => pid in s.procs && s.procs[pid].Locking? && (reply.Success? ==> s.lock.None?)
    case Scan(pid, plan) => pid in s.procs && s.procs[pid].Scanning? && PlanAllowed(s, plan)
    case ScanFails(pid) => pid in s.procs && s.procs[pid].Scanning?
    case Request(pid, choice) =>
      pid in s.procs && s.procs[pid].Working? && CanAdvance(Objects(s, s.procs[pid].part), s.procs[pid].attempt, choice)
    case RequestFails(pid, _, _) => pid in s.procs && s.procs[pid].Working? && !s.procs[pid].attempt.phase.Finished?
    case Finish(pid) => pid in s.procs && s.procs[pid].Working? && s.procs[pid].attempt.phase.Finished?
    case Save(pid, _) => pid in s.procs && s.procs[pid].Saving?
    case Release(pid, _) => pid in s.procs && s.procs[pid].Releasing?
    case Crash(pid, _, _) => pid in s.procs
    case Upload(part, name, file) => PutAllowed(Objects(s, part), name, file)
    case ExpireCopy(_, _) => true
  }

  function Move(s: State, pid: nat, proc: Proc): State {
    s.(procs := s.procs[pid := proc])
  }

  function Store(s: State, part: string, p: Part): State {
    s.(parts := s.parts[part := p])
  }

  /** The conditional put: it takes effect only when there is no lock object. */
  function TakeLock(s: State, pid: nat): State {
    if s.lock.None? then s.(lock := Some(Lock(pid, s.now))) else s
  }

  /** What the request in flight does to the bucket if it is applied without an answer. */
  function InFlight(s: State, pid: nat, lost: set<string>): State
    requires pid in s.procs
  {
    match s.procs[pid]
    case Removing => s.(lock := None)
    case Locking => TakeLock(s, pid)
    case Releasing => s.(lock := None)
    case Working(part, attempt, _) => Store(s, part, Spill(Objects(s, part), attempt, lost))
    case _ => s
  }

  function Apply(s: State, e: Event): State
    requires Enabled(s, e)
  {
    match e
    case Tick(later) => s.(now := later)
    case Spawn(pid) => Move(s, pid, Starting)
    case Inspect(pid, answered) =>
      Move(s, pid, if !answered || s.lock.None? then Locking else if LockIsStale(s) then Removing else Ended)
    case RemoveStale(pid, reply) =>
      if reply.Success? then Move(s.(lock := None), pid, Locking)
      else Move(if reply.applied then s.(lock := None) else s, pid, Ended)
    case PutLock(pid, reply) =>
      if reply.Success? then Move(TakeLock(s, pid), pid, Scanning)
      else Move(if reply.applied then TakeLock(s, pid) else s, pid, Ended)
    case Scan(pid, plan) => Move(s, pid, Next(plan))
    case ScanFails(pid) => Move(s, pid, Releasing)
    case Request(pid, choice) =>
      var (part, attempt) := (s.procs[pid].part, s.procs[pid].attempt);
      var (p, a) := Advance(Objects(s, part), attempt, choice);
      Move(Store(s, part, p), pid, Working(part, a, s.procs[pid].rest))
    case RequestFails(pid, applied, lost) =>
      Move(if applied then InFlight(s, pid, lost) else s, pid, Releasing)
    case Finish(pid) => Move(s, pid, Saving(s.procs[pid].rest, false))
    case Save(pid, ok) =>
      var Saving(rest, last) := s.procs[pid];
      Move(s, pid, if !ok || last then Releasing else Next(rest))
    case Release(pid, reply) =>
      Move(if reply.Success? || reply.applied then s.(lock := None) else s, pid, Ended)
    case Crash(pid, applied, lost) =>
      Move(if applied then InFlight(s, pid, lost) else s, pid, Ended)
    case Upload(part, name, file) => Store(s, part, Put(Objects(s, part), name, file))
    case ExpireCopy(part, name) => Store(s, part, Expire(Objects(s, part), name))
  }

  predicate Initial(s: State) {
    s.lock.None? && s.parts == map[] && s.procs == map[]
  }

  /** Event `i` was possible and led to the next state. */
  predicate StepAt(ss: seq<State>, es: seq<Event>, i: nat)
    requires |ss| == |es| + 1 && i < |es|
  {
    Enabled(ss[i], es[i]) && ss[i + 1] == Apply(ss[i], es[i])
  }

  ghost predicate IsRun(ss: seq<State>, es: seq<Event>) {
    && |ss| == |es| + 1
    && Initial(ss[0])
    && forall i :: 0 <= i < |es| ==> StepAt(ss, es, i)
  }

  // ---------------------------------------------------------------------------------------
  // Mutual exclusion

  /** The event removes the lock object on the grounds that it was found stale. */
  predicate TakesOver(s: State, e: Event) {
    || (e.RemoveStale? && (e.reply.Success? || e.reply.applied))
    || (e.Crash? && e.applied && e.pid in s.procs && s.procs[e.pid].Removing?)
  }

  ghost predicate NoneCritical(s: State) {
    forall pid <- s.procs :: !Critical(s.procs[pid])
  }

  /** Lock objects are only removed as stale while no run is at work. */
  ghost predicate SafeTakeovers(ss: seq<State>, es: seq<Event>)
    requires |ss| == |es| + 1
  {
    forall i :: 0 <= i < |es| && TakesOver(ss[i], es[i]) ==> NoneCritical(ss[i])
  }

  ghost predicate LockInv(s: State) {
    forall pid <- s.procs :: Critical(s.procs[pid]) ==> s.lock.Some? && s.lock.value.owner == pid
  }

  lemma LockKept(s: State, e: Event)
    requires LockInv(s) && Enabled(s, e) && (TakesOver(s, e) ==> NoneCritical(s))
    ensures LockInv(Apply(s, e))
  {
  }

  lemma {:induction false} LockHolds(ss: seq<State>, es: seq<Event>, i: nat)
    requires IsRun(ss, es) && SafeTakeovers(ss, es) && i < |ss|
    ensures LockInv(ss[i])
  {
    if i > 0 {
      assert StepAt(ss, es, i - 1);
      LockHolds(ss, es, i - 1);
      LockKept(ss[i - 1], es[i - 1]);
    }
  }

  /** At most one run is between taking and giving up the lock. */
  lemma MutualExclusion(ss: seq<State>, es: seq<Event>, i: nat, p: nat, q: nat)
    requires IsRun(ss, es) && SafeTakeovers(ss, es) && i < |ss|
    requires p in ss[i].procs && Critical(ss[i].procs[p]) && q in ss[i].procs && Critical(ss[i].procs[q])
    ensures p == q
  {
    LockHolds(ss, es, i);
  }
}
