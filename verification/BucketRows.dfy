/**
 What every run of the bucket keeps for every row: nothing is lost, each row is visible once
 per copy put except for what events are shown to leave behind, and segments are deleted only
 when they are secured.
 */
module BucketRows {
  import opened Wrappers
  import opened Rows
  import opened Compaction
  import opened Bucket

  // ---------------------------------------------------------------------------------------
  // Accounting for every row

  /** The attempt under way on a partition: that of the lock's owner. */
  function Current(s: State, part: string): Option<Attempt> {
    if s.lock.Some? && s.lock.value.owner in s.procs then
      var proc := s.procs[s.lock.value.owner];
      if proc.Working? && proc.part == part then Some(proc.attempt) else None
    else None
  }

  ghost predicate Ledger(s: State, part: string, debt: nat, row: Row) {
    match Current(s, part)
    case Some(a) => Underway(Objects(s, part), a, debt, row)
    case None => Settled(Objects(s, part), debt, row)
  }

  /** The planned partitions are distinct, differ from the current one, and still have all
      their listed segments. */
  ghost predicate PlanInv(s: State) {
    forall pid <- s.procs :: Critical(s.procs[pid]) ==>
      && PlanAllowed(s, Plans(s.procs[pid]))
      && (s.procs[pid].Working? ==> forall planned <- s.procs[pid].rest :: planned.part != s.procs[pid].part)
  }

  function AbsorbedBy(s: State, part: string): set<string> {
    match Current(s, part)
    case Some(a) => Absorbed(a)
    case None => {}
  }

  /** The event ends the attempt under way on `part`. */
  predicate Ends(s: State, e: Event, part: string) {
    && (e.RequestFails? || e.Finish? || e.Crash?)
    && e.pid in s.procs && s.procs[e.pid].Working? && s.procs[e.pid].part == part
  }

  /** The extra visible copies of `row` that an event leaves behind: sources still live when
      an attempt ends although the visible output holds them, or a compacted segment put again. */
  ghost function Cost(s: State, e: Event, part: string, row: Row): nat {
    if Ends(s, e, part) then
      var applied := !e.Finish? && e.applied;
      EndCost(Objects(s, part), s.procs[e.pid].attempt, applied, if e.Finish? then {} else e.lost, row)
    else if e.Upload? && e.part == part then
      PutCost(Objects(s, part), AbsorbedBy(s, part), e.name, row)
    else 0
  }

  ghost predicate Inv(s: State, part: string, debt: nat, row: Row) {
    LockInv(s) && PlanInv(s) && Ledger(s, part, debt, row)
  }

  lemma LedgerRequest(s: State, e: Event, part: string, debt: nat, row: Row)
    requires Inv(s, part, debt, row) && Enabled(s, e) && e.Request?
    ensures Ledger(Apply(s, e), part, debt, row)
  {
    var proc := s.procs[e.pid];
    assert Critical(proc);
    if proc.part == part {
      AdvanceKeeps(Objects(s, part), proc.attempt, e.choice, debt, row);
    }
  }

  lemma LedgerEnds(s: State, e: Event, part: string, debt: nat, row: Row)
    requires Inv(s, part, debt, row) && Enabled(s, e) && Ends(s, e, part)
    ensures Ledger(Apply(s, e), part, debt + Cost(s, e, part, row), row)
  {
    var proc := s.procs[e.pid];
    assert Critical(proc);
    var applied, lost := !e.Finish? && e.applied, if e.Finish? then {} else e.lost;
    EndKeeps(Objects(s, part), proc.attempt, applied, lost, debt, row);
    assert Objects(Apply(s, e), part) == Failed(Objects(s, part), proc.attempt, applied, lost);
  }

  lemma LedgerUpload(s: State, e: Event, part: string, debt: nat, row: Row)
    requires Inv(s, part, debt, row) && Enabled(s, e) && e.Upload?
    ensures Ledger(Apply(s, e), part, debt + Cost(s, e, part, row), row)
  {
    if e.part == part {
      match Current(s, part)
      case Some(a) => PutKeeps(Objects(s, part), a, e.name, e.file, debt, row);
      case None => PutAccounts(Objects(s, part), {}, e.name, e.file, debt, row);
    }
  }

  lemma LedgerExpire(s: State, e: Event, part: string, debt: nat, row: Row)
    requires Inv(s, part, debt, row) && Enabled(s, e) && e.ExpireCopy?
    ensures Ledger(Apply(s, e), part, debt, row)
  {
    if e.part == part && Current(s, part).Some? {
      ExpireKeeps(Objects(s, part), Current(s, part).value, e.name, debt, row);
    }
  }

  /** A run moves on to its next partition. */
  lemma LedgerNext(s: State, e: Event, part: string, debt: nat, row: Row)
    requires Inv(s, part, debt, row) && Enabled(s, e) && (e.Scan? || e.Save?)
    ensures Ledger(Apply(s, e), part, debt, row)
  {
    assert Critical(s.procs[e.pid]);
    var t := Apply(s, e);
    if Current(t, part).Some? {
      var plan := if e.Scan? then e.plan else s.procs[e.pid].rest;
      assert plan[0].part == part;
      Start(Objects(s, part), plan[0].sources, debt, row);
    }
  }

  /** Lock traffic and the clock do not concern any partition. */
  lemma LedgerLock(s: State, e: Event, part: string, debt: nat, row: Row)
    requires Inv(s, part, debt, row) && Enabled(s, e) && (TakesOver(s, e) ==> NoneCritical(s))
    requires !Ends(s, e, part) && !e.Request? && !e.Upload? && !e.ExpireCopy? && !e.Scan? && !e.Save?
    ensures Ledger(Apply(s, e), part, debt, row)
  {
    var t := Apply(s, e);
    assert Objects(t, part) == Objects(s, part);
    assert Current(t, part) == Current(s, part);
  }

  /** Every event keeps the ledger, its debt growing by the event's cost. */
  lemma LedgerKept(s: State, e: Event, part: string, debt: nat, row: Row)
    requires Inv(s, part, debt, row) && Enabled(s, e) && (TakesOver(s, e) ==> NoneCritical(s))
    ensures Ledger(Apply(s, e), part, debt + Cost(s, e, part, row), row)
  {
    hide Ledger, PlanInv, LockInv, EndCost, PutCost, Apply, Objects, NoneCritical;
    if Ends(s, e, part) {
      LedgerEnds(s, e, part, debt, row);
    } else {
      match e
      case Request(_, _) => LedgerRequest(s, e, part, debt, row);
      case Upload(_, _, _) => LedgerUpload(s, e, part, debt, row);
      case ExpireCopy(_, _) => LedgerExpire(s, e, part, debt, row);
      case Scan(_, _) => LedgerNext(s, e, part, debt, row);
      case Save(_, _) => LedgerNext(s, e, part, debt, row);
      case _ => LedgerLock(s, e, part, debt, row);
    }
  }

  /** An event removes segments only from the partition its run is working on. */
  lemma SegmentsKept(s: State, e: Event, part: string)
    requires Enabled(s, e)
    requires !(e.Request? || e.RequestFails? || e.Crash?) || !s.procs[e.pid].Working? || s.procs[e.pid].part != part
    ensures Objects(s, part).segments.Keys <= Objects(Apply(s, e), part).segments.Keys
  {
  }

  lemma PlanKeptFor(s: State, e: Event, pid: nat)
    requires LockInv(s) && PlanInv(s) && Enabled(s, e) && (TakesOver(s, e) ==> NoneCritical(s))
    requires pid in Apply(s, e).procs && Critical(Apply(s, e).procs[pid])
    ensures var t := Apply(s, e);
      && PlanAllowed(t, Plans(t.procs[pid]))
      && (t.procs[pid].Working? ==> forall planned <- t.procs[pid].rest :: planned.part != t.procs[pid].part)
  {
    var t := Apply(s, e);
    var plan := Plans(t.procs[pid]);
    assert LockInv(t) by { LockKept(s, e); }
    assert pid in s.procs;
    if (e.Scan? || e.Save?) && e.pid == pid {
      assert Critical(s.procs[pid]);
    } else {
      assert plan == [] || Critical(s.procs[pid]);
      forall i | 0 <= i < |plan|
        ensures Names(plan[i].sources) <= Objects(t, plan[i].part).segments.Keys
      {
        assert plan[i] in plan;
        SegmentsKept(s, e, plan[i].part);
      }
    }
  }

  lemma PlanKept(s: State, e: Event)
    requires LockInv(s) && PlanInv(s) && Enabled(s, e) && (TakesOver(s, e) ==> NoneCritical(s))
    ensures PlanInv(Apply(s, e))
  {
    var t := Apply(s, e);
    forall pid | pid in t.procs && Critical(t.procs[pid])
      ensures PlanAllowed(t, Plans(t.procs[pid]))
      ensures t.procs[pid].Working? ==> forall planned <- t.procs[pid].rest :: planned.part != t.procs[pid].part
    {
      PlanKeptFor(s, e, pid);
    }
  }

  /** The copies of `row` in `part` that the first `i` events have left behind beyond one per
      copy put. */
  ghost function Debt(ss: seq<State>, es: seq<Event>, i: nat, part: string, row: Row): nat
    requires i <= |es| < |ss|
  {
    if i == 0 then 0 else Debt(ss, es, i - 1, part, row) + Cost(ss[i - 1], es[i - 1], part, row)
  }

  lemma {:induction false} Reached(ss: seq<State>, es: seq<Event>, i: nat, part: string, row: Row)
    requires IsRun(ss, es) && SafeTakeovers(ss, es) && i <= |es|
    ensures Inv(ss[i], part, Debt(ss, es, i, part, row), row)
  {
    if i > 0 {
      assert StepAt(ss, es, i - 1);
      Reached(ss, es, i - 1, part, row);
      LockKept(ss[i - 1], es[i - 1]);
      PlanKept(ss[i - 1], es[i - 1]);
      LedgerKept(ss[i - 1], es[i - 1], part, Debt(ss, es, i - 1, part, row), row);
    }
  }

  // ---------------------------------------------------------------------------------------
  // Theorems about every run

  lemma ObjectsConsistent(ss: seq<State>, es: seq<Event>, i: nat, part: string)
    requires IsRun(ss, es) && SafeTakeovers(ss, es) && i <= |es|
    ensures Consistent(Objects(ss[i], part))
    ensures Current(ss[i], part).Some? ==> Shaped(Objects(ss[i], part), Current(ss[i], part).value)
  {
    Reached(ss, es, i, part, []);
  }

  /** After every event, a reader finds each row once per copy put, once more for every source
      that the attempt under way has committed and not yet deleted, and as often again as
      earlier events left behind. */
  lemma Accounting(ss: seq<State>, es: seq<Event>, i: nat, part: string, row: Row)
    requires IsRun(ss, es) && SafeTakeovers(ss, es) && i <= |es|
    ensures var p := Objects(ss[i], part);
      Visible(p, row) == Count(p.uploaded, row)
        + Count(Only(p.uploaded, AbsorbedBy(ss[i], part) * p.segments.Keys), row)
        + Debt(ss, es, i, part, row)
  {
    Reached(ss, es, i, part, row);
    VisibleAccount(Objects(ss[i], part), AbsorbedBy(ss[i], part), Debt(ss, es, i, part, row), row);
  }

  /** No row is lost: whatever a segment held when it was put is in a live segment or, with
      the success marker in place, in the compacted output. */
  lemma NoRowLost(ss: seq<State>, es: seq<Event>, i: nat, part: string, name: string, row: Row)
    requires IsRun(ss, es) && SafeTakeovers(ss, es) && i <= |es|
    requires name in Objects(ss[i], part).uploaded && row in Objects(ss[i], part).uploaded[name].rows
    ensures var p := Objects(ss[i], part);
      || (exists live :: live in p.segments && row in p.segments[live].rows)
      || (p.marked && p.output.Some? && row in p.output.value.rows)
  {
    Accounting(ss, es, i, part, row);
    var p := Objects(ss[i], part);
    CountPositive(p.uploaded, row);
    CountPositive(p.segments, row);
    if p.output.Some? {
      assert row in multiset(p.output.value.rows) <==> row in p.output.value.rows;
    }
  }

  lemma {:induction false} DebtZero(ss: seq<State>, es: seq<Event>, i: nat, part: string, row: Row)
    requires i <= |es| < |ss|
    ensures Debt(ss, es, i, part, row) == 0 <==> forall j :: 0 <= j < i ==> Cost(ss[j], es[j], part, row) == 0
  {
    if i > 0 {
      DebtZero(ss, es, i - 1, part, row);
    }
  }

  /** While no attempt is under way, a row is visible exactly as often as it was put if and
      only if no event so far left a copy behind. */
  lemma ExactlyOnce(ss: seq<State>, es: seq<Event>, i: nat, part: string, row: Row)
    requires IsRun(ss, es) && SafeTakeovers(ss, es) && i <= |es| && Current(ss[i], part).None?
    ensures var p := Objects(ss[i], part);
      Visible(p, row) == Count(p.uploaded, row) <==> forall j :: 0 <= j < i ==> Cost(ss[j], es[j], part, row) == 0
  {
    Accounting(ss, es, i, part, row);
    var p := Objects(ss[i], part);
    assert Only(p.uploaded, {} * p.segments.Keys) == map[];
    DebtZero(ss, es, i, part, row);
  }

  /** The events that remove a segment change nothing else about its partition. */
  lemma SegmentGone(s: State, e: Event, part: string, name: string)
    requires Enabled(s, e)
    requires name in Objects(s, part).segments && name !in Objects(Apply(s, e), part).segments
    ensures var p, q := Objects(s, part), Objects(Apply(s, e), part);
      q.marked == p.marked && q.output == p.output && q.checked == p.checked && q.uploaded == p.uploaded
  {
    assert (e.Request? || e.RequestFails? || e.Crash?) && s.procs[e.pid].part == part;
    assert s.procs[e.pid].attempt.phase.Deleting?;
  }

  /** A segment disappears only after its retained copy was checked against the listed size
      and the success marker was put. */
  lemma DeletedOnlyWhenSecured(ss: seq<State>, es: seq<Event>, i: nat, part: string, name: string)
    requires IsRun(ss, es) && SafeTakeovers(ss, es) && i < |es|
    requires name in Objects(ss[i], part).segments && name !in Objects(ss[i + 1], part).segments
    ensures var p := Objects(ss[i], part);
      p.marked && p.output.Some? && name in p.checked
  {
    ObjectsConsistent(ss, es, i, part);
    ObjectsConsistent(ss, es, i + 1, part);
    assert StepAt(ss, es, i);
    SegmentGone(ss[i], es[i], part, name);
    assert name in Hidden(Objects(ss[i + 1], part));
  }

  /** Only the size check of the attempt at work on the partition checks a name. */
  lemma CheckedGrows(s: State, e: Event, part: string, name: string)
    requires Enabled(s, e)
    requires name !in Objects(s, part).checked && name in Objects(Apply(s, e), part).checked
    ensures e.Request? && e.pid in s.procs && s.procs[e.pid].Working? && s.procs[e.pid].part == part
    ensures var a := s.procs[e.pid].attempt;
      a.phase.Verifying? && CanAdvance(Objects(s, part), a, e.choice) && a.sources[a.phase.next].name == name
  {
    assert e.Request? && s.procs[e.pid].part == part;
  }

  /** What checking a copy means: at that moment the copy existed, was the very file put, and
      had the size that the scan listed. */
  lemma CheckedMeansCopied(ss: seq<State>, es: seq<Event>, i: nat, part: string, name: string)
    requires IsRun(ss, es) && SafeTakeovers(ss, es) && i < |es|
    requires name !in Objects(ss[i], part).checked && name in Objects(ss[i + 1], part).checked
    ensures var p := Objects(ss[i], part);
      && name in p.retained && name in p.uploaded && p.retained[name] == p.uploaded[name]
      && Current(ss[i], part).Some?
      && exists source <- Current(ss[i], part).value.sources ::
           source.name == name && source.bytes == p.retained[name].bytes
  {
    ObjectsConsistent(ss, es, i, part);
    LockHolds(ss, es, i);
    var s, e := ss[i], es[i];
    assert StepAt(ss, es, i);
    hide Apply, Enabled;
    CheckedGrows(s, e, part, name);
    assert Critical(s.procs[e.pid]);
    var a := s.procs[e.pid].attempt;
    assert a.sources[a.phase.next] in a.sources;
  }

  /** A re-merge always finds the compacted output it asks for. */
  lemma MarkedHasOutput(ss: seq<State>, es: seq<Event>, i: nat, pid: nat)
    requires IsRun(ss, es) && SafeTakeovers(ss, es) && i <= |es|
    requires pid in ss[i].procs && ss[i].procs[pid].Working? && ss[i].procs[pid].attempt.phase.Heading?
    ensures Objects(ss[i], ss[i].procs[pid].part).output.Some?
    ensures forall choice :: Enabled(ss[i], Request(pid, choice))
  {
    LockHolds(ss, es, i);
    assert Critical(ss[i].procs[pid]);
    ObjectsConsistent(ss, es, i, ss[i].procs[pid].part);
  }

  // ---------------------------------------------------------------------------------------
  // Exactly which runs keep every row visible exactly once

  /** The file holds no row. */
  predicate Blank(files: map<string, File>, name: string) {
    name in files ==> files[name].rows == []
  }

  /** The sources that the event leaves both live and in the visible output: those of an attempt
      that ends after its output became visible and before its deletions. */
  function LeftBehind(s: State, e: Event, part: string): set<string> {
    if Ends(s, e, part) then
      LeftDoubled(Objects(s, part), s.procs[e.pid].attempt, !e.Finish? && e.applied, if e.Finish? then {} else e.lost)
    else {}
  }

  /** The event puts a compacted segment again, outside the attempt that compacted it. */
  predicate PutsBack(s: State, e: Event, part: string) {
    && e.Upload? && e.part == part && e.name in Objects(s, part).uploaded
    && e.name !in Objects(s, part).segments && e.name !in AbsorbedBy(s, part)
  }

  /** The event leaves no source with rows behind and puts no compacted segment with rows again. */
  predicate TidyEvent(s: State, e: Event, part: string) {
    && (forall name <- LeftBehind(s, e, part) :: Blank(Objects(s, part).uploaded, name))
    && (PutsBack(s, e, part) ==> Blank(Objects(s, part).uploaded, e.name))
  }

  lemma CostMeans(s: State, e: Event, part: string, row: Row)
    ensures Cost(s, e, part, row) > 0 <==>
      || (exists name :: name in LeftBehind(s, e, part) && name in Objects(s, part).uploaded
                         && row in Objects(s, part).uploaded[name].rows)
      || (PutsBack(s, e, part) && row in Objects(s, part).uploaded[e.name].rows)
  {
    var p := Objects(s, part);
    var doubled := Only(p.uploaded, LeftBehind(s, e, part));
    CountPositive(doubled, row);
    if Ends(s, e, part) {
      assert Cost(s, e, part, row) == Count(doubled, row);
    } else {
      assert doubled == map[];
    }
    if exists name :: name in doubled && row in doubled[name].rows {
      var name :| name in doubled && row in doubled[name].rows;
      assert name in LeftBehind(s, e, part) && name in p.uploaded && row in p.uploaded[name].rows;
    }
    if name :| name in LeftBehind(s, e, part) && name in p.uploaded && row in p.uploaded[name].rows {
      assert name in doubled && row in doubled[name].rows;
    }
    if PutsBack(s, e, part) {
      assert row in p.uploaded[e.name].rows <==> row in multiset(p.uploaded[e.name].rows);
    }
  }

  /** An event costs no row anything exactly when it is tidy. */
  lemma TidyCostsNothing(s: State, e: Event, part: string)
    ensures (forall row: Row :: Cost(s, e, part, row) == 0) <==> TidyEvent(s, e, part)
  {
    var uploaded := Objects(s, part).uploaded;
    forall row: Row ensures Cost(s, e, part, row) > 0 ==> !TidyEvent(s, e, part) {
      CostMeans(s, e, part, row);
    }
    if forall row: Row :: Cost(s, e, part, row) == 0 {
      forall name | name in LeftBehind(s, e, part) ensures Blank(uploaded, name) {
        if name in uploaded && uploaded[name].rows != [] {
          CostMeans(s, e, part, uploaded[name].rows[0]);
        }
      }
      if PutsBack(s, e, part) && uploaded[e.name].rows != [] {
        CostMeans(s, e, part, uploaded[e.name].rows[0]);
      }
    }
  }

  /** While no attempt is under way, every row is visible exactly as often as it was put if and
      only if every event so far was tidy. */
  lemma ExactlyTheTidyRuns(ss: seq<State>, es: seq<Event>, i: nat, part: string)
    requires IsRun(ss, es) && SafeTakeovers(ss, es) && i <= |es| && Current(ss[i], part).None?
    ensures (forall row: Row :: Visible(Objects(ss[i], part), row) == Count(Objects(ss[i], part).uploaded, row))
      <==> forall j :: 0 <= j < i ==> TidyEvent(ss[j], es[j], part)
  {
    assert |ss| == |es| + 1;
    hide TidyEvent, Cost, Visible, Count, IsRun, SafeTakeovers;
    var p := Objects(ss[i], part);
    if forall row: Row :: Visible(p, row) == Count(p.uploaded, row) {
      forall j | 0 <= j < i ensures TidyEvent(ss[j], es[j], part) {
        forall row: Row ensures Cost(ss[j], es[j], part, row) == 0 {
          assert Visible(p, row) == Count(p.uploaded, row);
          ExactlyOnce(ss, es, i, part, row);
        }
        TidyCostsNothing(ss[j], es[j], part);
      }
    }
    if forall j :: 0 <= j < i ==> TidyEvent(ss[j], es[j], part) {
      forall row: Row ensures Visible(p, row) == Count(p.uploaded, row) {
        forall j | 0 <= j < i ensures Cost(ss[j], es[j], part, row) == 0 {
          TidyCostsNothing(ss[j], es[j], part);
        }
        ExactlyOnce(ss, es, i, part, row);
      }
    }
  }

  // ---------------------------------------------------------------------------------------
  // The runs without late failures

  /** No failure between the request that makes the output visible and the end of the
      deletions, and no compacted segment put again. */
  predicate CleanEvent(s: State, e: Event, part: string) {
    && (Ends(s, e, part) && !e.Finish? ==>
          !Committed(s.procs[e.pid].attempt) && !CommitsLate(s.procs[e.pid].attempt, e.applied))
    && (e.Upload? && e.part == part && e.name in Objects(s, part).uploaded ==> e.name in Objects(s, part).segments)
  }

  ghost predicate CleanUntil(ss: seq<State>, es: seq<Event>, i: nat, part: string)
    requires i <= |es| < |ss|
  {
    forall j :: 0 <= j < i ==> CleanEvent(ss[j], es[j], part)
  }

  /** What an undisturbed attempt has deleted stays deleted. */
  ghost predicate Cleared(s: State, part: string) {
    Current(s, part).Some? ==> Removed(Current(s, part).value) !! Objects(s, part).segments.Keys
  }

  ghost predicate CurrentShaped(s: State, part: string) {
    Current(s, part).Some? ==> Shaped(Objects(s, part), Current(s, part).value)
  }

  lemma ClearedRequest(s: State, e: Event, part: string)
    requires LockInv(s) && CurrentShaped(s, part) && Cleared(s, part) && Enabled(s, e) && e.Request?
    ensures Cleared(Apply(s, e), part)
  {
    assert Critical(s.procs[e.pid]);
    if s.procs[e.pid].part == part {
      RemovedAdvances(Objects(s, part), s.procs[e.pid].attempt, e.choice);
    }
  }

  lemma ClearedKept(s: State, e: Event, part: string)
    requires LockInv(s) && CurrentShaped(s, part) && Cleared(s, part) && Enabled(s, e) && CleanEvent(s, e, part)
    requires TakesOver(s, e) ==> NoneCritical(s)
    ensures Cleared(Apply(s, e), part)
  {
    var t := Apply(s, e);
    if e.Request? {
      ClearedRequest(s, e, part);
    } else if Current(t, part).Some? {
      if (e.Scan? || e.Save?) && t.procs[e.pid].Working? && t.procs[e.pid].part == part {
        assert Critical(s.procs[e.pid]);
      } else {
        assert Current(s, part) == Current(t, part);
        if e.Upload? && e.part == part {
          RemovedWasPut(Objects(s, part), Current(s, part).value);
        }
      }
    }
  }

  lemma {:induction false} ClearedHolds(ss: seq<State>, es: seq<Event>, i: nat, part: string)
    requires IsRun(ss, es) && SafeTakeovers(ss, es) && i <= |es| && CleanUntil(ss, es, i, part)
    ensures Cleared(ss[i], part)
  {
    if i > 0 {
      assert StepAt(ss, es, i - 1);
      ClearedHolds(ss, es, i - 1, part);
      LockHolds(ss, es, i - 1);
      ObjectsConsistent(ss, es, i - 1, part);
      ClearedKept(ss[i - 1], es[i - 1], part);
    }
  }

  lemma CleanCostsNothing(s: State, e: Event, part: string, row: Row)
    requires LockInv(s) && Cleared(s, part) && Enabled(s, e) && CleanEvent(s, e, part)
    ensures Cost(s, e, part, row) == 0
  {
    if Ends(s, e, part) {
      assert Critical(s.procs[e.pid]);
      assert Only(Objects(s, part).uploaded, {}) == map[];
    }
  }

  /** Exactly once: in a run without late failures and without compacted segments put again,
      whenever no attempt is under way every row is visible exactly as often as it was put,
      also after earlier failed attempts. */
  lemma CleanRunsAreExact(ss: seq<State>, es: seq<Event>, i: nat, part: string, row: Row)
    requires IsRun(ss, es) && SafeTakeovers(ss, es) && i <= |es| && Current(ss[i], part).None?
    requires CleanUntil(ss, es, i, part)
    ensures Visible(Objects(ss[i], part), row) == Count(Objects(ss[i], part).uploaded, row)
  {
    forall j | 0 <= j < i
      ensures Cost(ss[j], es[j], part, row) == 0
    {
      ClearedHolds(ss, es, j, part);
      LockHolds(ss, es, j);
      assert StepAt(ss, es, j);
      CleanCostsNothing(ss[j], es[j], part, row);
    }
    ExactlyOnce(ss, es, i, part, row);
  }
}
