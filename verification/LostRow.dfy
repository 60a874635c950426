/**
 What a broken lock can cost: a run of the bucket in which two first compactions of one partition
 overlap and a row that was put is in no live segment and not in the marked output.
 */
module LostRow {
  import opened Bucket
  import opened Compaction
  import opened Rows
  import opened Wrappers

  // ---------------------------------------------------------------------------------------
  // Events in a row

  ghost predicate Leads(s: State, es: seq<Event>, t: State)
    decreases |es|
  {
    if es == [] then s == t else Enabled(s, es[0]) && Leads(Apply(s, es[0]), es[1..], t)
  }

  lemma {:induction false} LeadsJoin(s: State, a: seq<Event>, m: State, b: seq<Event>, t: State)
    requires Leads(s, a, m) && Leads(m, b, t)
    ensures Leads(s, a + b, t)
    decreases |a|
  {
    if a == [] {
      assert a + b == b;
    } else {
      assert (a + b)[0] == a[0] && (a + b)[1..] == a[1..] + b;
      LeadsJoin(Apply(s, a[0]), a[1..], m, b, t);
    }
  }

  lemma {:induction false} LeadsSteps(s: State, es: seq<Event>, t: State) returns (ss: seq<State>)
    requires Leads(s, es, t)
    ensures |ss| == |es| + 1 && ss[0] == s && ss[|es|] == t
    ensures forall i :: 0 <= i < |es| ==> StepAt(ss, es, i)
    decreases |es|
  {
    if es == [] {
      ss := [s];
    } else {
      var rest := LeadsSteps(Apply(s, es[0]), es[1..], t);
      ss := [s] + rest;
      hide Apply, Enabled;
      forall i | 0 <= i < |es| ensures StepAt(ss, es, i) {
        if i > 0 {
          assert StepAt(rest, es[1..], i - 1);
        }
      }
    }
  }

  // ---------------------------------------------------------------------------------------
  // Two runs on one partition

  const HOUR_KEY := "hour"
  const LATE := STALE_SECONDS + 1

  /** Both runs are at work on the partition; run 1 took the lock over. */
  function Both(p: Part, a: Attempt, b: Attempt): State {
    State(LATE, Some(Lock(1, LATE)), map[HOUR_KEY := p],
          map[0 := Working(HOUR_KEY, a, []), 1 := Working(HOUR_KEY, b, [])])
  }

  function Requests(pid: nat, choices: seq<Choice>): seq<Event> {
    if choices == [] then [] else [Request(pid, choices[0])] + Requests(pid, choices[1..])
  }

  /** All the requests of an attempt succeed. */
  predicate Drives(p: Part, a: Attempt, choices: seq<Choice>)
    decreases |choices|
  {
    choices == [] ||
    (CanAdvance(p, a, choices[0]) && Drives(Advance(p, a, choices[0]).0, Advance(p, a, choices[0]).1, choices[1..]))
  }

  lemma {:induction false} FirstRequests(p: Part, a: Attempt, b: Attempt, choices: seq<Choice>)
    requires Drives(p, a, choices)
    ensures var (q, c) := Drive(p, a, choices); Leads(Both(p, a, b), Requests(0, choices), Both(q, c, b))
    decreases |choices|
  {
    if choices != [] {
      var s, e := Both(p, a, b), Request(0, choices[0]);
      var (q, c) := Advance(p, a, choices[0]);
      hide Advance, CanAdvance;
      assert Enabled(s, e) && Apply(s, e) == Both(q, c, b);
      FirstRequests(q, c, b, choices[1..]);
    }
  }

  lemma {:induction false} SecondRequests(p: Part, a: Attempt, b: Attempt, choices: seq<Choice>)
    requires Drives(p, b, choices)
    ensures var (q, c) := Drive(p, b, choices); Leads(Both(p, a, b), Requests(1, choices), Both(q, a, c))
    decreases |choices|
  {
    if choices != [] {
      var s, e := Both(p, a, b), Request(1, choices[0]);
      var (q, c) := Advance(p, b, choices[0]);
      hide Advance, CanAdvance;
      assert Enabled(s, e) && Apply(s, e) == Both(q, a, c);
      SecondRequests(q, a, c, choices[1..]);
    }
  }

  // ---------------------------------------------------------------------------------------
  // The partition: run 0 knows segment 1 only, run 1 knows both

  function Stored(x: Row, y: Row): map<string, File> {
    map["s1" := OneRow(x), "s2" := OneRow(y)]
  }

  function Fresh(x: Row, y: Row): Part {
    Part(Stored(x, y), None, false, map[], Stored(x, y), {})
  }

  function Older(phase: Phase): Attempt {
    Attempt([Source("s1", 0)], false, phase)
  }

  function Newer(phase: Phase): Attempt {
    Attempt([Source("s1", 0), Source("s2", 0)], false, phase)
  }

  const EMPTY := State(0, None, map[], map[])

  function HeldBy0(now: int, proc: Proc, parts: map<string, Part>): State {
    State(now, Some(Lock(0, 0)), parts, map[0 := proc])
  }

  /** Only the first segment is there. */
  function Alone(x: Row): Part {
    Put(EMPTY_PART, "s1", OneRow(x))
  }

  function FirstSetup(x: Row): seq<Event> {
    [Upload(HOUR_KEY, "s1", OneRow(x))] + ([Spawn(0)] + ([Inspect(0, true)] + ([PutLock(0, Success)] +
    ([Scan(0, [Planned(HOUR_KEY, [Source("s1", 0)])])] + []))))
  }

  function Takeover(): seq<Event> {
    [Spawn(1)] + ([Inspect(1, true)] + ([RemoveStale(1, Success)] + ([PutLock(1, Success)] +
    ([Scan(1, [Planned(HOUR_KEY, [Source("s1", 0), Source("s2", 0)])])] + []))))
  }

  function SecondSetup(y: Row): seq<Event> {
    [Upload(HOUR_KEY, "s2", OneRow(y))] + ([Tick(LATE)] + Takeover())
  }

  lemma LeadsOn(s: State, e: Event, m: State, rest: seq<Event>, t: State)
    requires Enabled(s, e) && Apply(s, e) == m && Leads(m, rest, t)
    ensures Leads(s, [e] + rest, t)
  {
    assert ([e] + rest)[1..] == rest;
  }

  /** A scan that lists some live segments of the one partition. */
  lemma Scanned(s: State, pid: nat, sources: seq<Source>)
    requires pid in s.procs && s.procs[pid].Scanning?
    requires Distinct(sources) && Names(sources) <= Objects(s, HOUR_KEY).segments.Keys
    ensures var e := Scan(pid, [Planned(HOUR_KEY, sources)]);
      Enabled(s, e) && Apply(s, e) == Move(s, pid, Working(HOUR_KEY, Attempt(sources, false, Probing), []))
  {
    var plan := [Planned(HOUR_KEY, sources)];
    assert plan[1..] == [];
    assert PlanAllowed(s, plan);
  }

  /** Run 0 takes the lock and plans to compact the one segment there is. */
  lemma FirstSetupLeads(x: Row)
    ensures Leads(EMPTY, FirstSetup(x), HeldBy0(0, Working(HOUR_KEY, Older(Probing), []), map[HOUR_KEY := Alone(x)]))
  {
    var parts := map[HOUR_KEY := Alone(x)];
    var s1 := State(0, None, parts, map[]);
    var s2, s3 := s1.(procs := map[0 := Starting]), s1.(procs := map[0 := Locking]);
    var s4, s5 := HeldBy0(0, Scanning, parts), HeldBy0(0, Working(HOUR_KEY, Older(Probing), []), parts);
    var plan := [Planned(HOUR_KEY, [Source("s1", 0)])];
    var r4 := [Scan(0, plan)] + [];
    var r3 := [PutLock(0, Success)] + r4;
    var r2 := [Inspect(0, true)] + r3;
    Scanned(s4, 0, plan[0].sources);
    LeadsOn(s4, Scan(0, plan), s5, [], s5);
    hide Leads, Next, PlanAllowed;
    LeadsOn(s3, PutLock(0, Success), s4, r4, s5);
    LeadsOn(s2, Inspect(0, true), s3, r3, s5);
    LeadsOn(s1, Spawn(0), s2, r2, s5);
    LeadsOn(EMPTY, Upload(HOUR_KEY, "s1", OneRow(x)), s1, [Spawn(0)] + r2, s5);
  }

  /** Twelve hours later run 1 takes the lock over and plans for both segments. */
  lemma TakeoverLeads(x: Row, y: Row)
    ensures Leads(HeldBy0(LATE, Working(HOUR_KEY, Older(Probing), []), map[HOUR_KEY := Fresh(x, y)]), Takeover(),
                  Both(Fresh(x, y), Older(Probing), Newer(Probing)))
  {
    var work, parts := Working(HOUR_KEY, Older(Probing), []), map[HOUR_KEY := Fresh(x, y)];
    var s2 := HeldBy0(LATE, work, parts);
    var s3, s4 := s2.(procs := map[0 := work, 1 := Starting]), s2.(procs := map[0 := work, 1 := Removing]);
    var s5 := State(LATE, None, parts, map[0 := work, 1 := Locking]);
    var s6 := State(LATE, Some(Lock(1, LATE)), parts, map[0 := work, 1 := Scanning]);
    var t := Both(Fresh(x, y), Older(Probing), Newer(Probing));
    var plan := [Planned(HOUR_KEY, [Source("s1", 0), Source("s2", 0)])];
    var r6 := [Scan(1, plan)] + [];
    var r5 := [PutLock(1, Success)] + r6;
    var r4 := [RemoveStale(1, Success)] + r5;
    Scanned(s6, 1, plan[0].sources);
    LeadsOn(s6, Scan(1, plan), t, [], t);
    hide Leads, Next, PlanAllowed;
    LeadsOn(s5, PutLock(1, Success), s6, r6, t);
    LeadsOn(s4, RemoveStale(1, Success), s5, r5, t);
    LeadsOn(s3, Inspect(1, true), s4, r4, t);
    LeadsOn(s2, Spawn(1), s3, [Inspect(1, true)] + r4, t);
  }

  /** In between a segment arrives. */
  lemma SecondSetupLeads(x: Row, y: Row)
    ensures Leads(HeldBy0(0, Working(HOUR_KEY, Older(Probing), []), map[HOUR_KEY := Alone(x)]), SecondSetup(y),
                  Both(Fresh(x, y), Older(Probing), Newer(Probing)))
  {
    var work, parts := Working(HOUR_KEY, Older(Probing), []), map[HOUR_KEY := Fresh(x, y)];
    assert Put(Alone(x), "s2", OneRow(y)) == Fresh(x, y);
    var s0, s1, s2 := HeldBy0(0, work, map[HOUR_KEY := Alone(x)]), HeldBy0(0, work, parts), HeldBy0(LATE, work, parts);
    var t := Both(Fresh(x, y), Older(Probing), Newer(Probing));
    TakeoverLeads(x, y);
    hide Leads, Next;
    LeadsOn(s1, Tick(LATE), s2, Takeover(), t);
    LeadsOn(s0, Upload(HOUR_KEY, "s2", OneRow(y)), s1, [Tick(LATE)] + Takeover(), t);
  }

  // ---------------------------------------------------------------------------------------
  // The requests

  lemma DrivesOn(p: Part, a: Attempt, c: Choice, rest: seq<Choice>)
    requires CanAdvance(p, a, c)
    ensures var (q, b) := Advance(p, a, c);
      Drives(p, a, [c] + rest) == Drives(q, b, rest) && Drive(p, a, [c] + rest) == Drive(q, b, rest)
  {
    assert ([c] + rest)[1..] == rest;
  }

  function OlderMerge(x: Row): seq<Choice> {
    [NO_CHOICE] + ([Choice([x], 0)] + ([NO_CHOICE] + ([NO_CHOICE] + [])))
  }

  function NewerMerge(x: Row, y: Row): seq<Choice> {
    [NO_CHOICE] + ([Choice([x], 0)] + ([Choice([y], 0)] + ([NO_CHOICE] + ([NO_CHOICE] + []))))
  }

  function NewerMarks(): seq<Choice> {
    [NO_CHOICE] + ([NO_CHOICE] + ([NO_CHOICE] + ([NO_CHOICE] + ([NO_CHOICE] + ([NO_CHOICE] + [])))))
  }

  /** Run 1 uploads the rows of both segments. */
  lemma NewerMerges(x: Row, y: Row)
    ensures Drives(Fresh(x, y), Newer(Probing), NewerMerge(x, y))
    ensures Drive(Fresh(x, y), Newer(Probing), NewerMerge(x, y))
         == (Fresh(x, y).(output := Some(File([], [x, y], 0))), Newer(Retaining(0)))
  {
    var p := Fresh(x, y);
    var r4 := [NO_CHOICE] + [];
    var r3 := [NO_CHOICE] + r4;
    var r2 := [Choice([y], 0)] + r3;
    DrivesOn(p, Newer(Probing), NO_CHOICE, [Choice([x], 0)] + r2);
    DrivesOn(p, Newer(Merging(0, None, [])), Choice([x], 0), r2);
    assert [] + [x] == [x] && [x] + [y] == [x, y];
    DrivesOn(p, Newer(Merging(1, Some([]), [x])), Choice([y], 0), r3);
    DrivesOn(p, Newer(Merging(2, Some([]), [x, y])), NO_CHOICE, r4);
    DrivesOn(p, Newer(Uploading(File([], [x, y], 0))), NO_CHOICE, []);
  }

  /** Run 0, which knows of one segment only, uploads over it. */
  lemma OlderMerges(x: Row, y: Row)
    ensures var p := Fresh(x, y).(output := Some(File([], [x, y], 0)));
      && Drives(p, Older(Probing), OlderMerge(x))
      && Drive(p, Older(Probing), OlderMerge(x)) == (p.(output := Some(OneRow(x))), Older(Retaining(0)))
  {
    var p := Fresh(x, y).(output := Some(File([], [x, y], 0)));
    var r3 := [NO_CHOICE] + [];
    var r2 := [NO_CHOICE] + r3;
    DrivesOn(p, Older(Probing), NO_CHOICE, [Choice([x], 0)] + r2);
    DrivesOn(p, Older(Merging(0, None, [])), Choice([x], 0), r2);
    assert [] + [x] == [x];
    DrivesOn(p, Older(Merging(1, Some([]), [x])), NO_CHOICE, r3);
    DrivesOn(p, Older(Uploading(OneRow(x))), NO_CHOICE, []);
  }

  /** What is left: no segment, and an output without the second row. */
  function Left(x: Row, y: Row): Part {
    Part(map[], Some(OneRow(x)), true, Stored(x, y), Stored(x, y), {"s1", "s2"})
  }

  lemma NewerDeletes(x: Row, y: Row, p: Part)
    requires p == Left(x, y).(segments := Stored(x, y))
    ensures Drives(p, Newer(Deleting(0)), [NO_CHOICE] + [])
    ensures Drive(p, Newer(Deleting(0)), [NO_CHOICE] + []) == (Left(x, y), Newer(Deleting(2)))
  {
    var a := Newer(Deleting(0));
    assert Chunk(a, 0) == a.sources;
    assert a.sources[0].name in Names(a.sources) && a.sources[1].name in Names(a.sources);
    assert p.segments - Names(Chunk(a, 0)) == map[];
    DrivesOn(p, a, NO_CHOICE, []);
  }

  /** Run 1 retains and checks both segments, puts the marker and deletes them. */
  lemma NewerMarksAndDeletes(x: Row, y: Row)
    ensures var p := Fresh(x, y).(output := Some(OneRow(x)));
      Drives(p, Newer(Retaining(0)), NewerMarks())
      && Drive(p, Newer(Retaining(0)), NewerMarks()) == (Left(x, y), Newer(Deleting(2)))
  {
    var p := Fresh(x, y).(output := Some(OneRow(x)));
    var r5 := [NO_CHOICE] + [];
    var r4 := [NO_CHOICE] + r5;
    var r3 := [NO_CHOICE] + r4;
    var r2 := [NO_CHOICE] + r3;
    var r1 := [NO_CHOICE] + r2;
    var p1 := p.(retained := map["s1" := OneRow(x)]);
    var p2 := p1.(checked := {"s1"});
    var p3 := p2.(retained := Stored(x, y));
    var p4 := p3.(checked := {"s1", "s2"});
    assert p.retained["s1" := OneRow(x)] == p1.retained && p.checked + {"s1"} == p2.checked;
    assert p2.retained["s2" := OneRow(y)] == p3.retained && p3.checked + {"s2"} == p4.checked;
    DrivesOn(p, Newer(Retaining(0)), NO_CHOICE, r1);
    DrivesOn(p1, Newer(Verifying(0)), NO_CHOICE, r2);
    DrivesOn(p2, Newer(Retaining(1)), NO_CHOICE, r3);
    DrivesOn(p3, Newer(Verifying(1)), NO_CHOICE, r4);
    DrivesOn(p4, Newer(Retaining(2)), NO_CHOICE, r5);
    NewerDeletes(x, y, p4.(marked := true));
  }

  // ---------------------------------------------------------------------------------------
  // The loss

  lemma JoinAll(s0: State, a: seq<Event>, s1: State, b: seq<Event>, s2: State, c: seq<Event>, s3: State,
                 d: seq<Event>, s4: State, e: seq<Event>, s5: State)
    returns (es: seq<Event>, ss: seq<State>)
    requires Leads(s0, a, s1) && Leads(s1, b, s2) && Leads(s2, c, s3) && Leads(s3, d, s4) && Leads(s4, e, s5)
    ensures |ss| == |es| + 1 && ss[0] == s0 && ss[|es|] == s5 && forall i :: 0 <= i < |es| ==> StepAt(ss, es, i)
  {
    hide Leads, StepAt;
    LeadsJoin(s0, a, s1, b, s2);
    LeadsJoin(s0, a + b, s2, c, s3);
    LeadsJoin(s0, a + b + c, s3, d, s4);
    LeadsJoin(s0, a + b + c + d, s4, e, s5);
    es := a + b + c + d + e;
    ss := LeadsSteps(s0, es, s5);
  }

  /** Without safe takeovers a row can be lost: a run after which a row that was put is in no live
      segment of its partition and not in the marked output. */
  lemma LockLossLosesRow(x: Row, y: Row) returns (ss: seq<State>, es: seq<Event>)
    requires x != y
    ensures IsRun(ss, es)
    ensures var p := Objects(ss[|es|], HOUR_KEY);
      && "s2" in p.uploaded && y in p.uploaded["s2"].rows
      && p.segments == map[] && p.marked && p.output.Some? && y !in p.output.value.rows
  {
    var p := Fresh(x, y);
    var merged, overwritten := p.(output := Some(File([], [x, y], 0))), p.(output := Some(OneRow(x)));
    var s1 := HeldBy0(0, Working(HOUR_KEY, Older(Probing), []), map[HOUR_KEY := Alone(x)]);
    var s2, s3 := Both(p, Older(Probing), Newer(Probing)), Both(merged, Older(Probing), Newer(Retaining(0)));
    var s4 := Both(overwritten, Older(Retaining(0)), Newer(Retaining(0)));
    var s5 := Both(Left(x, y), Older(Retaining(0)), Newer(Deleting(2)));
    FirstSetupLeads(x);
    SecondSetupLeads(x, y);
    NewerMerges(x, y);
    SecondRequests(p, Older(Probing), Newer(Probing), NewerMerge(x, y));
    OlderMerges(x, y);
    FirstRequests(merged, Older(Probing), Newer(Retaining(0)), OlderMerge(x));
    NewerMarksAndDeletes(x, y);
    SecondRequests(overwritten, Older(Retaining(0)), Newer(Retaining(0)), NewerMarks());
    es, ss := JoinAll(EMPTY, FirstSetup(x), s1, SecondSetup(y), s2, Requests(1, NewerMerge(x, y)), s3,
                      Requests(0, OlderMerge(x)), s4, Requests(1, NewerMarks()), s5);
  }
}
