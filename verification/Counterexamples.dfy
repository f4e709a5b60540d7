/** Runs of the scheduler, from the empty store, that end badly: a marked job that is never removed, and a
    result that is applied to a job it is not about. */
module Counterexamples {
  import opened Wrappers
  import opened Profiles
  import opened Activation
  import opened Jobs
  import opened Slices
  import opened Machine
  import opened Removal
  import opened Ownership
  import opened Settling
  import opened Runs

  /** A run to `s`, truthful if so required. */
  ghost predicate Reaches(p: Platform, b: Run, s: State, truthful: bool) {
    IsRun(p, b) && Final(p, b) == s && (truthful ==> Truthful(p, b))
  }

  lemma {:induction false} Extend(p: Platform, b: Run, s: State, step: Step, s': State, truthful: bool) returns (b': Run)
    requires Reaches(p, b, s, truthful) && Enabled(s, step) && Apply(p, s, step) == s'
    requires truthful ==> TruthfulStep(s, step)
    ensures Reaches(p, b', s', truthful)
  {
    b' := Then(b, step);
  }

  /** One step of a goroutine. */
  lemma {:induction false} Move(p: Platform, b: Run, s: State, r: nat, reply: Reply, truthful: bool) returns (b': Run, s': State)
    requires Reaches(p, b, s, truthful) && CanRun(s, r, reply)
    requires truthful && s.routines[r].pc.InGetState? ==> reply == Reported(Truth(s, s.routines[r].id))
    ensures Reaches(p, b', s', truthful)
    ensures var ro := s.routines[r];
            s' == s.(routines := s.routines[r := NextRoutine(ro, s.objs[ro.o], reply)], pods := PodsAfter(s.pods, ro, reply), trace := s'.trace)
  {
    s' := DoRun(s, r, reply);
    b' := Extend(p, b, s, RunRoutine(r, reply), s', truthful);
  }

  // ----- a store with one job -----

  const W := Workload("w", Pod, "", [WorkloadProfile("a", [])])
  const NOT_ACTIVE := [ProfileResult("a", [])]

  function Created(w: Workload): (j: JobView) {
    JobView(w, Ready, Ready, false, None, Some(Retry(false, 0)))
  }

  predicate Solo(s: State) {
    s.control == Idle && s.clock == 0 && s.backing == [0] && s.len == 1 && |s.objs| == 1 && s.objs[0].w == W && s.objs[0].cron.None?
  }

  lemma AddedAlone(p: Platform, s: State) returns (s': State)
    requires s.objs == [] && s.backing == [] && s.len == 0 && s.clock == 0 && s.control == Adding([W], [])
    ensures CanAdd(s) && s' == DoAdd(p, s)
    ensures s' == s.(objs := [Created(W)], backing := [0], len := 1, control := Adding([], []), trace := s'.trace)
  {
    s' := DoAdd(p, s);
    assert [W][1..] == [] && Stored(s) == [];
    assert s'.backing == [0] && s'.objs == [Created(W)];
  }

  /** The workload is configured. */
  lemma Configured(p: Platform) returns (b: Run, s: State)
    ensures Reaches(p, b, s, true) && Solo(s) && s.objs == [Created(W)] && s.pending
    ensures s.futures == map[] && s.routines == [] && s.results == [] && s.pods == {}
  {
    s := State(0, [], [], 0, map[], [], [], false, Idle, {}, {}, Empty);
    b := Begin(s);
    assert ListsFresh(s, [W], [W]) by {
      assert LastWith([W], "w") == Some(W);
    }
    var s1 := s.(control := Adding([W], []), desired := Wanted(p, s, [W]));
    b := Extend(p, b, s, ReceiveConfig([W], [W], []), s1, true);
    var s2 := AddedAlone(p, s1);
    b := Extend(p, b, s1, AddJob, s2, true);
    var s3 := s2.(pending := true, control := Marking([]));
    b := Extend(p, b, s2, Signal, s3, true);
    s := s3.(control := Idle);
    b := Extend(p, b, s3, Return, s, true);
  }

  /** A pending evaluation is carried out. */
  lemma Evaluated(p: Platform, b0: Run, s0: State) returns (b: Run, s: State)
    requires Reaches(p, b0, s0, true) && Solo(s0) && s0.pending && !s0.objs[0].marked
    ensures Reaches(p, b, s, true)
    ensures s == s0.(pending := false, objs := [SetTarget(s0.objs[0], Desired(W, s0.results))])
  {
    var s1 := s0.(pending := false, control := Evaluating(0));
    b := Extend(p, b0, s0, BeginEvaluation, s1, true);
    assert Stored(s1) == [0];
    var s2 := s1.(objs := [SetTarget(s0.objs[0], Desired(W, s0.results))], control := Evaluating(1));
    b := Extend(p, b, s1, EvaluateJob, s2, true);
    s := s2.(control := Idle);
    b := Extend(p, b, s2, Return, s, true);
  }

  const SOLO_PASS := Pass(0, 1, [0], {}, {}, {})

  lemma BeginsAlone(p: Platform, b0: Run, s0: State) returns (b: Run, s: State)
    requires Reaches(p, b0, s0, true) && Solo(s0)
    ensures Reaches(p, b, s, true) && s == s0.(control := Executing(SOLO_PASS))
  {
    assert Stored(s0) == [0];
    s := s0.(control := Executing(SOLO_PASS));
    b := Extend(p, b0, s0, BeginPass, s, true);
  }

  /** The visit itself: the report leads to a launch. */
  lemma VisitLaunches(p: Platform, s: State, report: JobState) returns (s': State)
    requires s.control == Awaiting(SOLO_PASS) && Solo(s.(control := Idle)) && s.futures == map[] && MapperState(report)
    requires Choose(Observe(s.objs[0], report, 0), 0).Launch?
    ensures CanReport(s, Some(report), 0, 0) && s' == DoReport(p, s, Some(report), 0, 0)
    ensures s'.control.Executing? && s'.control.pass.i == s'.control.pass.n
    ensures s' == s.(objs := [Observe(s.objs[0], report, 0)], futures := map["w" := |s.routines|], control := s'.control,
                     routines := s.routines + [Routine(0, "w", Pod, Start, None)], trace := s'.trace)
  {
    s' := DoReport(p, s, Some(report), 0, 0);
    assert Seen(s, 0, report, 0).objs == [Observe(s.objs[0], report, 0)];
    assert s'.objs == [Observe(s.objs[0], report, 0)];
  }

  /** A pass over the one job that launches a goroutine. */
  lemma Launches(p: Platform, b0: Run, s0: State) returns (b: Run, s: State)
    requires Reaches(p, b0, s0, true) && Solo(s0) && s0.futures == map[]
    requires Choose(Observe(s0.objs[0], Truth(s0, "w"), 0), 0).Launch?
    ensures Reaches(p, b, s, true)
    ensures s == s0.(objs := [Observe(s0.objs[0], Truth(s0, "w"), 0)], futures := map["w" := |s0.routines|],
                     routines := s0.routines + [Routine(0, "w", Pod, Start, None)], trace := s.trace)
  {
    var s1;
    b, s1 := BeginsAlone(p, b0, s0);
    var s2 := s1.(control := Awaiting(SOLO_PASS));
    b := Extend(p, b, s1, QueryState, s2, true);
    var s3 := VisitLaunches(p, s2, Truth(s0, "w"));
    b := Extend(p, b, s2, TakeReport(Some(Truth(s0, "w")), 0, 0), s3, true);
    s := s3.(control := Idle);
    b := Extend(p, b, s3, Return, s, true);
  }

  /** A pass over the one job that finds its goroutine finished. */
  lemma Polls(p: Platform, b0: Run, s0: State, r: nat, result: JobState) returns (b: Run, s: State)
    requires Reaches(p, b0, s0, true) && Solo(s0) && s0.futures == map["w" := r] && r < |s0.routines|
    requires s0.routines[r].pc == Finished && s0.routines[r].value == Some(Reached(result))
    ensures Reaches(p, b, s, true)
    ensures s == s0.(objs := [Observe(s0.objs[0], result, 0)], futures := map[], trace := s.trace)
  {
    var s1;
    b, s1 := BeginsAlone(p, b0, s0);
    var s2 := DoPoll(s1);
    assert s2.objs == [Observe(s0.objs[0], result, 0)] && s2.futures == map[];
    b := Extend(p, b, s1, PollFuture, s2, true);
    s := s2.(control := Idle);
    b := Extend(p, b, s2, Return, s, true);
  }

  // ----- its goroutines -----

  /** From the result to the end of the goroutine. */
  lemma Finishes(p: Platform, b0: Run, s0: State, r: nat, truthful: bool) returns (b: Run, s: State)
    requires Reaches(p, b0, s0, truthful) && r < |s0.routines| && s0.routines[r].pc.Sending? && s0.routines[r].o < |s0.objs|
    ensures Reaches(p, b, s, truthful)
    ensures var ro := s0.routines[r];
            s == s0.(routines := s0.routines[r := ro.(pc := Finished, value := Some(ro.pc.result))], trace := s.trace)
  {
    b, s := Move(p, b0, s0, r, Silent, truthful);
    b, s := Move(p, b, s, r, Silent, truthful);
  }

  /** A goroutine that starts the pod: it does not exist, and is running afterwards. */
  lemma Starts(p: Platform, b0: Run, s0: State, r: nat) returns (b: Run, s: State)
    requires Reaches(p, b0, s0, true) && r < |s0.routines| && s0.routines[r] == Routine(0, "w", Pod, Start, None) && "w" !in s0.pods
    requires |s0.objs| == 1 && s0.objs[0].target.Running? && !s0.objs[0].current.Running?
    ensures Reaches(p, b, s, true)
    ensures s == s0.(routines := s0.routines[r := Routine(0, "w", Pod, Finished, Some(Reached(Running)))], pods := s0.pods + {"w"}, trace := s.trace)
  {
    b, s := Move(p, b0, s0, r, Silent, true);
    b, s := Move(p, b, s, r, Silent, true);
    b, s := StartsPod(p, b, s, r);
    b, s := Finishes(p, b, s, r, true);
  }

  lemma StartsPod(p: Platform, b0: Run, s0: State, r: nat) returns (b: Run, s: State)
    requires Reaches(p, b0, s0, true) && r < |s0.routines| && s0.routines[r] == Routine(0, "w", Pod, InExists, None) && "w" !in s0.pods
    requires |s0.objs| == 1
    ensures Reaches(p, b, s, true)
    ensures s == s0.(routines := s0.routines[r := Routine(0, "w", Pod, Sending(Reached(Running)), None)], pods := s0.pods + {"w"}, trace := s.trace)
  {
    b, s := Move(p, b0, s0, r, Present(false), true);
    b, s := Move(p, b, s, r, Silent, true);
    b, s := Move(p, b, s, r, Done, true);
    b, s := Move(p, b, s, r, Reported(Running), true);
  }

  /** A goroutine that stops and removes a pod and then reports `result`. */
  lemma Stops(p: Platform, b0: Run, s0: State, r: nat, result: JobState, truthful: bool) returns (b: Run, s: State)
    requires Reaches(p, b0, s0, truthful) && r < |s0.routines| && s0.routines[r].pc == Start && s0.routines[r].kind == Pod
    requires var o := s0.routines[r].o;
             o < |s0.objs| && s0.objs[o].current.Running? && (s0.objs[o].target.Exited? || s0.objs[o].target.Inactive?)
    requires MapperState(result) && (truthful ==> result == Unknown)
    ensures Reaches(p, b, s, truthful)
    ensures var ro := s0.routines[r];
            s == s0.(routines := s0.routines[r := ro.(pc := Finished, value := Some(Reached(result)))], pods := s0.pods - {ro.id}, trace := s.trace)
  {
    b, s := TurnsToStop(p, b0, s0, r, truthful);
    b, s := Clears(p, b, s, r, result, truthful);
    b, s := Finishes(p, b, s, r, truthful);
  }

  lemma TurnsToStop(p: Platform, b0: Run, s0: State, r: nat, truthful: bool) returns (b: Run, s: State)
    requires Reaches(p, b0, s0, truthful) && r < |s0.routines| && s0.routines[r].pc == Start && s0.routines[r].kind == Pod
    requires var o := s0.routines[r].o;
             o < |s0.objs| && s0.objs[o].current.Running? && (s0.objs[o].target.Exited? || s0.objs[o].target.Inactive?)
    ensures Reaches(p, b, s, truthful)
    ensures s == s0.(routines := s0.routines[r := s0.routines[r].(pc := InStop)], trace := s.trace)
  {
    b, s := Move(p, b0, s0, r, Silent, truthful);
    b, s := Move(p, b, s, r, Silent, truthful);
    b, s := Move(p, b, s, r, Silent, truthful);
  }

  lemma Clears(p: Platform, b0: Run, s0: State, r: nat, result: JobState, truthful: bool) returns (b: Run, s: State)
    requires Reaches(p, b0, s0, truthful) && r < |s0.routines| && s0.routines[r].pc == InStop && s0.routines[r].kind == Pod
    requires s0.routines[r].o < |s0.objs| && MapperState(result) && (truthful ==> result == Unknown)
    ensures Reaches(p, b, s, truthful)
    ensures var ro := s0.routines[r];
            s == s0.(routines := s0.routines[r := ro.(pc := Sending(Reached(result)))], pods := s0.pods - {ro.id}, trace := s.trace)
  {
    b, s := Move(p, b0, s0, r, Done, truthful);
    b, s := Move(p, b, s, r, Done, truthful);
    b, s := Move(p, b, s, r, Reported(result), truthful);
  }

  // ----- a job that is never removed -----

  lemma NotActive()
    ensures Desired(W, NOT_ACTIVE) == Inactive && Desired(W, []) == Running
  {
    assert Listed(W.profiles, "a") == Some([]);
    assert !Satisfied(W.profiles, NOT_ACTIVE, NOT_ACTIVE[0].name);
  }

  /** The workload is launched. */
  lemma LaunchedRun(p: Platform) returns (b: Run, s: State)
    ensures Reaches(p, b, s, true) && Solo(s) && s.objs == [Created(W).(target := Running)] && !s.pending && s.results == []
    ensures s.futures == map["w" := 0] && s.routines == [Routine(0, "w", Pod, Start, None)] && s.pods == {}
  {
    NotActive();
    b, s := Configured(p);
    b, s := Evaluated(p, b, s);
    b, s := Launches(p, b, s);
  }

  /** It runs. */
  lemma RunningRun(p: Platform) returns (b: Run, s: State)
    ensures Reaches(p, b, s, true) && Solo(s) && s.objs == [Created(W).(current := Running, target := Running)]
    ensures !s.pending && s.futures == map[] && |s.routines| == 1 && s.results == [] && s.pods == {"w"}
  {
    b, s := LaunchedRun(p);
    b, s := Starts(p, b, s, 0);
    b, s := Polls(p, b, s, 0, Running);
  }

  /** Its profile turns false. */
  lemma UnwantedRun(p: Platform) returns (b: Run, s: State)
    ensures Reaches(p, b, s, true) && Solo(s) && s.objs == [Created(W).(current := Running, target := Inactive)]
    ensures s.futures == map[] && |s.routines| == 1 && s.pods == {"w"}
  {
    NotActive();
    var s0;
    b, s0 := RunningRun(p);
    s := s0.(results := NOT_ACTIVE, pending := true);
    b := Extend(p, b, s0, ReceiveResults(NOT_ACTIVE, true), s, true);
    b, s := Evaluated(p, b, s);
  }

  /** It is stopped. */
  lemma InactiveRun(p: Platform) returns (b: Run, s: State)
    ensures Reaches(p, b, s, true) && Solo(s) && s.objs == [Created(W).(current := Inactive, target := Inactive)]
    ensures s.futures == map[] && s.pods == {}
  {
    b, s := UnwantedRun(p);
    b, s := Launches(p, b, s);
    b, s := Stops(p, b, s, 1, Unknown, true);
    b, s := Polls(p, b, s, 1, Unknown);
  }

  /** Removal of marked jobs is not guaranteed, with an executor whose reports are all true: in this run the
      workload is started, stopped because of its profile, and then taken out of the configuration.  Its
      job is marked, has no pod, and is stuck. */
  lemma StrandedRun(p: Platform) returns (b: Run)
    ensures IsRun(p, b) && Truthful(p, b) && Stuck(Final(p, b), 0) && Stranded(Final(p, b), 0)
  {
    var s;
    b, s := InactiveRun(p);
    assert Stored(s) == [0];
    var s1 := s.(control := Marking([0]), desired := {});
    b := Extend(p, b, s, ReceiveNone, s1, true);
    Always(p, b);
    MarkingInactiveStrands(s1);
    b := Extend(p, b, s1, MarkJob, DoMark(s1), true);
  }

  // ----- a result applied to another job -----

  const A := Workload("a", Pod, "", [])
  const B := Workload("b", Pod, "", [])
  const C := Workload("c", Pod, "", [])

  /** The next workload of a configuration message is added. */
  lemma Adds(p: Platform, b0: Run, s0: State, w: Workload, rest: seq<Workload>) returns (b: Run, s: State)
    requires Reaches(p, b0, s0, false) && s0.control == Adding([w] + rest, []) && w.cron == "" && s0.clock == 0
    ensures Reaches(p, b, s, false)
    ensures s == s0.(objs := s0.objs + [Created(w)], backing := Stored(s0) + [|s0.objs|], len := |Stored(s0)| + 1,
                     control := Adding(rest, []), trace := s.trace)
  {
    assert ([w] + rest)[1..] == rest;
    s := DoAdd(p, s0);
    b := Extend(p, b0, s0, AddJob, s, false);
  }

  /** The end of a configuration message without jobs to mark. */
  lemma Signals(p: Platform, b0: Run, s0: State) returns (b: Run, s: State)
    requires Reaches(p, b0, s0, false) && s0.control == Adding([], [])
    ensures Reaches(p, b, s, false) && s == s0.(control := Idle, pending := true)
  {
    var s1 := s0.(control := Marking([]), pending := true);
    b := Extend(p, b0, s0, Signal, s1, false);
    s := s1.(control := Idle);
    b := Extend(p, b, s1, Return, s, false);
  }

  lemma Marks(p: Platform, b0: Run, s0: State, o: nat, rest: seq<nat>) returns (b: Run, s: State)
    requires Reaches(p, b0, s0, false) && s0.control == Marking([o] + rest) && o < |s0.objs|
    ensures Reaches(p, b, s, false)
    ensures s == s0.(objs := s0.objs[o := Mark(s0.objs[o])], control := Marking(rest), trace := s.trace)
  {
    assert ([o] + rest)[1..] == rest;
    s := DoMark(s0);
    b := Extend(p, b0, s0, MarkJob, s, false);
  }

  lemma FreshTrio(s: State)
    requires Stored(s) == []
    ensures ListsFresh(s, [A, B, C], [A, B, C]) && ListsStale(s, [A, B, C], [])
  {
    var l := [A, B, C];
    assert l[..2] == [A, B] && [A, B][..1] == [A];
    assert LastWith([A], "a") == Some(A) && LastWith([A, B], "b") == Some(B) && LastWith([A, B], "a") == Some(A);
    assert LastWith(l, "a") == Some(A) && LastWith(l, "b") == Some(B) && LastWith(l, "c") == Some(C);
  }

  /** Three workloads are to be configured. */
  lemma TrioMessage(p: Platform) returns (b: Run, s: State)
    ensures Reaches(p, b, s, false) && s.control == Adding([A] + ([B] + ([C] + [])), []) && s.clock == 0
    ensures s.futures == map[] && s.routines == [] && s.objs == [] && s.backing == [] && s.len == 0
  {
    var s0 := State(0, [], [], 0, map[], [], [], false, Idle, {}, {}, Empty);
    b := Begin(s0);
    FreshTrio(s0);
    s := s0.(control := Adding([A, B, C], []), desired := Wanted(p, s0, [A, B, C]));
    b := Extend(p, b, s0, ReceiveConfig([A, B, C], [A, B, C], []), s, false);
    assert [A, B, C] == [A] + ([B] + ([C] + []));
  }

  predicate Loaded(s: State, ws: seq<Workload>, objs: seq<JobView>, backing: seq<nat>) {
    && s.control == Adding(ws, []) && s.clock == 0 && s.futures == map[] && s.routines == []
    && s.objs == objs && s.backing == backing && s.len == |backing|
  }

  lemma AddsToTrio(p: Platform, b0: Run, s0: State, w: Workload, rest: seq<Workload>, objs: seq<JobView>, backing: seq<nat>)
    returns (b: Run, s: State)
    requires Reaches(p, b0, s0, false) && Loaded(s0, [w] + rest, objs, backing) && w.cron == ""
    ensures Reaches(p, b, s, false) && Loaded(s, rest, objs + [Created(w)], backing + [|objs|])
  {
    assert Stored(s0) == backing;
    b, s := Adds(p, b0, s0, w, rest);
  }

  lemma TrioRun(p: Platform) returns (b: Run, s: State)
    ensures Reaches(p, b, s, false) && s.control == Idle && s.clock == 0 && s.futures == map[] && s.routines == []
    ensures s.objs == [Created(A), Created(B), Created(C)] && s.backing == [0, 1, 2] && s.len == 3
  {
    b, s := TrioMessage(p);
    b, s := AddsToTrio(p, b, s, A, [B] + ([C] + []), [], []);
    b, s := AddsToTrio(p, b, s, B, [C] + [], [] + [Created(A)], [] + [0]);
    b, s := AddsToTrio(p, b, s, C, [], [] + [Created(A)] + [Created(B)], [] + [0] + [1]);
    b, s := Signals(p, b, s);
  }

  function Doomed(w: Workload): (j: JobView) {
    Mark(Created(w))
  }

  /** All three are taken out of the configuration. */
  lemma UnwantedTrioRun(p: Platform) returns (b: Run, s: State)
    ensures Reaches(p, b, s, false) && s.control == Marking([0] + ([1] + ([2] + []))) && s.clock == 0
    ensures s.futures == map[] && s.routines == []
    ensures s.objs == [Created(A), Created(B), Created(C)] && s.backing == [0, 1, 2] && s.len == 3
  {
    var s0;
    b, s0 := TrioRun(p);
    assert Stored(s0) == [0] + ([1] + ([2] + []));
    s := s0.(control := Marking(Stored(s0)), desired := {});
    b := Extend(p, b, s0, ReceiveNone, s, false);
  }

  lemma MarkedTrioRun(p: Platform) returns (b: Run, s: State)
    ensures Reaches(p, b, s, false) && s.control == Idle && s.clock == 0 && s.futures == map[] && s.routines == []
    ensures s.objs == [Doomed(A), Doomed(B), Doomed(C)] && s.backing == [0, 1, 2] && s.len == 3
  {
    b, s := UnwantedTrioRun(p);
    b, s := Marks(p, b, s, 0, [1] + ([2] + []));
    b, s := Marks(p, b, s, 1, [2] + []);
    b, s := Marks(p, b, s, 2, []);
    var s2 := s.(control := Idle);
    b := Extend(p, b, s, Return, s2, false);
    s := s2;
  }

  predicate InPass(s: State, i: nat, n: nat) {
    s.control.Executing? && s.control.pass.i == i && s.control.pass.n == n
  }

  lemma Begins(p: Platform, b0: Run, s0: State) returns (b: Run, s: State)
    requires Reaches(p, b0, s0, false) && s0.control == Idle
    ensures Reaches(p, b, s, false) && s == s0.(control := s.control) && InPass(s, 0, |Stored(s0)|)
  {
    s := s0.(control := Executing(Pass(0, |Stored(s0)|, Stored(s0), {}, {}, {})));
    b := Extend(p, b0, s0, BeginPass, s, false);
  }

  lemma Reports(p: Platform, b0: Run, s0: State, report: Option<JobState>) returns (b: Run, s1: State, s: State)
    requires Reaches(p, b0, s0, false) && CanQuery(s0) && s0.clock == 0 && s0.len <= |s0.backing|
    requires report.Some? ==> MapperState(report.value)
    ensures s1 == s0.(control := Awaiting(s0.control.pass)) && CanReport(s1, report, 0, 0)
    ensures Reaches(p, b, s, false) && s == DoReport(p, s1, report, 0, 0)
  {
    s1 := s0.(control := Awaiting(s0.control.pass));
    b := Extend(p, b0, s0, QueryState, s1, false);
    s := DoReport(p, s1, report, 0, 0);
    b := Extend(p, b, s1, TakeReport(report, 0, 0), s, false);
  }

  /** A visit of a job that is marked and never ran: it is unknown, and removed. */
  lemma Removes(p: Platform, b0: Run, s0: State, at: nat) returns (b: Run, s: State)
    requires Reaches(p, b0, s0, false) && CanQuery(s0) && s0.clock == 0 && s0.len <= |s0.backing| && at < s0.len
    requires var j := s0.objs[Visited(s0, s0.control.pass)];
             j.marked && j.current == Ready && at == IndexOf(s0.objs, Stored(s0), j.w.id)
    ensures Reaches(p, b, s, false) && InPass(s, s0.control.pass.i + 1, s0.control.pass.n)
    ensures s == s0.(backing := ShiftDown(s0.backing, at, s0.len), len := s0.len - 1,
                     futures := s0.futures - {VisitedId(s0, s0.control.pass)}, control := s.control, trace := s.trace)
  {
    var s1;
    b, s1, s := Reports(p, b0, s0, Some(Unknown));
    var v := Visited(s1, s1.control.pass);
    assert Observe(s1.objs[v], Unknown, 0) == s1.objs[v];
    assert s1.objs[v := s1.objs[v]] == s1.objs;
  }

  lemma Places(objs: seq<JobView>)
    requires objs == [Doomed(A), Doomed(B), Doomed(C)]
    ensures IndexOf(objs, [0, 1, 2], "a") == 0 && IndexOf(objs, [1, 2], "c") == 1
  {
    assert [1, 2][1..] == [2];
  }

  /** In one pass the first and the third are removed, and the second is passed over. */
  lemma RemovedOnceRun(p: Platform) returns (b: Run, s: State)
    ensures Reaches(p, b, s, false) && InPass(s, 1, 3) && s.clock == 0 && s.futures == map[] && s.routines == []
    ensures s.objs == [Doomed(A), Doomed(B), Doomed(C)] && s.backing == [1, 2, 2] && s.len == 2
  {
    b, s := MarkedTrioRun(p);
    Places(s.objs);
    assert Stored(s) == [0, 1, 2];
    b, s := Begins(p, b, s);
    b, s := Removes(p, b, s, 0);
    assert s.backing == [1, 2, 2];
  }

  lemma RemovedTwiceRun(p: Platform) returns (b: Run, s: State)
    ensures Reaches(p, b, s, false) && InPass(s, 2, 3) && s.clock == 0 && s.futures == map[] && s.routines == []
    ensures s.objs == [Doomed(A), Doomed(B), Doomed(C)] && s.backing == [1, 2, 2] && s.len == 1
  {
    b, s := RemovedOnceRun(p);
    Places(s.objs);
    assert Stored(s) == [1, 2];
    b, s := Removes(p, b, s, 1);
    assert s.backing == [1, 2, 2];
  }

  /** The pass comes to the third one again, and now it is running: a goroutine is launched to stop it. */
  lemma RelaunchedRun(p: Platform) returns (b: Run, s: State)
    ensures Reaches(p, b, s, false) && s.control == Idle && s.clock == 0
    ensures s.futures == map["c" := 0] && s.routines == [Routine(2, "c", Pod, Start, None)]
    ensures s.objs == [Doomed(A), Doomed(B), Doomed(C).(current := Running)] && Stored(s) == [1]
  {
    var s1;
    b, s := RemovedTwiceRun(p);
    b, s1, s := Reports(p, b, s, Some(Running));
    RunningAgain(p, s1);
    var s2 := s.(control := Idle);
    b := Extend(p, b, s, Return, s2, false);
    s := s2;
  }

  lemma RunningAgain(p: Platform, s: State)
    requires CanReport(s, Some(Running), 0, 0) && s.control.pass.i == 2 && s.control.pass.n == 3 && s.futures == map[] && s.routines == []
    requires s.objs == [Doomed(A), Doomed(B), Doomed(C)] && s.backing == [1, 2, 2] && s.len == 1
    ensures var s' := DoReport(p, s, Some(Running), 0, 0);
            && InPass(s', 3, 3) && s'.clock == 0 && Stored(s') == [1]
            && s'.futures == map["c" := 0] && s'.routines == [Routine(2, "c", Pod, Start, None)]
            && s'.objs == [Doomed(A), Doomed(B), Doomed(C).(current := Running)]
  {
    assert Observe(Doomed(C), Running, 0) == Doomed(C).(current := Running);
    var s1 := Seen(s, 2, Running, 0);
    assert s1.objs == [Doomed(A), Doomed(B), Doomed(C).(current := Running)];
    assert s1.objs[2 := s1.objs[2]] == s1.objs;
  }

  lemma FreshAgain(s: State)
    requires Stored(s) == [1] && |s.objs| == 3 && s.objs[1].w == B
    ensures ListsFresh(s, [B, C], [C]) && ListsStale(s, [B, C], [])
  {
    assert [B, C][..1] == [B];
    assert LastWith([B], "b") == Some(B);
    assert LastWith([B, C], "c") == Some(C) && LastWith([B, C], "b") == Some(B);
    assert s.objs[Stored(s)[0]].w.id == "b" && "b" != "c";
    assert HasId(s, "b");
    assert !HasId(s, "c");
    assert [C][0].id == "c";
  }

  /** The third workload is configured again and gets a new job. */
  lemma ReconfiguredRun(p: Platform) returns (b: Run, s: State)
    ensures Reaches(p, b, s, false) && s.control == Idle && s.clock == 0 && s.backing == [1, 3] && s.len == 2
    ensures s.objs == [Doomed(A), Doomed(B), Doomed(C).(current := Running), Created(C)]
    ensures s.futures == map["c" := 0] && s.routines == [Routine(2, "c", Pod, Start, None)]
  {
    b, s := RelaunchedRun(p);
    FreshAgain(s);
    var s1 := s.(control := Adding([C] + [], []), desired := Wanted(p, s, [B, C]));
    assert [C] == [C] + [];
    b := Extend(p, b, s, ReceiveConfig([B, C], [C], []), s1, false);
    b, s := Adds(p, b, s1, C, []);
    assert s.backing == [1, 3];
    b, s := Signals(p, b, s);
  }

  /** The goroutine of the old one runs to its end, and a pass comes to the new one. */
  lemma ComesBackRun(p: Platform) returns (b: Run, s: State)
    ensures Reaches(p, b, s, false) && InPass(s, 0, 2) && s.clock == 0 && s.backing == [1, 3] && s.len == 2
    ensures s.objs == [Doomed(A), Doomed(B), Doomed(C).(current := Running), Created(C)]
    ensures s.futures == map["c" := 0] && s.routines == [Routine(2, "c", Pod, Finished, Some(Reached(Exited)))]
  {
    b, s := ReconfiguredRun(p);
    b, s := Stops(p, b, s, 0, Exited, false);
    b, s := Begins(p, b, s);
  }

  /** A run in which the result of a goroutine is applied to a job that it is not about: the new job of the
      third workload, which no goroutine has touched, is taken for Exited. */
  lemma MisdirectedRun(p: Platform) returns (b: Run)
    ensures IsRun(p, Then(b, PollFuture))
    ensures var s, s' := Final(p, b), Final(p, Then(b, PollFuture));
            && CanPoll(s) && Visited(s, s.control.pass) == 3 && |s.objs| == 4 && 3 in Stored(s)
            && |s.routines| == 1 && s.routines[0].o == 2
            && s.objs[3].current == Ready && |s'.objs| == 4 && s'.objs[3].current == Exited
  {
    var s, s1;
    b, s := ComesBackRun(p);
    assert Stored(s) == [1, 3];
    b, s1, s := Reports(p, b, s, None);
    assert s.control.pass.i == 1;
    assert Stored(s)[1] == 3;
  }
}
