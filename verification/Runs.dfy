/** The results about whole runs of the scheduler: every interleaving of its goroutines, the clock and the
    executor, from the empty store on. */
module Runs {
  import opened Wrappers
  import opened Profiles
  import opened Activation
  import opened Jobs
  import Slices
  import opened Machine
  import opened InFlight
  import opened MarkedJobs
  import opened ExecutionPass
  import opened Configuration
  import opened Removal
  import opened Progress
  import opened Settling
  import opened Timing
  import opened Ownership
  import opened Launching
  import opened Starting

  datatype Run = Begin(start: State) | Then(prev: Run, step: Step)

  ghost predicate IsRun(p: Platform, b: Run)
    decreases b, 0
  {
    match b
    case Begin(s) => Init(s)
    case Then(prev, step) => IsRun(p, prev) && Enabled(Final(p, prev), step)
  }

  /** The state a run ends in. */
  ghost function Final(p: Platform, b: Run): (s: State)
    requires IsRun(p, b)
    decreases b, 1
  {
    match b
    case Begin(s) => s
    case Then(prev, step) => Apply(p, Final(p, prev), step)
  }

  // ----- the invariant of all runs -----

  ghost predicate Invariant(p: Platform, s: State) {
    SafeInv(s) && PodInv(s) && DesiredInv(p, s) && DirtyInv(s) && RetryInv(s) && CronInv(p, s) && NextInv(p, s) && OwnInv(s)
  }

  lemma InitInvariant(p: Platform, s: State)
    requires Init(s)
    ensures Invariant(p, s)
  {}

  lemma StepInvariant(p: Platform, s: State, step: Step)
    requires Enabled(s, step) && Invariant(p, s)
    ensures Invariant(p, Apply(p, s, step))
  {
    StoreKept(p, s, step);
    FuturesKept(p, s, step);
    PassKept(p, s, step);
    MarksKept(p, s, step);
    OwnersKept(p, s, step);
    PodsKept(p, s, step);
    DesiredKept(p, s, step);
    CleanKept(p, s, step);
    RetriesKept(p, s, step);
    CronsKept(p, s, step);
    NextKept(p, s, step);
    OwnKept(p, s, step);
  }

  lemma {:induction false} Always(p: Platform, b: Run)
    requires IsRun(p, b)
    ensures Invariant(p, Final(p, b))
  {
    match b
    case Begin(s) => InitInvariant(p, s);
    case Then(prev, step) =>
      Always(p, prev);
      StepInvariant(p, Final(p, prev), step);
  }

  // ----- continuing a run -----

  /** `b` continues `b0`. */
  ghost predicate Continues(p: Platform, b0: Run, b: Run)
    requires IsRun(p, b)
    ensures Continues(p, b0, b) ==> IsRun(p, b0)
  {
    b == b0 || (b.Then? && Continues(p, b0, b.prev))
  }

  // ----- one reconciliation at a time -----

  /** In every run: two goroutines in flight work on different IDs, and none works on the ID whose state
      the scheduler is asking for. */
  lemma OneAtATime(p: Platform, b: Run)
    requires IsRun(p, b)
    ensures var s := Final(p, b);
            && (forall r, r' ::
                  0 <= r < r' < |s.routines| && Live(s.routines[r]) && Live(s.routines[r']) ==> s.routines[r].id != s.routines[r'].id)
            && (s.control.Awaiting? && CanVisit(s, s.control.pass) ==>
                  forall r :: 0 <= r < |s.routines| && s.routines[r].id == VisitedId(s, s.control.pass) ==> !Live(s.routines[r]))
  {
    Always(p, b);
  }

  /** Goroutines keep their number and their ID, and a finished one stays finished. */
  lemma RoutineStays(p: Platform, s: State, step: Step, r: nat)
    requires Enabled(s, step) && r < |s.routines|
    ensures var s' := Apply(p, s, step);
            r < |s'.routines| && s'.routines[r].id == s.routines[r].id && (Live(s'.routines[r]) ==> Live(s.routines[r]))
  {
    if step.TakeReport? {
      ReportFrame(p, s, step.report, step.seen, step.decided);
    }
  }

  /** However a run goes on: as long as a reconciliation is in flight, the current state of the job with
      its ID is what it was. */
  lemma {:induction false} CurrentIsFixedWhileInFlight(p: Platform, b0: Run, b: Run, o: nat, r: nat)
    requires IsRun(p, b) && Continues(p, b0, b)
    requires var s := Final(p, b0); o < |s.objs| && r < |s.routines| && s.routines[r].id == s.objs[o].w.id
    ensures var s := Final(p, b);
            && o < |s.objs| && r < |s.routines| && s.routines[r].id == s.objs[o].w.id
            && (Live(s.routines[r]) ==> Live(Final(p, b0).routines[r]) && s.objs[o].current == Final(p, b0).objs[o].current)
  {
    if b != b0 {
      CurrentIsFixedWhileInFlight(p, b0, b.prev, o, r);
      var s := Final(p, b.prev);
      Always(p, b.prev);
      RoutineStays(p, s, b.step, r);
      WorkloadStays(p, s, b.step, o);
      if Live(s.routines[r]) {
        CurrentIsFixedInFlight(p, s, b.step, o, r);
      }
    }
  }

  /** In every run: no pod is started while a pod with its ID exists, and no goroutine launched for a job
      marked for deletion ever starts anything. */
  lemma RunCallsAreSafe(p: Platform, b: Run)
    requires IsRun(p, b)
    ensures RunsOnClearGround(Final(p, b).trace) && RunsPrecedeMarks(Final(p, b).trace)
  {
    Always(p, b);
  }

  /** In every run: the goroutine whose future a visit finds works on the visited job, unless the visited
      job is in the store and the goroutine's is not.  Its result is then applied to another job. */
  lemma ResultsReachTheirJob(p: Platform, b: Run)
    requires IsRun(p, b) && CanPoll(Final(p, b))
    ensures var s := Final(p, b);
            var o := Visited(s, s.control.pass);
            var ro := s.routines[s.futures[VisitedId(s, s.control.pass)]];
            && ro.o < |s.objs|
            && (ro.o == o <==> ro.o in Stored(s) || o !in Stored(s))
            && (ro.o != o ==> s.objs[ro.o].marked && s.objs[ro.o].current.Running?)
  {
    Always(p, b);
    PolledIsOwn(Final(p, b));
  }

  /** All state reports in the run agree with the pods that exist. */
  ghost predicate Truthful(p: Platform, b: Run)
    requires IsRun(p, b)
  {
    b.Then? ==> Truthful(p, b.prev) && TruthfulStep(Final(p, b.prev), b.step)
  }

  lemma {:induction false} TruthfulIsClear(p: Platform, b: Run)
    requires IsRun(p, b) && Truthful(p, b)
    ensures ClearInv(Final(p, b))
  {
    if b.Then? {
      TruthfulIsClear(p, b.prev);
      Always(p, b.prev);
      ClearKept(p, Final(p, b.prev), b.step);
    }
  }

  /** With truthful reports that does not happen: every result reaches its own job. */
  lemma TruthfulResultsReachTheirJob(p: Platform, b: Run)
    requires IsRun(p, b) && Truthful(p, b) && CanPoll(Final(p, b))
    ensures var s := Final(p, b);
            s.routines[s.futures[VisitedId(s, s.control.pass)]].o == Visited(s, s.control.pass)
  {
    Always(p, b);
    TruthfulIsClear(p, b);
    ClearIsOwn(Final(p, b));
  }

  /** A job once marked stays marked, with target Exited, however the run goes on. */
  lemma {:induction false} MarkedStaysMarked(p: Platform, b0: Run, b: Run, o: nat)
    requires IsRun(p, b) && Continues(p, b0, b)
    requires o < |Final(p, b0).objs| && Final(p, b0).objs[o].marked
    ensures var s := Final(p, b); o < |s.objs| && s.objs[o].marked && s.objs[o].target.Exited?
  {
    if b == b0 {
      Always(p, b0);
      assert JobMarks(Final(p, b0).objs[o], MarkedIn(Final(p, b0).trace, o));
    } else {
      MarkedStaysMarked(p, b0, b.prev, o);
      Always(p, b.prev);
      MarkIsForever(p, Final(p, b.prev), b.step, o);
    }
  }

  // ----- configuration -----

  predicate IsMessage(step: Step) {
    step.ReceiveNone? || step.ReceiveConfig?
  }

  /** `b` continues `b0` without a further configuration message. */
  ghost predicate QuietSince(b0: Run, b: Run) {
    b == b0 || (b.Then? && !IsMessage(b.step) && QuietSince(b0, b.prev))
  }

  lemma OnlyMessagesChangeDesired(p: Platform, s: State, step: Step)
    requires Enabled(s, step) && !IsMessage(step)
    ensures Apply(p, s, step).desired == s.desired
  {}

  lemma {:induction false} DesiredIsKept(p: Platform, b0: Run, b: Run)
    requires IsRun(p, b) && QuietSince(b0, b)
    ensures IsRun(p, b0) && Final(p, b).desired == Final(p, b0).desired
  {
    if b != b0 {
      DesiredIsKept(p, b0, b.prev);
      OnlyMessagesChangeDesired(p, Final(p, b.prev), b.step);
    }
  }

  /** After a configuration message, once its handling is over and until the next one, whatever else
      happens: the unmarked jobs are exactly the workloads asked for, without those whose job was already
      marked when the message arrived and those whose cron specification does not parse. */
  lemma ConfigurationHolds(p: Platform, b0: Run, wanted: seq<Workload>, toAdd: seq<Workload>, stale: seq<nat>, b: Run, id: string)
    requires IsRun(p, b) && QuietSince(Then(b0, ReceiveConfig(wanted, toAdd, stale)), b) && !Configuring(Final(p, b))
    ensures IsRun(p, b0)
    ensures UnmarkedId(Final(p, b), id) <==> id in Wanted(p, Final(p, b0), wanted)
  {
    var b1 := Then(b0, ReceiveConfig(wanted, toAdd, stale));
    DesiredIsKept(p, b1, b);
    Always(p, b);
    UnmarkedJobsAreDesired(p, Final(p, b), id);
  }

  /** After an empty configuration message no unmarked job is left. */
  lemma EmptyConfigurationHolds(p: Platform, b0: Run, b: Run, id: string)
    requires IsRun(p, b) && QuietSince(Then(b0, ReceiveNone), b) && !Configuring(Final(p, b))
    ensures !UnmarkedId(Final(p, b), id)
  {
    var b1 := Then(b0, ReceiveNone);
    DesiredIsKept(p, b1, b);
    Always(p, b);
    UnmarkedJobsAreDesired(p, Final(p, b), id);
  }

  /** In every run the IDs in the store are distinct. */
  lemma StoreIdsAreDistinct(p: Platform, b: Run, i: nat, j: nat)
    requires IsRun(p, b)
    requires i < j < |Stored(Final(p, b))|
    ensures var s := Final(p, b);
            Stored(s)[i] < |s.objs| && Stored(s)[j] < |s.objs| && s.objs[Stored(s)[i]].w.id != s.objs[Stored(s)[j]].w.id
  {
    Always(p, b);
  }

  // ----- profiles -----

  /** The profile results that arrived last in a run. */
  function LatestResults(b: Run): (rs: seq<ProfileResult>) {
    match b
    case Begin(_) => []
    case Then(prev, step) => if step.ReceiveResults? then step.rs else LatestResults(prev)
  }

  lemma {:induction false} ResultsAreLatest(p: Platform, b: Run)
    requires IsRun(p, b)
    ensures Final(p, b).results == LatestResults(b)
  {
    match b
    case Begin(s) =>
    case Then(prev, step) =>
      ResultsAreLatest(p, prev);
      OnlyMessagesChangeResults(p, Final(p, prev), step);
  }

  lemma OnlyMessagesChangeResults(p: Platform, s: State, step: Step)
    requires Enabled(s, step)
    ensures Apply(p, s, step).results == if step.ReceiveResults? then step.rs else s.results
  {}

  /** In every run, outside the handling of a message or an evaluation: an evaluation is pending, or every
      unmarked job has target Running exactly if the profile results that arrived last make it active, and else
      target Inactive. */
  lemma TargetsAreUpToDate(p: Platform, b: Run, k: nat)
    requires IsRun(p, b)
    requires var s := Final(p, b);
             k < |Stored(s)| && !s.pending && !s.control.Adding? && !s.control.Evaluating?
    ensures var s := Final(p, b);
            && Stored(s)[k] < |s.objs|
            && var j := s.objs[Stored(s)[k]];
               !j.marked ==> j.target == if IsActive(j.w.profiles, LatestResults(b)) then Running else Inactive
  {
    Always(p, b);
    ResultsAreLatest(p, b);
    assert Matches(Final(p, b), Stored(Final(p, b))[k]);
  }

  // ----- execution passes -----

  /** In every run: a pass never reads outside the array; and at its end the store is what it was, in
      order, without the removed jobs, all of them marked, and no more jobs were left unvisited than were
      removed. */
  lemma PassesAreSound(p: Platform, b: Run)
    requires IsRun(p, b) && Final(p, b).control.Executing?
    ensures var s := Final(p, b); var pass := s.control.pass;
            && (pass.i < pass.n ==> CanVisit(s, pass) && Visited(s, pass) in pass.start)
            && (pass.i >= pass.n ==>
                  && Stored(s) == Slices.Without(pass.start, pass.gone)
                  && (forall x :: x in pass.gone ==> x < |s.objs| && s.objs[x].marked)
                  && |Unvisited(pass)| <= |pass.gone|)
  {
    Always(p, b);
    var s := Final(p, b);
    if s.control.pass.i < s.control.pass.n {
      VisitsAreInBounds(s);
    } else {
      EndOfPass(s);
    }
  }

  /** A pass is left only at its end: it is a whole one. */
  lemma PassesAreCompleted(p: Platform, b: Run, step: Step)
    requires IsRun(p, Then(b, step)) && (Final(p, b).control.Executing? || Final(p, b).control.Awaiting?)
    requires !Final(p, Then(b, step)).control.Executing? && !Final(p, Then(b, step)).control.Awaiting?
    ensures var s := Final(p, b); var pass := s.control.pass;
            && s.control.Executing? && pass.i >= pass.n && Stored(Final(p, Then(b, step))) == Slices.Without(pass.start, pass.gone)
            && |Unvisited(pass)| <= |pass.gone|
  {
    if step.TakeReport? {
      DecidesOnly(p, Final(p, b), step.report, step.seen, step.decided);
    } else {
      PassesAreSound(p, b);
    }
  }

  lemma DecidesOnly(p: Platform, s: State, report: Option<JobState>, seen: int, decided: int)
    requires CanReport(s, report, seen, decided)
    ensures DoReport(p, s, report, seen, decided).control.Executing?
  {}

  // ----- what goroutines achieve -----

  /** `b` continues `b0` while the goroutine `r` is not disturbed, and its job has target `target`. */
  ghost predicate UndisturbedSince(p: Platform, b0: Run, b: Run, r: nat, target: JobState)
    requires IsRun(p, b)
    ensures UndisturbedSince(p, b0, b, r, target) ==> IsRun(p, b0)
  {
    b == b0 ||
    (&& b.Then? && UndisturbedSince(p, b0, b.prev, r, target) && Undisturbed(Final(p, b.prev), b.step, r)
     && Live(Final(p, b.prev).routines[r])
     && Final(p, b.prev).routines[r].o < |Final(p, b.prev).objs| && Final(p, b.prev).objs[Final(p, b.prev).routines[r].o].target == target)
  }

  /** A goroutine at its start, for a job that is not at its target. */
  ghost predicate AtStart(s: State, r: nat) {
    && r < |s.routines| && s.routines[r].pc == Start && s.routines[r].o < |s.objs|
    && s.objs[s.routines[r].o].current != s.objs[s.routines[r].o].target
  }

  lemma {:induction false} CurrentStays(p: Platform, b0: Run, b: Run, r: nat, target: JobState)
    requires IsRun(p, b) && UndisturbedSince(p, b0, b, r, target) && AtStart(Final(p, b0), r)
    ensures var s0, s := Final(p, b0), Final(p, b);
            && r < |s.routines| && s.routines[r].o == s0.routines[r].o && s.routines[r].o < |s.objs|
            && (Live(s.routines[r]) ==> s.objs[s.routines[r].o].current == s0.objs[s0.routines[r].o].current)
  {
    if b != b0 {
      CurrentStays(p, b0, b.prev, r, target);
      var s := Final(p, b.prev);
      Always(p, b.prev);
      assert RoutineOk(s.objs, s.routines[r]);
      RoutineKeepsObject(p, s, b.step, r);
      CurrentIsFixedInFlight(p, s, b.step, s.routines[r].o, r);
    }
  }

  lemma RoutineKeepsObject(p: Platform, s: State, step: Step, r: nat)
    requires Enabled(s, step) && r < |s.routines|
    ensures r < |Apply(p, s, step).routines| && Apply(p, s, step).routines[r].o == s.routines[r].o
  {
    if step.TakeReport? {
      ReportFrame(p, s, step.report, step.seen, step.decided);
    }
  }

  /** A goroutine launched for a job that is to run, and stays so, ends with the pod or deployment there and
      brings back a state, if its calls succeed and the pod does not vanish by itself: as long as it has not
      sent it is on the way, and when it sends the workload exists. */
  lemma {:induction false} GoroutinesStart(p: Platform, b0: Run, b: Run, r: nat)
    requires IsRun(p, b) && UndisturbedSince(p, b0, b, r, Running) && AtStart(Final(p, b0), r)
    requires Final(p, b0).objs[Final(p, b0).routines[r].o].target.Running?
    ensures Starts(Final(p, b), r)
    ensures var s := Final(p, b);
            s.routines[r].pc.Sending? || s.routines[r].pc.Finished? ==>
              s.routines[r].id in s.pods && (s.routines[r].pc.Finished? ==> s.routines[r].value.Some? && s.routines[r].value.value.Reached?)
  {
    if b != b0 {
      GoroutinesStart(p, b0, b.prev, r);
      CurrentStays(p, b0, b.prev, r, Running);
      Always(p, b.prev);
      StartingGoesOn(p, Final(p, b.prev), b.step, r);
    }
  }

  /** Likewise one for a job that is to stop ends with the pod or deployment gone. */
  lemma {:induction false} GoroutinesStop(p: Platform, b0: Run, b: Run, r: nat, target: JobState)
    requires target.Exited? || target.Inactive?
    requires IsRun(p, b) && UndisturbedSince(p, b0, b, r, target) && AtStart(Final(p, b0), r)
    requires Final(p, b0).objs[Final(p, b0).routines[r].o].target == target
    ensures Stops(Final(p, b), r)
    ensures var s := Final(p, b);
            s.routines[r].pc.Sending? || s.routines[r].pc.Finished? ==>
              s.routines[r].id !in s.pods && (s.routines[r].pc.Finished? ==> s.routines[r].value.Some? && s.routines[r].value.value.Reached?)
  {
    if b != b0 {
      GoroutinesStop(p, b0, b.prev, r, target);
      CurrentStays(p, b0, b.prev, r, target);
      Always(p, b.prev);
      StoppingGoesOn(p, Final(p, b.prev), b.step, r);
    }
  }

  // ----- timing -----

  /** In every run: a visit that finds an unmarked job failed that is to run restarts it if and only if more
      than ten seconds have passed since its first failure. */
  lemma RestartsWhenDue(p: Platform, b: Run, report: JobState, seen: int, decided: int)
    requires IsRun(p, Then(b, TakeReport(Some(report), seen, decided)))
    requires var s := Final(p, b); var j := s.objs[Visited(s, s.control.pass)];
             && !j.marked && j.target.Running? && j.retry.Some?
             && (report.Exited? || (report.Unknown? && !j.current.Ready? && !j.current.Inactive?))
    ensures var s, s' := Final(p, b), Final(p, Then(b, TakeReport(Some(report), seen, decided)));
            var v := Visited(s, s.control.pass);
            if decided > FailedAt(s.trace, v, seen) + 10_000_000_000 then StartsGoroutine(s, s', v) else StartsNone(s, s')
  {
    Always(p, b);
    RestartIffDue(p, Final(p, b), report, seen, decided);
  }

  /** In every run: a visit that finds an unmarked cron job not running that is to run launches it if and only
      if the first instant of its schedule after its last launch, or its creation, has passed. */
  lemma CronsRunWhenDue(p: Platform, b: Run, report: JobState, seen: int, decided: int)
    requires IsRun(p, Then(b, TakeReport(Some(report), seen, decided)))
    requires var s := Final(p, b); var j := s.objs[Visited(s, s.control.pass)];
             !j.marked && j.target.Running? && j.w.cron != "" && (report.Exited? || report.Unknown?)
    ensures var s, s' := Final(p, b), Final(p, Then(b, TakeReport(Some(report), seen, decided)));
            var v := Visited(s, s.control.pass);
            if decided > p.next(s.objs[v].w.cron, LastStart(s.trace, v)) then StartsGoroutine(s, s', v) else StartsNone(s, s')
  {
    Always(p, b);
    CronIffDue(p, Final(p, b), report, seen, decided);
  }

  /** In every run: restarts respect the retry interval, counted from the first failure since the job was
      last seen running, and that interval is started at most once in between. */
  lemma RestartsAreSpaced(p: Platform, b: Run)
    requires IsRun(p, b)
    ensures BackoffRespected(Final(p, b).trace) && RetriesComputedOnce(Final(p, b).trace)
  {
    Always(p, b);
  }

  /** In every run: a cron job is launched at most once per instant of its schedule that has passed since
      its creation, and no job has both a cron and a retry. */
  lemma CronLaunchesAreBounded(p: Platform, b: Run, o: nat)
    requires IsRun(p, b) && o < |Final(p, b).objs|
    ensures var s := Final(p, b); var j := s.objs[o];
            && (j.cron.Some? <==> j.retry.None?)
            && (j.cron.Some? && Advances(p, j.cron.value.spec) ==>
                  Launches(s.trace, o) <= |Instants(p, j.cron.value.spec, CreatedAt(s.trace, o), s.clock)|)
  {
    Always(p, b);
    var s := Final(p, b);
    assert RetryOk(s.objs[o], s.trace, o);
  }

  // ----- removal -----

  /** In every run a job leaves the store only when it is marked, nothing is in flight for its ID, and the
      executor has just reported Unknown or Exited. */
  lemma RemovalsAreSafe(p: Platform, b: Run, step: Step, o: nat)
    requires IsRun(p, Then(b, step))
    requires o in Stored(Final(p, b)) && o !in Stored(Final(p, Then(b, step)))
    ensures step.TakeReport? && (step.report == Some(Unknown) || step.report == Some(Exited))
    ensures var s := Final(p, b);
            && o < |s.objs| && s.objs[o].marked
            && forall r :: 0 <= r < |s.routines| && s.routines[r].id == s.objs[o].w.id ==> !Live(s.routines[r])
  {
    Always(p, b);
    RemovalIsSafe(p, Final(p, b), step, o);
  }

  /** `b` continues `b0` by steps in which Stop and Remove succeed for the job and reports on it are
      truthful. */
  ghost predicate BenignSince(p: Platform, b0: Run, b: Run, o: nat)
    requires IsRun(p, b)
    ensures BenignSince(p, b0, b, o) ==> IsRun(p, b0)
  {
    b == b0 ||
    (b.Then? && BenignSince(p, b0, b.prev, o) && o < |Final(p, b.prev).objs| && Benign(Final(p, b.prev), b.step, o))
  }

  /** The visits of the job since `b0` that found a resolved future or learned its state. */
  ghost function Visits(p: Platform, b0: Run, b: Run, o: nat): (n: nat)
    requires IsRun(p, b)
  {
    if b == b0 || b.Begin? then 0
    else Visits(p, b0, b.prev, o) + if Counts(Final(p, b.prev), b.step, o) then 1 else 0
  }

  lemma {:induction false} RankBound(p: Platform, b0: Run, b: Run, o: nat)
    requires IsRun(p, b) && BenignSince(p, b0, b, o) && Doomed(Final(p, b0), o)
    ensures var s := Final(p, b);
            o < |s.objs| &&
            (o in Stored(s) ==> Doomed(s, o) && Visits(p, b0, b, o) + Rank(s, o) <= Rank(Final(p, b0), o))
  {
    if b != b0 {
      RankBound(p, b0, b.prev, o);
      Always(p, b.prev);
      var s := Final(p, b.prev);
      if o in Stored(s) {
        RankStep(p, s, b.step, o);
        ObjectsStay(p, s, b.step);
      } else {
        NeverBack(p, s, b.step, o);
      }
    }
  }

  /** A marked job that is not Inactive is removed at the latest by its fourth visit, counting only
      visits that find a resolved future or learn its state, if Stop and Remove succeed and the reports tell truly
      whether the pod exists. */
  lemma RemovedWithinFourVisits(p: Platform, b0: Run, b: Run, o: nat)
    requires IsRun(p, b) && BenignSince(p, b0, b, o) && Doomed(Final(p, b0), o)
    requires Visits(p, b0, b, o) >= 4
    ensures o !in Stored(Final(p, b))
  {
    RankBound(p, b0, b, o);
    if o in Stored(Final(p, b)) {
      PositiveRank(Final(p, b), o);
    }
  }

  /** `b` continues `b0` while the executor has nothing to say about the job but Unknown. */
  ghost predicate UnknownSince(p: Platform, b0: Run, b: Run, o: nat)
    requires IsRun(p, b)
    ensures UnknownSince(p, b0, b, o) ==> IsRun(p, b0)
  {
    b == b0 ||
    (&& b.Then? && UnknownSince(p, b0, b.prev, o)
     && (b.step.TakeReport? && Visited(Final(p, b.prev), Final(p, b.prev).control.pass) == o ==>
           b.step.report == None || b.step.report == Some(Unknown)))
  }

  /** A job marked while it is Inactive is never removed, as long as its pod is unknown to the executor:
      removal of every marked job is not guaranteed. */
  lemma {:induction false} StuckForever(p: Platform, b0: Run, b: Run, o: nat)
    requires IsRun(p, b) && UnknownSince(p, b0, b, o) && Stuck(Final(p, b0), o)
    ensures Stuck(Final(p, b), o)
  {
    if b != b0 {
      StuckForever(p, b0, b.prev, o);
      Always(p, b.prev);
      StuckStays(p, Final(p, b.prev), b.step, o);
    }
  }

  lemma {:induction false} StrandedForever(p: Platform, b0: Run, b: Run, o: nat)
    requires IsRun(p, b) && BenignSince(p, b0, b, o) && Stranded(Final(p, b0), o)
    ensures Stranded(Final(p, b), o)
  {
    if b != b0 {
      StrandedForever(p, b0, b.prev, o);
      Always(p, b.prev);
      StrandedStays(p, Final(p, b.prev), b.step, o);
    }
  }

  lemma {:induction false} WaitBound(p: Platform, b0: Run, b: Run, o: nat)
    requires IsRun(p, b) && BenignSince(p, b0, b, o) && o < |Final(p, b0).objs| && Final(p, b0).objs[o].marked
    ensures var s := Final(p, b);
            && o < |s.objs| && s.objs[o].marked
            && (Settled(s, o) || Visits(p, b0, b, o) + Wait(s, o) <= Wait(Final(p, b0), o))
  {
    if b != b0 {
      WaitBound(p, b0, b.prev, o);
      Always(p, b.prev);
      var s := Final(p, b.prev);
      WaitStep(p, s, b.step, o);
      SettledIffNoWait(s, o);
      SettledIffNoWait(Final(p, b), o);
    }
  }

  /** What becomes of every marked job, whatever its state and whatever is in flight, under the same
      assumptions on the executor: by its fourth counted visit it is removed, or else it is Inactive with no
      pod and no goroutine, and then it stays so. */
  lemma MarkedJobsSettle(p: Platform, b0: Run, b: Run, o: nat)
    requires IsRun(p, b) && BenignSince(p, b0, b, o) && o < |Final(p, b0).objs| && Final(p, b0).objs[o].marked
    requires Visits(p, b0, b, o) >= 4
    ensures o !in Stored(Final(p, b)) || (Cleared(Final(p, b), o) && Final(p, b).objs[o].current.Inactive?)
  {
    WaitBound(p, b0, b, o);
    SettledIffNoWait(Final(p, b), o);
  }

  /** Which of the two it is once the pod is gone and nothing is in flight: the job is removed by its next
      counted visit if and only if it is not Inactive. */
  lemma RemovedIffNotInactive(p: Platform, b0: Run, b: Run, o: nat)
    requires IsRun(p, b) && BenignSince(p, b0, b, o) && Cleared(Final(p, b0), o)
    requires Visits(p, b0, b, o) >= 1
    ensures o !in Stored(Final(p, b)) <==> !Final(p, b0).objs[o].current.Inactive?
  {
    if Final(p, b0).objs[o].current.Inactive? {
      StrandedForever(p, b0, b, o);
    } else {
      RankBound(p, b0, b, o);
      if o in Stored(Final(p, b)) {
        PositiveRank(Final(p, b), o);
      }
    }
  }

  /** How it comes to that: an Inactive job with nothing in flight is marked. */
  lemma MarkingInactiveStrands(s: State)
    requires CanMark(s) && SafeInv(s)
    requires var o := s.control.todo[0]; s.objs[o].current.Inactive? && s.objs[o].w.id !in s.futures
    ensures Stuck(DoMark(s), s.control.todo[0])
  {}

  /** And what it costs: no configuration message brings the workload back. */
  lemma StrandedIsNeverWanted(p: Platform, s: State, o: nat, wanted: seq<Workload>)
    requires SafeInv(s) && Stuck(s, o)
    ensures s.objs[o].w.id !in Wanted(p, s, wanted)
  {}

  // ----- the scheduler goroutine never blocks in the model -----

  /** In every state of every run the scheduler goroutine has a next step: the guards of the machine,
      among them those that keep indices in bounds, never hold it up. */
  lemma SchedulerCanStep(p: Platform, b: Run) returns (step: Step)
    requires IsRun(p, b)
    ensures Enabled(Final(p, b), step) && !step.RunRoutine? && !step.Elapse?
  {
    Always(p, b);
    var s := Final(p, b);
    match s.control
    case Idle => step := BeginPass;
    case Adding(toAdd, _) => step := if toAdd == [] then Signal else AddJob;
    case Marking(todo) => step := if todo == [] then Return else MarkJob;
    case Evaluating(at) => step := if at < |Stored(s)| then EvaluateJob else Return;
    case Executing(pass) =>
      if pass.i < pass.n {
        VisitsAreInBounds(s);
        step := if VisitedId(s, pass) in s.futures then PollFuture else QueryState;
      } else {
        step := Return;
      }
    case Awaiting(pass) =>
      VisitsAreInBounds(s);
      step := TakeReport(None, s.clock, s.clock);
  }

  /** A goroutine in flight always has a next step. */
  lemma RoutineCanStep(p: Platform, b: Run, r: nat) returns (reply: Reply)
    requires IsRun(p, b)
    requires r < |Final(p, b).routines| && Live(Final(p, b).routines[r])
    ensures Enabled(Final(p, b), RunRoutine(r, reply))
  {
    Always(p, b);
    var s := Final(p, b);
    assert RoutineOk(s.objs, s.routines[r]);
    match s.routines[r].pc
    case InExists => reply := Err;
    case InRemoveFirst => reply := Err;
    case InRun => reply := Err;
    case InStop => reply := Err;
    case InRemove => reply := Err;
    case InGetState => reply := Err;
    case _ => reply := Silent;
  }
}
