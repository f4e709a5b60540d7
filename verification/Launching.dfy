/** When a visit starts a goroutine: exactly when, in terms of the history of the job, and what the history
    records. */
module Launching {
  import opened Wrappers
  import opened Jobs
  import opened Machine
  import opened Timing

  // ----- the next instant of a cron -----

  /** When `o` was last launched to run, or else when it was created. */
  function LastStart(t: Trace, o: nat): (at: int) {
    if t.Empty? then 0
    else if t.last.Created? && t.last.o == o then t.last.at
    else if t.last.Started? && t.last.o == o && t.last.job.target.Running? then t.last.at
    else LastStart(t.prev, o)
  }

  /** The cron of a job is that of its workload, at the first instant after the last launch. */
  predicate NextOk(p: Platform, j: JobView, t: Trace, o: nat) {
    && (j.cron.Some? <==> j.w.cron != "")
    && (j.cron.Some? ==> j.cron.value == Cron(j.w.cron, p.next(j.w.cron, LastStart(t, o))))
  }

  ghost predicate NextInv(p: Platform, s: State) {
    forall o :: 0 <= o < |s.objs| ==> NextOk(p, s.objs[o], s.trace, o)
  }

  lemma NextFrame(p: Platform, s: State, s': State)
    requires NextInv(p, s) && |s'.objs| == |s.objs|
    requires forall o :: 0 <= o < |s.objs| ==>
               s'.objs[o].w == s.objs[o].w && s'.objs[o].cron == s.objs[o].cron && LastStart(s'.trace, o) == LastStart(s.trace, o)
    ensures NextInv(p, s')
  {
    forall o | 0 <= o < |s'.objs|
      ensures NextOk(p, s'.objs[o], s'.trace, o)
    {
      assert NextOk(p, s.objs[o], s.trace, o);
    }
  }

  lemma ObservedStarts(t: Trace, o: nat, before: JobView, after: JobView, report: JobState, at: int, x: nat)
    ensures LastStart(TraceObserved(t, o, before, after, report, at), x) == LastStart(t, x)
  {}

  lemma SeenKeepsNext(p: Platform, s: State, o: nat, report: JobState, at: int)
    requires NextInv(p, s) && o < |s.objs|
    ensures NextInv(p, Seen(s, o, report, at))
  {
    forall x | 0 <= x < |s.objs|
      ensures LastStart(Seen(s, o, report, at).trace, x) == LastStart(s.trace, x)
    {
      ObservedStarts(s.trace, o, s.objs[o], Observe(s.objs[o], report, at), report, at, x);
    }
    NextFrame(p, s, Seen(s, o, report, at));
  }

  lemma LaunchKeepsNext(p: Platform, s: State, decided: int)
    requires s.control.Awaiting? && CanVisit(s, s.control.pass) && NextInv(p, s)
    ensures NextInv(p, DoLaunch(p, s, decided))
  {
    var s', v := DoLaunch(p, s, decided), Visited(s, s.control.pass);
    forall o | 0 <= o < |s'.objs|
      ensures NextOk(p, s'.objs[o], s'.trace, o)
    {
      assert NextOk(p, s.objs[o], s.trace, o);
      LaunchedCron(p, s.objs[v], decided);
    }
  }

  lemma AddKeepsNext(p: Platform, s: State)
    requires CanAdd(s) && NextInv(p, s)
    ensures NextInv(p, DoAdd(p, s))
  {
    var s' := DoAdd(p, s);
    forall o | 0 <= o < |s'.objs|
      ensures NextOk(p, s'.objs[o], s'.trace, o)
    {
      assert o < |s.objs| ==> NextOk(p, s.objs[o], s.trace, o);
    }
  }

  lemma ReportKeepsNext(p: Platform, s: State, report: Option<JobState>, seen: int, decided: int)
    requires CanReport(s, report, seen, decided) && NextInv(p, s)
    ensures NextInv(p, DoReport(p, s, report, seen, decided))
  {
    if report.Some? {
      var o := Visited(s, s.control.pass);
      var s1 := Seen(s, o, report.value, seen);
      SeenKeepsNext(p, s, o, report.value, seen);
      match Choose(s1.objs[o], decided)
      case Leave => NextFrame(p, s1, DoLeave(s1, decided));
      case Remove => NextFrame(p, s1, DoRemove(s1, decided));
      case Launch => LaunchKeepsNext(p, s1, decided);
    } else {
      NextFrame(p, s, DoLeave(s, decided));
    }
  }

  lemma PollKeepsNext(p: Platform, s: State)
    requires CanPoll(s) && NextInv(p, s)
    ensures NextInv(p, DoPoll(s))
  {
    var o, id := Visited(s, s.control.pass), VisitedId(s, s.control.pass);
    var ro := s.routines[s.futures[id]];
    if !Live(ro) && ro.value.Some? && ro.value.value.Reached? {
      var next := s.(control := Executing(Advance(s.control.pass, o)), futures := s.futures - {id});
      NextFrame(p, s, next);
      SeenKeepsNext(p, next, o, ro.value.value.state, s.clock);
    } else {
      NextFrame(p, s, DoPoll(s));
    }
  }

  lemma MarkKeepsNext(p: Platform, s: State)
    requires CanMark(s) && NextInv(p, s)
    ensures NextInv(p, DoMark(s))
  {
    NextFrame(p, s, DoMark(s));
  }

  lemma EvaluateKeepsNext(p: Platform, s: State)
    requires CanEvaluate(s) && NextInv(p, s)
    ensures NextInv(p, DoEvaluate(s))
  {
    NextFrame(p, s, DoEvaluate(s));
  }

  lemma RunKeepsNext(p: Platform, s: State, r: nat, reply: Reply)
    requires CanRun(s, r, reply) && NextInv(p, s)
    ensures NextInv(p, DoRun(s, r, reply))
  {
    NextFrame(p, s, DoRun(s, r, reply));
  }

  lemma NextKept(p: Platform, s: State, step: Step)
    requires Enabled(s, step) && NextInv(p, s)
    ensures NextInv(p, Apply(p, s, step))
  {
    match step
    case AddJob => AddKeepsNext(p, s);
    case PollFuture => PollKeepsNext(p, s);
    case TakeReport(report, seen, decided) => ReportKeepsNext(p, s, report, seen, decided);
    case MarkJob => MarkKeepsNext(p, s);
    case EvaluateJob => EvaluateKeepsNext(p, s);
    case RunRoutine(r, reply) => RunKeepsNext(p, s, r, reply);
    case _ =>
  }

  // ----- when a goroutine is started -----

  /** A goroutine for the job `o` has been started and registered. */
  ghost predicate StartsGoroutine(s: State, s': State, o: nat) {
    && o < |s.objs| && s'.routines == s.routines + [Routine(o, s.objs[o].w.id, s.objs[o].w.kind, Start, None)]
    && s'.futures == s.futures[s.objs[o].w.id := |s.routines|]
  }

  ghost predicate StartsNone(s: State, s': State) {
    s'.routines == s.routines && forall id :: id in s'.futures ==> id in s.futures && s'.futures[id] == s.futures[id]
  }

  lemma DecideStarts(p: Platform, s: State, decided: int)
    requires s.control.Awaiting? && CanVisit(s, s.control.pass) && s.len <= |s.backing|
    ensures var v, s' := Visited(s, s.control.pass), DoDecide(p, s, decided);
            if Choose(s.objs[v], decided).Launch? then StartsGoroutine(s, s', v) else StartsNone(s, s')
  {}

  lemma ReportStarts(p: Platform, s: State, report: JobState, seen: int, decided: int)
    requires CanReport(s, Some(report), seen, decided)
    ensures var v, s' := Visited(s, s.control.pass), DoReport(p, s, Some(report), seen, decided);
            if Choose(Observe(s.objs[v], report, seen), decided).Launch? then StartsGoroutine(s, s', v) else StartsNone(s, s')
  {
    var v := Visited(s, s.control.pass);
    var s1 := Seen(s, v, report, seen);
    assert s1.objs[v] == Observe(s.objs[v], report, seen);
    DecideStarts(p, s1, decided);
  }

  /** The time of the first failure, if the job fails now. */
  function FailedAt(t: Trace, o: nat, seen: int): (at: int) {
    if FirstFailure(t, o).Some? then FirstFailure(t, o).value else seen
  }

  /** A job that is to run and is found to have failed is restarted if and only if more than ten seconds have
      passed since its first failure. */
  lemma RestartIffDue(p: Platform, s: State, report: JobState, seen: int, decided: int)
    requires CanReport(s, Some(report), seen, decided) && RetryInv(s)
    requires var j := s.objs[Visited(s, s.control.pass)];
             && !j.marked && j.target.Running? && j.retry.Some?
             && (report.Exited? || (report.Unknown? && !j.current.Ready? && !j.current.Inactive?))
    ensures var v, s' := Visited(s, s.control.pass), DoReport(p, s, Some(report), seen, decided);
            if decided > FailedAt(s.trace, v, seen) + 10_000_000_000 then StartsGoroutine(s, s', v) else StartsNone(s, s')
  {
    var v := Visited(s, s.control.pass);
    var j := s.objs[v];
    assert RetryOk(j, s.trace, v);
    ReportStarts(p, s, report, seen, decided);
    ObservedState(j, report, seen);
    ObservedRetry(j, report, seen);
    LaunchIff(Observe(j, report, seen), decided);
  }

  /** A job that is to run and has not run yet, or was stopped on purpose, is started at once. */
  lemma StartAtOnce(p: Platform, s: State, seen: int, decided: int)
    requires CanReport(s, Some(Unknown), seen, decided)
    requires var j := s.objs[Visited(s, s.control.pass)];
             !j.marked && j.target.Running? && j.cron.None? && (j.current.Ready? || j.current.Inactive?)
    ensures StartsGoroutine(s, DoReport(p, s, Some(Unknown), seen, decided), Visited(s, s.control.pass))
  {
    var j := s.objs[Visited(s, s.control.pass)];
    ReportStarts(p, s, Unknown, seen, decided);
    ObservedState(j, Unknown, seen);
    LaunchIff(j, decided);
  }

  /** A cron job that is to run and is not running is launched if and only if the first instant of its schedule
      after its last launch, or after its creation, has passed. */
  lemma CronIffDue(p: Platform, s: State, report: JobState, seen: int, decided: int)
    requires CanReport(s, Some(report), seen, decided) && RetryInv(s) && NextInv(p, s)
    requires var j := s.objs[Visited(s, s.control.pass)];
             !j.marked && j.target.Running? && j.w.cron != "" && (report.Exited? || report.Unknown?)
    ensures var v, s' := Visited(s, s.control.pass), DoReport(p, s, Some(report), seen, decided);
            if decided > p.next(s.objs[v].w.cron, LastStart(s.trace, v)) then StartsGoroutine(s, s', v) else StartsNone(s, s')
  {
    var v := Visited(s, s.control.pass);
    var j := s.objs[v];
    assert RetryOk(j, s.trace, v) && NextOk(p, j, s.trace, v);
    ReportStarts(p, s, report, seen, decided);
    ObservedState(j, report, seen);
    LaunchIff(Observe(j, report, seen), decided);
  }

  /** A running job is stopped at once if it is to stop, and left alone if it is to run. */
  lemma RunningIffToStop(p: Platform, s: State, seen: int, decided: int)
    requires CanReport(s, Some(Running), seen, decided)
    ensures var v, s' := Visited(s, s.control.pass), DoReport(p, s, Some(Running), seen, decided);
            if s.objs[v].target.Exited? || s.objs[v].target.Inactive? then StartsGoroutine(s, s', v) else StartsNone(s, s')
  {
    var j := s.objs[Visited(s, s.control.pass)];
    ReportStarts(p, s, Running, seen, decided);
    ObservedState(j, Running, seen);
    LaunchIff(Observe(j, Running, seen), decided);
  }

  // ----- the history is complete -----

  /** The event `e` is among those added to the history `t` to get `t'`. */
  predicate Recorded(t: Trace, t': Trace, e: Event) {
    t' != t && t'.Snoc? && (t'.last == e || Recorded(t, t'.prev, e))
  }

  /** Every `Run` call is recorded, with whether a pod was there. */
  lemma RunIsRecorded(s: State, r: nat, reply: Reply)
    requires CanRun(s, r, reply) && DoRun(s, r, reply).routines[r].pc.InRun?
    ensures var ro := s.routines[r];
            DoRun(s, r, reply).trace == Snoc(s.trace, RunCalled(ro.o, r, ro.kind, ro.id in s.pods))
  {}

  /** Every launch is recorded, with the job as it was decided upon. */
  lemma LaunchIsRecorded(p: Platform, s: State, report: JobState, seen: int, decided: int)
    requires CanReport(s, Some(report), seen, decided)
    requires |DoReport(p, s, Some(report), seen, decided).routines| > |s.routines|
    ensures var v := Visited(s, s.control.pass);
            DoReport(p, s, Some(report), seen, decided).trace ==
            Snoc(Seen(s, v, report, seen).trace, Started(v, |s.routines|, decided, Observe(s.objs[v], report, seen)))
  {
    var v := Visited(s, s.control.pass);
    var s1 := Seen(s, v, report, seen);
    assert s1.objs[v] == Observe(s.objs[v], report, seen);
    DecideStarts(p, s1, decided);
  }

  /** Every report is recorded. */
  lemma ReportIsRecorded(s: State, o: nat, report: JobState, at: int)
    requires o < |s.objs|
    ensures Recorded(s.trace, Seen(s, o, report, at).trace, Observed(o, report, at, Observe(s.objs[o], report, at)))
  {
    var e := Observed(o, report, at, Observe(s.objs[o], report, at));
    assert Recorded(s.trace, Snoc(s.trace, e), e);
  }

  /** Every mark and every new job is recorded. */
  lemma MarkIsRecorded(s: State)
    requires CanMark(s)
    ensures DoMark(s).trace == Snoc(s.trace, MarkedFor(s.control.todo[0]))
  {}

  lemma JobIsRecorded(p: Platform, s: State)
    requires CanAdd(s) && |DoAdd(p, s).objs| > |s.objs|
    ensures DoAdd(p, s).trace == Snoc(s.trace, Created(|s.objs|, s.clock))
  {}
}
