/** When reconciliations may start: the retry interval of a failing job and the schedule of a cron job,
    over whole histories. */
module Timing {
  import opened Wrappers
  import Activation
  import opened Jobs
  import opened Machine

  // ----- reading the history -----

  /** The time of the first observation of `o` as failing, with target Running, since it was last
      observed Running. */
  function FirstFailure(t: Trace, o: nat): (at: Option<int>) {
    if t.Empty? then None
    else match t.last
      case Created(o', _) => if o' == o then None else FirstFailure(t.prev, o)
      case Observed(o', report, at, job) =>
        if o' != o then FirstFailure(t.prev, o)
        else if report.Running? then None
        else if ShouldRestart(job) && FirstFailure(t.prev, o).None? then Some(at)
        else FirstFailure(t.prev, o)
      case _ => FirstFailure(t.prev, o)
  }

  /** The retry time of `o` has been computed since it was last observed Running. */
  predicate RetryPending(t: Trace, o: nat) {
    t.Snoc? &&
    match t.last
    case Created(o', _) => o' != o && RetryPending(t.prev, o)
    case RetrySet(o', _) => o' == o || RetryPending(t.prev, o)
    case Observed(o', report, _, _) => !(o' == o && report.Running?) && RetryPending(t.prev, o)
    case _ => RetryPending(t.prev, o)
  }

  /** Every launch of a job that is to be restarted, and has a retry, comes more than the retry interval
      after its first failure. */
  predicate BackoffRespected(t: Trace) {
    t.Snoc? ==>
      && BackoffRespected(t.prev)
      && (t.last.Started? && ShouldRestart(t.last.job) && t.last.job.retry.Some? ==>
            var first := FirstFailure(t.prev, t.last.o);
            first.Some? && t.last.at > first.value + RETRY_INTERVAL)
  }

  /** The retry time is computed at most once between two observations of Running. */
  predicate RetriesComputedOnce(t: Trace) {
    t.Snoc? ==>
      && RetriesComputedOnce(t.prev)
      && (t.last.RetrySet? ==> !RetryPending(t.prev, t.last.o))
  }

  /** When `o` was created. */
  function CreatedAt(t: Trace, o: nat): (at: int) {
    if t.Empty? then 0
    else if t.last.Created? && t.last.o == o then t.last.at
    else CreatedAt(t.prev, o)
  }

  /** How often `o` was launched to run, since its creation. */
  function Launches(t: Trace, o: nat): (n: nat) {
    if t.Empty? then 0
    else if t.last.Created? && t.last.o == o then 0
    else Launches(t.prev, o) + if t.last.Started? && t.last.o == o && t.last.job.target.Running? then 1 else 0
  }

  // ----- retries -----

  /** The retry of a job is what the history says. */
  predicate RetryOk(j: JobView, t: Trace, o: nat) {
    && (j.cron.Some? <==> j.retry.None?)
    && (j.retry.Some? ==>
          var r := j.retry.value;
          && (r.marked <==> FirstFailure(t, o).Some?)
          && (r.marked <==> RetryPending(t, o))
          && (r.marked ==> r.next == FirstFailure(t, o).value + RETRY_INTERVAL))
  }

  ghost predicate RetryInv(s: State) {
    && (forall o :: 0 <= o < |s.objs| ==> RetryOk(s.objs[o], s.trace, o))
    && BackoffRespected(s.trace) && RetriesComputedOnce(s.trace)
  }

  /** A job to be restarted has just had its retry set or already has it set. */
  lemma RestartIsMarked(j: JobView, report: JobState, at: int)
    requires ShouldRestart(Observe(j, report, at)) && j.retry.Some?
    ensures Observe(j, report, at).retry.value.marked
  {}

  lemma ObservedOther(t: Trace, o: nat, before: JobView, after: JobView, report: JobState, at: int, x: nat)
    requires x != o
    ensures var t' := TraceObserved(t, o, before, after, report, at);
            FirstFailure(t', x) == FirstFailure(t, x) && RetryPending(t', x) == RetryPending(t, x) &&
            CreatedAt(t', x) == CreatedAt(t, x) && Launches(t', x) == Launches(t, x)
  {}

  lemma ObservedSelf(t: Trace, o: nat, j: JobView, report: JobState, at: int)
    requires RetryOk(j, t, o) && BackoffRespected(t) && RetriesComputedOnce(t)
    ensures var t' := TraceObserved(t, o, j, Observe(j, report, at), report, at);
            RetryOk(Observe(j, report, at), t', o) && BackoffRespected(t') && RetriesComputedOnce(t')
  {}

  lemma SeenKeepsRetries(s: State, o: nat, report: JobState, at: int)
    requires RetryInv(s) && o < |s.objs|
    ensures RetryInv(Seen(s, o, report, at))
  {
    var s' := Seen(s, o, report, at);
    ObservedSelf(s.trace, o, s.objs[o], report, at);
    forall x | 0 <= x < |s'.objs|
      ensures RetryOk(s'.objs[x], s'.trace, x)
    {
      if x != o {
        ObservedOther(s.trace, o, s.objs[o], s'.objs[o], report, at, x);
        assert RetryOk(s.objs[x], s.trace, x);
      }
    }
  }

  lemma LaunchKeepsRetries(p: Platform, s: State, decided: int)
    requires s.control.Awaiting? && CanVisit(s, s.control.pass) && RetryInv(s)
    requires Choose(s.objs[Visited(s, s.control.pass)], decided).Launch?
    requires var j := s.objs[Visited(s, s.control.pass)]; ShouldRestart(j) && j.retry.Some? ==> j.retry.value.marked
    ensures RetryInv(DoLaunch(p, s, decided))
  {}

  /** The jobs' retries and crons stay, and nothing is recorded that concerns them. */
  lemma QuietKeepsRetries(s: State, s': State)
    requires RetryInv(s) && |s'.objs| == |s.objs|
    requires forall o :: 0 <= o < |s.objs| ==> s'.objs[o].retry == s.objs[o].retry && s'.objs[o].cron == s.objs[o].cron
    requires s'.trace == s.trace || (s'.trace.Snoc? && s'.trace.prev == s.trace && (s'.trace.last.MarkedFor? || s'.trace.last.RunCalled?))
    ensures RetryInv(s')
  {}

  lemma AddKeepsRetries(p: Platform, s: State)
    requires CanAdd(s) && RetryInv(s)
    ensures RetryInv(DoAdd(p, s))
  {}

  lemma ReportKeepsRetries(p: Platform, s: State, report: Option<JobState>, seen: int, decided: int)
    requires CanReport(s, report, seen, decided) && RetryInv(s)
    ensures RetryInv(DoReport(p, s, report, seen, decided))
  {
    if report.Some? {
      var o := Visited(s, s.control.pass);
      var s1 := Seen(s, o, report.value, seen);
      SeenKeepsRetries(s, o, report.value, seen);
      match Choose(s1.objs[o], decided)
      case Leave => QuietKeepsRetries(s1, DoLeave(s1, decided));
      case Remove => QuietKeepsRetries(s1, DoRemove(s1, decided));
      case Launch =>
        if ShouldRestart(s1.objs[o]) && s1.objs[o].retry.Some? {
          RestartIsMarked(s.objs[o], report.value, seen);
        }
        LaunchKeepsRetries(p, s1, decided);
    } else {
      QuietKeepsRetries(s, DoLeave(s, decided));
    }
  }

  lemma PollKeepsRetries(s: State)
    requires CanPoll(s) && RetryInv(s)
    ensures RetryInv(DoPoll(s))
  {
    var o, id := Visited(s, s.control.pass), VisitedId(s, s.control.pass);
    var ro := s.routines[s.futures[id]];
    if !Live(ro) && ro.value.Some? && ro.value.value.Reached? {
      var next := s.(control := Executing(Advance(s.control.pass, o)), futures := s.futures - {id});
      QuietKeepsRetries(s, next);
      SeenKeepsRetries(next, o, ro.value.value.state, s.clock);
    } else {
      QuietKeepsRetries(s, DoPoll(s));
    }
  }

  lemma RetriesKept(p: Platform, s: State, step: Step)
    requires Enabled(s, step) && RetryInv(s)
    ensures RetryInv(Apply(p, s, step))
  {
    match step
    case AddJob => AddKeepsRetries(p, s);
    case PollFuture => PollKeepsRetries(s);
    case TakeReport(report, seen, decided) => ReportKeepsRetries(p, s, report, seen, decided);
    case MarkJob => QuietKeepsRetries(s, DoMark(s));
    case EvaluateJob => QuietKeepsRetries(s, DoEvaluate(s));
    case RunRoutine(r, reply) => QuietKeepsRetries(s, DoRun(s, r, reply));
    case _ => QuietKeepsRetries(s, Apply(p, s, step));
  }

  // ----- cron -----

  /** A time at which the schedule of `spec` fires. */
  ghost predicate IsInstant(p: Platform, spec: string, x: int) {
    exists t: int :: p.next(spec, t) == x
  }

  /** The instants strictly between two times. */
  ghost function Instants(p: Platform, spec: string, a: int, b: int): (xs: set<int>) {
    set x: int | a < x < b && IsInstant(p, spec, x)
  }

  /** The schedule always moves forward. */
  ghost predicate Advances(p: Platform, spec: string) {
    forall t: int :: p.next(spec, t) > t
  }

  /** The next launch is at an instant after the creation, and there were at most as many launches as
      instants before it, and before the present. */
  ghost predicate CronOk(p: Platform, c: Cron, created: int, launches: nat, clock: int) {
    && created < c.next && IsInstant(p, c.spec, c.next)
    && launches <= |Instants(p, c.spec, created, c.next)|
    && launches <= |Instants(p, c.spec, created, clock)|
  }

  ghost predicate CronInv(p: Platform, s: State) {
    forall o :: 0 <= o < |s.objs| && s.objs[o].cron.Some? && Advances(p, s.objs[o].cron.value.spec) ==>
      CronOk(p, s.objs[o].cron.value, CreatedAt(s.trace, o), Launches(s.trace, o), s.clock)
  }

  lemma InstantsGrow(p: Platform, spec: string, a: int, b: int, b': int)
    requires b <= b'
    ensures |Instants(p, spec, a, b)| <= |Instants(p, spec, a, b')|
  {
    Activation.SubsetCount(Instants(p, spec, a, b), Instants(p, spec, a, b'));
  }

  /** Passing an instant counts it. */
  lemma InstantPassed(p: Platform, spec: string, a: int, x: int, b: int)
    requires a < x < b && IsInstant(p, spec, x)
    ensures |Instants(p, spec, a, x)| + 1 <= |Instants(p, spec, a, b)|
  {
    assert |Instants(p, spec, a, x) + {x}| == |Instants(p, spec, a, x)| + 1;
    Activation.SubsetCount(Instants(p, spec, a, x) + {x}, Instants(p, spec, a, b));
  }

  lemma LaterIsOk(p: Platform, c: Cron, created: int, launches: nat, clock: int, clock': int)
    requires CronOk(p, c, created, launches, clock) && clock <= clock'
    ensures CronOk(p, c, created, launches, clock')
  {
    InstantsGrow(p, c.spec, created, clock, clock');
  }

  lemma LaunchIsOk(p: Platform, c: Cron, created: int, launches: nat, clock: int, now: int)
    requires Advances(p, c.spec) && CronOk(p, c, created, launches, clock) && c.next < now
    ensures CronOk(p, Cron(c.spec, p.next(c.spec, now)), created, launches + 1, now)
  {
    InstantPassed(p, c.spec, created, c.next, now);
    assert IsInstant(p, c.spec, p.next(c.spec, now));
    InstantsGrow(p, c.spec, created, now, p.next(c.spec, now));
  }

  /** Crons, creation times and launch counts stay; time does not go back. */
  lemma CronFrame(p: Platform, s: State, s': State)
    requires CronInv(p, s) && |s'.objs| == |s.objs| && s.clock <= s'.clock
    requires forall o :: 0 <= o < |s.objs| ==>
               s'.objs[o].cron == s.objs[o].cron && CreatedAt(s'.trace, o) == CreatedAt(s.trace, o) && Launches(s'.trace, o) == Launches(s.trace, o)
    ensures CronInv(p, s')
  {
    forall o | 0 <= o < |s'.objs| && s'.objs[o].cron.Some? && Advances(p, s'.objs[o].cron.value.spec)
      ensures CronOk(p, s'.objs[o].cron.value, CreatedAt(s'.trace, o), Launches(s'.trace, o), s'.clock)
    {
      LaterIsOk(p, s.objs[o].cron.value, CreatedAt(s.trace, o), Launches(s.trace, o), s.clock, s'.clock);
    }
  }

  lemma SeenKeepsCrons(p: Platform, s: State, o: nat, report: JobState, at: int)
    requires CronInv(p, s) && o < |s.objs|
    ensures CronInv(p, Seen(s, o, report, at))
  {}

  lemma LaunchKeepsCrons(p: Platform, s: State, decided: int)
    requires s.control.Awaiting? && CanVisit(s, s.control.pass) && CronInv(p, s) && s.clock <= decided
    requires Choose(s.objs[Visited(s, s.control.pass)], decided).Launch?
    ensures CronInv(p, DoLaunch(p, s, decided))
  {
    var s' := DoLaunch(p, s, decided);
    var v := Visited(s, s.control.pass);
    forall o | 0 <= o < |s'.objs| && s'.objs[o].cron.Some? && Advances(p, s'.objs[o].cron.value.spec)
      ensures CronOk(p, s'.objs[o].cron.value, CreatedAt(s'.trace, o), Launches(s'.trace, o), s'.clock)
    {
      var c := s.objs[o].cron.value;
      if o == v && s.objs[o].target.Running? {
        LaunchIsOk(p, c, CreatedAt(s.trace, o), Launches(s.trace, o), s.clock, decided);
      } else {
        LaterIsOk(p, c, CreatedAt(s.trace, o), Launches(s.trace, o), s.clock, decided);
      }
    }
  }

  lemma AddKeepsCrons(p: Platform, s: State)
    requires CanAdd(s) && CronInv(p, s)
    ensures CronInv(p, DoAdd(p, s))
  {}

  lemma ReportKeepsCrons(p: Platform, s: State, report: Option<JobState>, seen: int, decided: int)
    requires CanReport(s, report, seen, decided) && CronInv(p, s)
    ensures CronInv(p, DoReport(p, s, report, seen, decided))
  {
    if report.Some? {
      var o := Visited(s, s.control.pass);
      var s1 := Seen(s, o, report.value, seen);
      SeenKeepsCrons(p, s, o, report.value, seen);
      match Choose(s1.objs[o], decided)
      case Leave => CronFrame(p, s1, DoLeave(s1, decided));
      case Remove => CronFrame(p, s1, DoRemove(s1, decided));
      case Launch => LaunchKeepsCrons(p, s1, decided);
    } else {
      CronFrame(p, s, DoLeave(s, decided));
    }
  }

  lemma PollKeepsCrons(p: Platform, s: State)
    requires CanPoll(s) && CronInv(p, s)
    ensures CronInv(p, DoPoll(s))
  {
    var o, id := Visited(s, s.control.pass), VisitedId(s, s.control.pass);
    var ro := s.routines[s.futures[id]];
    if !Live(ro) && ro.value.Some? && ro.value.value.Reached? {
      var next := s.(control := Executing(Advance(s.control.pass, o)), futures := s.futures - {id});
      CronFrame(p, s, next);
      SeenKeepsCrons(p, next, o, ro.value.value.state, s.clock);
    } else {
      CronFrame(p, s, DoPoll(s));
    }
  }

  lemma CronsKept(p: Platform, s: State, step: Step)
    requires Enabled(s, step) && CronInv(p, s)
    ensures CronInv(p, Apply(p, s, step))
  {
    match step
    case AddJob => AddKeepsCrons(p, s);
    case PollFuture => PollKeepsCrons(p, s);
    case TakeReport(report, seen, decided) => ReportKeepsCrons(p, s, report, seen, decided);
    case MarkJob => CronFrame(p, s, DoMark(s));
    case EvaluateJob => CronFrame(p, s, DoEvaluate(s));
    case RunRoutine(r, reply) => CronFrame(p, s, DoRun(s, r, reply));
    case _ => CronFrame(p, s, Apply(p, s, step));
  }
}
