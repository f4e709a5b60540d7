/** Jobs marked for deletion, and the `Run` calls of the executor: which goroutine may make them, and
    what exists when it does. */
module MarkedJobs {
  import opened Wrappers
  import opened Jobs
  import opened Machine
  import opened InFlight

  // ----- reading the history -----

  /** The object `o` has been marked for deletion. */
  ghost predicate MarkedIn(t: Trace, o: nat) {
    t.Snoc? &&
    match t.last
    case MarkedFor(o') => o' == o || MarkedIn(t.prev, o)
    case Created(o', _) => o' != o && MarkedIn(t.prev, o)
    case _ => MarkedIn(t.prev, o)
  }

  /** The goroutine `r` was launched for an object already marked. */
  ghost predicate LaunchedAfterMark(t: Trace, r: nat) {
    t.Snoc? &&
    match t.last
    case Started(o, r', _, _) => if r' == r then MarkedIn(t.prev, o) else LaunchedAfterMark(t.prev, r)
    case _ => LaunchedAfterMark(t.prev, r)
  }

  /** Every `Run` call was made by a goroutine launched before the mark, if there is one. */
  ghost predicate RunsPrecedeMarks(t: Trace) {
    t.Snoc? ==>
      && RunsPrecedeMarks(t.prev)
      && (t.last.RunCalled? ==> !LaunchedAfterMark(t.prev, t.last.r))
  }

  /** Every `Run` call for a pod was made when no pod with its ID existed. */
  ghost predicate RunsOnClearGround(t: Trace) {
    t.Snoc? ==>
      && RunsOnClearGround(t.prev)
      && (t.last.RunCalled? && t.last.kind.Pod? ==> !t.last.existed)
  }

  // ----- the invariant -----

  ghost predicate JobMarks(j: JobView, marked: bool) {
    && (j.marked <==> marked)
    && (j.marked ==> j.target.Exited?)
    && (j.target.Ready? || j.target.Running? || j.target.Inactive? || j.target.Exited?)
  }

  /** The program points from which the goroutine goes on to call `Run`, or is inside it. */
  predicate MayRun(pc: Pc) {
    pc.InExists? || pc.InRemoveFirst? || pc.RunReady? || pc.InRun?
  }

  ghost predicate RoutineMarks(objs: seq<JobView>, ro: Routine, late: bool) {
    late ==> ro.o < |objs| && objs[ro.o].marked && !MayRun(ro.pc)
  }

  ghost predicate JobsMarked(objs: seq<JobView>, t: Trace) {
    forall o :: 0 <= o < |objs| ==> JobMarks(objs[o], MarkedIn(t, o))
  }

  ghost predicate RoutinesMarked(objs: seq<JobView>, routines: seq<Routine>, t: Trace) {
    forall r :: 0 <= r < |routines| ==> RoutineMarks(objs, routines[r], LaunchedAfterMark(t, r))
  }

  ghost predicate MarkInv(s: State) {
    JobsMarked(s.objs, s.trace) && RoutinesMarked(s.objs, s.routines, s.trace) && RunsPrecedeMarks(s.trace)
  }

  lemma SeenKeepsMarks(s: State, o: nat, report: JobState, at: int)
    requires MarkInv(s) && o < |s.objs|
    ensures MarkInv(Seen(s, o, report, at))
  {}

  lemma MarkKeepsMarks(s: State)
    requires CanMark(s) && MarkInv(s)
    ensures MarkInv(DoMark(s))
  {}

  lemma AddKeepsMarks(p: Platform, s: State)
    requires CanAdd(s) && MarkInv(s)
    ensures MarkInv(DoAdd(p, s))
  {}

  lemma EvaluateKeepsMarks(s: State)
    requires CanEvaluate(s) && MarkInv(s)
    ensures MarkInv(DoEvaluate(s))
  {}

  lemma LaunchKeepsMarks(p: Platform, s: State, decided: int)
    requires s.control.Awaiting? && CanVisit(s, s.control.pass) && MarkInv(s)
    ensures MarkInv(DoLaunch(p, s, decided))
  {}

  /** Removing and polling without a result touch neither marks nor history. */
  lemma QuietKeepsMarks(s: State, s': State)
    requires MarkInv(s) && s'.objs == s.objs && s'.routines == s.routines && s'.trace == s.trace
    ensures MarkInv(s')
  {}

  lemma ReportKeepsMarks(p: Platform, s: State, report: Option<JobState>, seen: int, decided: int)
    requires CanReport(s, report, seen, decided) && MarkInv(s)
    ensures MarkInv(DoReport(p, s, report, seen, decided))
  {
    if report.Some? {
      var o := Visited(s, s.control.pass);
      var s1 := Seen(s, o, report.value, seen);
      SeenKeepsMarks(s, o, report.value, seen);
      match Choose(s1.objs[o], decided)
      case Leave => QuietKeepsMarks(s1, DoLeave(s1, decided));
      case Remove => QuietKeepsMarks(s1, DoRemove(s1, decided));
      case Launch => LaunchKeepsMarks(p, s1, decided);
    } else {
      QuietKeepsMarks(s, DoLeave(s, decided));
    }
  }

  lemma PollKeepsMarks(s: State)
    requires CanPoll(s) && MarkInv(s)
    ensures MarkInv(DoPoll(s))
  {
    var o, id := Visited(s, s.control.pass), VisitedId(s, s.control.pass);
    var ro := s.routines[s.futures[id]];
    if !Live(ro) && ro.value.Some? && ro.value.value.Reached? {
      var next := s.(control := Executing(Advance(s.control.pass, o)), futures := s.futures - {id});
      QuietKeepsMarks(s, next);
      SeenKeepsMarks(next, o, ro.value.value.state, s.clock);
    } else {
      QuietKeepsMarks(s, DoPoll(s));
    }
  }

  lemma RunKeepsMarks(s: State, r: nat, reply: Reply)
    requires CanRun(s, r, reply) && MarkInv(s)
    ensures MarkInv(DoRun(s, r, reply))
  {}

  lemma MarksKept(p: Platform, s: State, step: Step)
    requires Enabled(s, step) && MarkInv(s)
    ensures MarkInv(Apply(p, s, step))
  {
    match step
    case AddJob => AddKeepsMarks(p, s);
    case MarkJob => MarkKeepsMarks(s);
    case EvaluateJob => EvaluateKeepsMarks(s);
    case PollFuture => PollKeepsMarks(s);
    case TakeReport(report, seen, decided) => ReportKeepsMarks(p, s, report, seen, decided);
    case RunRoutine(r, reply) => RunKeepsMarks(s, r, reply);
    case _ => QuietKeepsMarks(s, Apply(p, s, step));
  }

  // ----- pods -----

  /** A goroutine about to call `Run` for a pod knows that the pod does not exist. */
  ghost predicate PodInv(s: State) {
    && (forall r :: 0 <= r < |s.routines| && s.routines[r].kind.Pod? && s.routines[r].pc.RunReady? ==> s.routines[r].id !in s.pods)
    && RunsOnClearGround(s.trace)
  }

  lemma RunKeepsPods(s: State, r: nat, reply: Reply)
    requires CanRun(s, r, reply) && PodInv(s) && FutureInv(s)
    ensures PodInv(DoRun(s, r, reply))
  {}

  lemma ElapseKeepsPods(s: State, to: int, pods: set<string>)
    requires CanElapse(s, to, pods) && PodInv(s) && FutureInv(s)
    ensures PodInv(s.(clock := to, pods := pods))
  {}

  lemma ReportKeepsPods(p: Platform, s: State, report: Option<JobState>, seen: int, decided: int)
    requires CanReport(s, report, seen, decided) && PodInv(s)
    ensures PodInv(DoReport(p, s, report, seen, decided))
  {}

  lemma PollKeepsPods(s: State)
    requires CanPoll(s) && PodInv(s)
    ensures PodInv(DoPoll(s))
  {}

  lemma PodsKept(p: Platform, s: State, step: Step)
    requires Enabled(s, step) && PodInv(s) && FutureInv(s)
    ensures PodInv(Apply(p, s, step))
  {
    match step
    case PollFuture => PollKeepsPods(s);
    case TakeReport(report, seen, decided) => ReportKeepsPods(p, s, report, seen, decided);
    case RunRoutine(r, reply) => RunKeepsPods(s, r, reply);
    case Elapse(to, pods) => ElapseKeepsPods(s, to, pods);
    case _ =>
  }

  /** A marked job stays marked, with target Exited, through every step. */
  lemma MarkIsForever(p: Platform, s: State, step: Step, o: nat)
    requires Enabled(s, step) && MarkInv(s) && o < |s.objs| && s.objs[o].marked
    ensures var s' := Apply(p, s, step); o < |s'.objs| && s'.objs[o].marked && s'.objs[o].target.Exited?
  {
    MarksKept(p, s, step);
    MarkStays(p, s, step, o);
    var s' := Apply(p, s, step);
    assert JobMarks(s'.objs[o], MarkedIn(s'.trace, o));
  }

  lemma MarkStays(p: Platform, s: State, step: Step, o: nat)
    requires Enabled(s, step) && o < |s.objs| && s.objs[o].marked
    ensures o < |Apply(p, s, step).objs| && Apply(p, s, step).objs[o].marked
  {
    if step.TakeReport? {
      ReportFrame(p, s, step.report, step.seen, step.decided);
    }
  }
}
