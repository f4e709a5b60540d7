/** When a job leaves the store: safety, the exact condition, and progress. */
module Removal {
  import opened Wrappers
  import opened Jobs
  import opened Machine
  import opened InFlight
  import opened MarkedJobs
  import opened ExecutionPass
  import opened Configuration

  // ----- safety -----

  /** The report leads to a removal. */
  predicate Removes(j: JobView, report: Option<JobState>, seen: int, decided: int) {
    report.Some? && Choose(Observe(j, report.value, seen), decided).Remove?
  }

  /** For a marked job: exactly when it is Exited, or Unknown for a job that is not Inactive, because
      Inactive swallows the Unknown reports. */
  lemma RemovesIff(j: JobView, report: Option<JobState>, seen: int, decided: int)
    requires report.Some? ==> MapperState(report.value)
    requires j.marked && j.target.Exited?
    ensures Removes(j, report, seen, decided) <==>
              report == Some(Exited) || (report == Some(Unknown) && !j.current.Inactive?)
  {}

  lemma RemovesOnlyMarked(j: JobView, report: Option<JobState>, seen: int, decided: int)
    requires Removes(j, report, seen, decided)
    ensures j.marked
  {}

  /** The store after a visit: without the visited job if it was removed, else unchanged. */
  lemma ReportStored(p: Platform, s: State, report: Option<JobState>, seen: int, decided: int, o: nat)
    requires CanReport(s, report, seen, decided) && StoreInv(s) && PassInv(s)
    ensures o in Stored(DoReport(p, s, report, seen, decided)) <==>
              o in Stored(s) && !(o == Visited(s, s.control.pass) && Removes(s.objs[o], report, seen, decided))
  {
    var v := Visited(s, s.control.pass);
    if report.Some? {
      var s1 := Seen(s, v, report.value, seen);
      assert Stored(s1) == Stored(s);
      match Choose(s1.objs[v], decided)
      case Leave => assert Stored(DoLeave(s1, decided)) == Stored(s);
      case Launch => assert Stored(DoLaunch(p, s1, decided)) == Stored(s);
      case Remove =>
        StoreInvFrame(s, s1);
        SeenKeepsPass(s, v, report.value, seen);
        RemovedFromStore(s1, decided, o);
    } else {
      assert Stored(DoLeave(s, decided)) == Stored(s);
    }
  }

  /** A job leaves the store only in a visit that finds it marked, with no reconciliation for its ID in
      flight, and in which the executor has just reported Unknown or Exited. */
  lemma RemovalIsSafe(p: Platform, s: State, step: Step, o: nat)
    requires Enabled(s, step) && StoreInv(s) && PassInv(s) && MarkInv(s) && FutureInv(s)
    requires o in Stored(s) && o !in Stored(Apply(p, s, step))
    ensures step.TakeReport? && s.control.Awaiting? && CanVisit(s, s.control.pass) && Visited(s, s.control.pass) == o
    ensures s.objs[o].marked && s.objs[o].target.Exited?
    ensures step.report == Some(Unknown) || step.report == Some(Exited)
    ensures forall r :: 0 <= r < |s.routines| && s.routines[r].id == s.objs[o].w.id ==> !Live(s.routines[r])
  {
    OnlyReportsRemove(p, s, step, o);
    ReportRemovalIsSafe(p, s, step.report, step.seen, step.decided, o);
  }

  lemma OnlyReportsRemove(p: Platform, s: State, step: Step, o: nat)
    requires Enabled(s, step) && o in Stored(s) && o !in Stored(Apply(p, s, step))
    ensures step.TakeReport?
  {}

  lemma ReportRemovalIsSafe(p: Platform, s: State, report: Option<JobState>, seen: int, decided: int, o: nat)
    requires CanReport(s, report, seen, decided) && StoreInv(s) && PassInv(s) && MarkInv(s) && FutureInv(s)
    requires o in Stored(s) && o !in Stored(DoReport(p, s, report, seen, decided))
    ensures Visited(s, s.control.pass) == o && s.objs[o].marked && s.objs[o].target.Exited?
    ensures report == Some(Unknown) || report == Some(Exited)
    ensures forall r :: 0 <= r < |s.routines| && s.routines[r].id == s.objs[o].w.id ==> !Live(s.routines[r])
  {
    ReportStored(p, s, report, seen, decided, o);
    RemovesOnlyMarked(s.objs[o], report, seen, decided);
    assert JobMarks(s.objs[o], MarkedIn(s.trace, o));
    RemovesIff(s.objs[o], report, seen, decided);
  }

  lemma AddKeepsStored(p: Platform, s: State, o: nat)
    requires CanAdd(s) && o in Stored(s)
    ensures o in Stored(DoAdd(p, s))
  {}

  // ----- a marked job that is never removed -----

  /** Marked while Inactive, with nothing in flight. */
  ghost predicate Stuck(s: State, o: nat) {
    && o < |s.objs| && o in Stored(s) && s.objs[o].marked && s.objs[o].current.Inactive?
    && s.objs[o].w.id !in s.futures
  }

  /** While the executor says no more about it than that it is unknown, such a job stays as it is: it is
      neither removed nor reconciled, in any step of any goroutine. */
  lemma StuckStays(p: Platform, s: State, step: Step, o: nat)
    requires Enabled(s, step) && StoreInv(s) && PassInv(s) && MarkInv(s) && Stuck(s, o)
    requires step.TakeReport? && Visited(s, s.control.pass) == o ==> step.report == None || step.report == Some(Unknown)
    ensures Stuck(Apply(p, s, step), o)
  {
    assert JobMarks(s.objs[o], MarkedIn(s.trace, o));
    match step
    case AddJob => StuckAdd(p, s, o);
    case PollFuture => StuckPoll(s, o);
    case TakeReport(report, seen, decided) => StuckReport(p, s, report, seen, decided, o);
    case MarkJob => StuckMark(s, o);
    case EvaluateJob => StuckEvaluate(s, o);
    case _ => StuckFrame(s, Apply(p, s, step), o);
  }

  lemma StuckMark(s: State, o: nat)
    requires CanMark(s) && Stuck(s, o)
    ensures Stuck(DoMark(s), o)
  {
    StuckFrame(s, DoMark(s), o);
  }

  lemma StuckEvaluate(s: State, o: nat)
    requires CanEvaluate(s) && Stuck(s, o)
    ensures Stuck(DoEvaluate(s), o)
  {
    StuckFrame(s, DoEvaluate(s), o);
  }

  lemma StuckFrame(s: State, s': State, o: nat)
    requires Stuck(s, o) && |s'.objs| == |s.objs| && s'.backing == s.backing && s'.len == s.len && s'.futures == s.futures
    requires s'.objs[o].w == s.objs[o].w && s'.objs[o].current == s.objs[o].current && (s.objs[o].marked ==> s'.objs[o].marked)
    ensures Stuck(s', o)
  {
    assert Stored(s') == Stored(s);
  }

  lemma StuckAdd(p: Platform, s: State, o: nat)
    requires CanAdd(s) && Stuck(s, o)
    ensures Stuck(DoAdd(p, s), o)
  {
    AddKeepsStored(p, s, o);
  }

  lemma StuckPoll(s: State, o: nat)
    requires CanPoll(s) && Stuck(s, o)
    ensures Stuck(DoPoll(s), o)
  {}

  /** Objects that the pass visits and objects in the store share an ID only if they are the same. */
  lemma SameIdAsVisited(s: State, o: nat)
    requires StoreInv(s) && PassInv(s) && (s.control.Executing? || s.control.Awaiting?) && CanVisit(s, s.control.pass)
    requires o in Stored(s) && s.objs[o].w.id == VisitedId(s, s.control.pass)
    ensures o == Visited(s, s.control.pass)
  {}

  lemma StuckReport(p: Platform, s: State, report: Option<JobState>, seen: int, decided: int, o: nat)
    requires CanReport(s, report, seen, decided) && StoreInv(s) && PassInv(s) && MarkInv(s) && Stuck(s, o)
    requires Visited(s, s.control.pass) == o ==> report == None || report == Some(Unknown)
    ensures Stuck(DoReport(p, s, report, seen, decided), o)
  {
    assert JobMarks(s.objs[o], MarkedIn(s.trace, o));
    ReportStored(p, s, report, seen, decided, o);
    if Visited(s, s.control.pass) == o {
      RemovesIff(s.objs[o], report, seen, decided);
      StuckIsLeft(s.objs[o], seen, decided);
    } else {
      if s.objs[o].w.id == VisitedId(s, s.control.pass) {
        SameIdAsVisited(s, o);
      }
      ReportFrame(p, s, report, seen, decided);
      ReportFutures(p, s, report, seen, decided);
    }
  }

  lemma StuckIsLeft(j: JobView, seen: int, decided: int)
    requires j.marked && j.target.Exited? && j.current.Inactive?
    ensures Observe(j, Unknown, seen) == j && Choose(j, decided).Leave?
  {}

  /** A visit changes at most the future of the visited ID. */
  lemma ReportFutures(p: Platform, s: State, report: Option<JobState>, seen: int, decided: int)
    requires CanReport(s, report, seen, decided)
    ensures forall id :: id != VisitedId(s, s.control.pass) ==>
              (id in DoReport(p, s, report, seen, decided).futures <==> id in s.futures) &&
              (id in s.futures ==> DoReport(p, s, report, seen, decided).futures[id] == s.futures[id])
  {}
}
