/** What becomes of a marked job, whatever its state: by its fourth visit it is removed, or stranded for
    good. */
module Settling {
  import opened Wrappers
  import opened Jobs
  import opened Machine
  import opened InFlight
  import opened MarkedJobs
  import opened ExecutionPass
  import opened Removal
  import opened Progress

  // ----- what stays -----

  /** An object that has left the store does not come back. */
  lemma NeverBack(p: Platform, s: State, step: Step, o: nat)
    requires Enabled(s, step) && StoreInv(s) && PassInv(s) && o < |s.objs| && o !in Stored(s)
    ensures o < |Apply(p, s, step).objs| && o !in Stored(Apply(p, s, step))
  {
    if step.TakeReport? {
      ReportStored(p, s, step.report, step.seen, step.decided, o);
      ReportFrame(p, s, step.report, step.seen, step.decided);
    } else if step.AddJob? {
      AddedIsNew(p, s, o);
    } else {
      StoreUntouched(p, s, step);
      ObjectsStay(p, s, step);
    }
  }

  lemma AddedIsNew(p: Platform, s: State, o: nat)
    requires CanAdd(s) && o < |s.objs| && o !in Stored(s)
    ensures o < |DoAdd(p, s).objs| && o !in Stored(DoAdd(p, s))
  {}

  lemma StoreUntouched(p: Platform, s: State, step: Step)
    requires Enabled(s, step) && !step.TakeReport? && !step.AddJob?
    ensures Stored(Apply(p, s, step)) == Stored(s)
  {}

  lemma ObjectsStay(p: Platform, s: State, step: Step)
    requires Enabled(s, step)
    ensures |s.objs| <= |Apply(p, s, step).objs|
  {}

  /** Jobs keep their workload. */
  lemma WorkloadStays(p: Platform, s: State, step: Step, o: nat)
    requires Enabled(s, step) && o < |s.objs|
    ensures o < |Apply(p, s, step).objs| && Apply(p, s, step).objs[o].w == s.objs[o].w
  {
    if step.TakeReport? {
      ReportFrame(p, s, step.report, step.seen, step.decided);
    }
  }

  lemma NoPodAppears(p: Platform, s: State, step: Step, id: string)
    requires Enabled(s, step) && FutureInv(s) && id !in s.futures && id !in s.pods
    ensures id !in Apply(p, s, step).pods
  {
    assert forall r :: 0 <= r < |s.routines| && s.routines[r].id == id ==> !Live(s.routines[r]);
    if step.TakeReport? {
      ReportFrame(p, s, step.report, step.seen, step.decided);
    }
  }

  // ----- the stranded job -----

  /** A marked job with nothing in flight and no pod or deployment. */
  ghost predicate Cleared(s: State, o: nat) {
    && o < |s.objs| && o in Stored(s) && s.objs[o].marked
    && s.objs[o].w.id !in s.futures && s.objs[o].w.id !in s.pods
  }

  /** Cleared and Inactive. */
  ghost predicate Stranded(s: State, o: nat) {
    Cleared(s, o) && s.objs[o].current.Inactive?
  }

  lemma StrandedStays(p: Platform, s: State, step: Step, o: nat)
    requires Enabled(s, step) && SafeInv(s) && Stranded(s, o) && Benign(s, step, o)
    ensures Stranded(Apply(p, s, step), o)
  {
    StuckStays(p, s, step, o);
    NoPodAppears(p, s, step, s.objs[o].w.id);
    WorkloadStays(p, s, step, o);
  }

  // ----- the ranking of all marked jobs -----

  /** Removed or stranded. */
  ghost predicate Settled(s: State, o: nat) {
    o !in Stored(s) || Stranded(s, o)
  }

  /** How many visits a marked job has still to wait for, at most, until it is settled. */
  ghost function Wait(s: State, o: nat): (n: nat)
    requires o < |s.objs|
    ensures n <= 4
  {
    if Settled(s, o) then 0
    else if !s.objs[o].current.Inactive? then Rank(s, o)
    else if s.objs[o].w.id in s.futures then 4
    else 3
  }

  lemma SettledIffNoWait(s: State, o: nat)
    requires o < |s.objs|
    ensures Wait(s, o) == 0 <==> Settled(s, o)
  {
    if !Settled(s, o) {
      PositiveRank(s, o);
    }
  }

  lemma IdleWait(s: State, o: nat)
    requires o < |s.objs| && s.objs[o].w.id !in s.futures
    ensures Wait(s, o) <= 3
  {}

  /** A job without a future gets one only in a visit that learns its state. */
  lemma NoFutureAppears(p: Platform, s: State, step: Step, o: nat)
    requires Enabled(s, step) && SafeInv(s) && o < |s.objs| && o in Stored(s) && s.objs[o].w.id !in s.futures
    requires !(step.TakeReport? && Visited(s, s.control.pass) == o && step.report.Some?)
    ensures s.objs[o].w.id !in Apply(p, s, step).futures
  {
    if step.TakeReport? {
      NoFutureInReport(p, s, step.report, step.seen, step.decided, o);
    } else if step.PollFuture? {
      PollChangesOne(s);
    }
  }

  lemma NoFutureInReport(p: Platform, s: State, report: Option<JobState>, seen: int, decided: int, o: nat)
    requires CanReport(s, report, seen, decided) && StoreInv(s) && PassInv(s) && o in Stored(s) && s.objs[o].w.id !in s.futures
    requires Visited(s, s.control.pass) == o ==> report.None?
    ensures s.objs[o].w.id !in DoReport(p, s, report, seen, decided).futures
  {
    if report.Some? {
      if s.objs[o].w.id == VisitedId(s, s.control.pass) {
        SameIdAsVisited(s, o);
      }
      ReportFutures(p, s, report, seen, decided);
    }
  }

  /** A job that is not Inactive. */
  lemma DoomedWaits(p: Platform, s: State, step: Step, o: nat)
    requires Enabled(s, step) && SafeInv(s) && Doomed(s, o) && Benign(s, step, o)
    ensures o < |Apply(p, s, step).objs| && Wait(Apply(p, s, step), o) <= Wait(s, o)
    ensures Counts(s, step, o) ==> Wait(Apply(p, s, step), o) < Wait(s, o)
  {
    RankStep(p, s, step, o);
    ObjectsStay(p, s, step);
  }

  /** An Inactive job with a goroutine: its next counted visit finds the result. */
  lemma FutureWaits(p: Platform, s: State, step: Step, o: nat)
    requires Enabled(s, step) && SafeInv(s) && o < |s.objs| && s.objs[o].w.id in s.futures && Counts(s, step, o)
    ensures o < |Apply(p, s, step).objs| && Wait(Apply(p, s, step), o) <= 3
  {
    WorkloadStays(p, s, step, o);
    IdleWait(Apply(p, s, step), o);
  }

  /** An Inactive job with a pod but no goroutine: the visit that learns its state stops it. */
  lemma PodWaits(p: Platform, s: State, step: Step, o: nat)
    requires Enabled(s, step) && SafeInv(s) && o < |s.objs| && o in Stored(s) && s.objs[o].marked && Benign(s, step, o)
    requires s.objs[o].w.id !in s.futures && s.objs[o].w.id in s.pods
    ensures o < |Apply(p, s, step).objs| && Wait(Apply(p, s, step), o) <= 3
    ensures Counts(s, step, o) ==> Wait(Apply(p, s, step), o) <= 2
  {
    WorkloadStays(p, s, step, o);
    if step.TakeReport? && Visited(s, s.control.pass) == o && step.report.Some? {
      assert JobMarks(s.objs[o], MarkedIn(s.trace, o));
      ReportRelaunches(p, s, step.seen, step.decided, o);
    } else {
      NoFutureAppears(p, s, step, o);
      IdleWait(Apply(p, s, step), o);
    }
  }

  /** The next visit that learns the state of an Inactive marked job decides: with a pod the job is on its way
      out, without one it is stranded. */
  lemma VisitDecides(p: Platform, s: State, report: JobState, seen: int, decided: int, o: nat)
    requires CanReport(s, Some(report), seen, decided) && SafeInv(s) && Visited(s, s.control.pass) == o
    requires o in Stored(s) && s.objs[o].marked && s.objs[o].current.Inactive?
    requires Benign(s, TakeReport(Some(report), seen, decided), o)
    ensures var s' := DoReport(p, s, Some(report), seen, decided);
            if s.objs[o].w.id in s.pods then Doomed(s', o) else Stranded(s', o)
  {
    assert JobMarks(s.objs[o], MarkedIn(s.trace, o));
    assert s.objs[o].w.id !in s.futures;
    if s.objs[o].w.id in s.pods {
      ReportRelaunches(p, s, seen, decided, o);
    } else {
      StuckReport(p, s, Some(Unknown), seen, decided, o);
      ReportFrame(p, s, Some(Unknown), seen, decided);
    }
  }

  /** No step lengthens the wait of a marked job, and every counted visit of one that is not settled
      shortens it. */
  lemma WaitStep(p: Platform, s: State, step: Step, o: nat)
    requires Enabled(s, step) && SafeInv(s) && o < |s.objs| && s.objs[o].marked && Benign(s, step, o)
    ensures o < |Apply(p, s, step).objs| && Apply(p, s, step).objs[o].marked
    ensures Wait(Apply(p, s, step), o) <= Wait(s, o)
    ensures Counts(s, step, o) && !Settled(s, o) ==> Wait(Apply(p, s, step), o) < Wait(s, o)
  {
    MarkStays(p, s, step, o);
    if o !in Stored(s) {
      NeverBack(p, s, step, o);
    } else if !s.objs[o].current.Inactive? {
      DoomedWaits(p, s, step, o);
    } else if Stranded(s, o) {
      StrandedStays(p, s, step, o);
    } else if s.objs[o].w.id !in s.futures {
      PodWaits(p, s, step, o);
    } else if Counts(s, step, o) {
      FutureWaits(p, s, step, o);
    }
  }
}
