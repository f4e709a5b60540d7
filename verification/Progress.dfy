/** Removal progress: a marked job that is not Inactive is gone after four visits. */
module Progress {
  import opened Wrappers
  import opened Jobs
  import opened Machine
  import opened InFlight
  import opened MarkedJobs
  import opened ExecutionPass
  import opened Configuration
  import opened Removal

  // ----- whose job a future is about -----

  /** What the goroutine has sent or is about to send. */
  function Outcome(ro: Routine): (r: Option<SyncResult>) {
    if ro.pc.Sending? then Some(ro.pc.result) else ro.value
  }

  /** The goroutine works on a stored job, or on one that was removed and then found running again in
      the same pass; and it brings back Inactive only for a job that is Inactive. */
  ghost predicate OwnerOk(s: State, ro: Routine) {
    && ro.o < |s.objs|
    && (ro.o in Stored(s) || (s.objs[ro.o].marked && s.objs[ro.o].current.Running?))
    && (Outcome(ro) == Some(Reached(Inactive)) ==> s.objs[ro.o].current.Inactive?)
  }

  ghost predicate OwnerInv(s: State) {
    forall id :: id in s.futures && s.futures[id] < |s.routines| ==> OwnerOk(s, s.routines[s.futures[id]])
  }

  /** The object keeps its current state, its mark and its place. */
  ghost predicate Untouched(s: State, s': State, o: nat) {
    && (o < |s.objs| ==> o < |s'.objs| && s'.objs[o].current == s.objs[o].current && (s.objs[o].marked ==> s'.objs[o].marked))
    && (o in Stored(s) ==> o in Stored(s'))
  }

  lemma OwnerFrame(s: State, s': State)
    requires OwnerInv(s) && s'.routines == s.routines
    requires forall id :: id in s'.futures ==> id in s.futures && s'.futures[id] == s.futures[id]
    requires forall id :: id in s'.futures && s.futures[id] < |s.routines| ==> Untouched(s, s', s.routines[s.futures[id]].o)
    ensures OwnerInv(s')
  {}

  /** The object of another ID's future is another object. */
  lemma OtherOwner(s: State, id: string, v: nat)
    requires FutureInv(s) && id in s.futures && v < |s.objs| && s.objs[v].w.id != id
    ensures s.routines[s.futures[id]].o != v
  {}

  lemma SeenKeepsOwners(s: State, o: nat, report: JobState, at: int)
    requires OwnerInv(s) && FutureInv(s) && o < |s.objs| && s.objs[o].w.id !in s.futures
    ensures OwnerInv(Seen(s, o, report, at))
  {}

  lemma PollKeepsOwners(s: State)
    requires CanPoll(s) && OwnerInv(s) && FutureInv(s)
    ensures OwnerInv(DoPoll(s))
  {
    var id := VisitedId(s, s.control.pass);
    if Live(s.routines[s.futures[id]]) {
      QuietKeepsOwners(s, DoPoll(s));
    } else {
      ResolvedKeepsOwners(s);
    }
  }

  lemma ResolvedKeepsOwners(s: State)
    requires CanPoll(s) && OwnerInv(s) && FutureInv(s) && !Live(s.routines[s.futures[VisitedId(s, s.control.pass)]])
    ensures OwnerInv(DoPoll(s))
  {
    var s', v := DoPoll(s), Visited(s, s.control.pass);
    PollChangesOne(s);
    forall id | id in s'.futures && s.futures[id] < |s.routines|
      ensures Untouched(s, s', s.routines[s.futures[id]].o)
    {
      OtherOwner(s, id, v);
      assert RoutineOk(s.objs, s.routines[s.futures[id]]);
    }
    OwnerFrame(s, s');
  }

  lemma RemoveKeepsOwners(s: State, decided: int)
    requires s.control.Awaiting? && CanVisit(s, s.control.pass) && StoreInv(s) && PassInv(s) && FutureInv(s) && OwnerInv(s)
    ensures OwnerInv(DoRemove(s, decided))
  {
    var s' := DoRemove(s, decided);
    assert s'.routines == s.routines && s'.objs == s.objs;
    forall x | x in s'.futures && s.futures[x] < |s.routines|
      ensures Untouched(s, s', s.routines[s.futures[x]].o)
    {
      OtherOwner(s, x, Visited(s, s.control.pass));
      RemovedFromStore(s, decided, s.routines[s.futures[x]].o);
    }
    OwnerFrame(s, s');
  }

  lemma LaunchKeepsOwners(p: Platform, s: State, decided: int)
    requires s.control.Awaiting? && CanVisit(s, s.control.pass) && PassInv(s) && FutureInv(s) && OwnerInv(s) && MarkInv(s)
    requires s.len <= |s.backing| && Choose(s.objs[Visited(s, s.control.pass)], decided).Launch?
    ensures OwnerInv(DoLaunch(p, s, decided))
  {
    var s' := DoLaunch(p, s, decided);
    var v := Visited(s, s.control.pass);
    assert Stored(s') == Stored(s);
    assert JobMarks(s.objs[v], MarkedIn(s.trace, v));
    VisitedStoredOrGone(s);
    forall id | id in s'.futures && s'.futures[id] < |s'.routines|
      ensures OwnerOk(s', s'.routines[s'.futures[id]])
    {
      if id != s.objs[v].w.id {
        OtherOwner(s, id, v);
        assert OwnerOk(s, s.routines[s.futures[id]]);
      }
    }
  }

  /** A job the pass still visits after it was removed is marked. */
  lemma VisitedStoredOrGone(s: State)
    requires PassInv(s) && (s.control.Executing? || s.control.Awaiting?) && CanVisit(s, s.control.pass) && s.len <= |s.backing|
    ensures Visited(s, s.control.pass) in Stored(s) || s.objs[Visited(s, s.control.pass)].marked
  {}

  lemma DecideKeepsOwners(p: Platform, s: State, decided: int)
    requires s.control.Awaiting? && CanVisit(s, s.control.pass)
    requires StoreInv(s) && PassInv(s) && FutureInv(s) && MarkInv(s) && OwnerInv(s)
    ensures OwnerInv(DoDecide(p, s, decided))
  {
    match Choose(s.objs[Visited(s, s.control.pass)], decided)
    case Leave => QuietKeepsOwners(s, DoLeave(s, decided));
    case Remove => RemoveKeepsOwners(s, decided);
    case Launch => LaunchKeepsOwners(p, s, decided);
  }

  lemma ReportKeepsOwners(p: Platform, s: State, report: Option<JobState>, seen: int, decided: int)
    requires CanReport(s, report, seen, decided)
    requires StoreInv(s) && PassInv(s) && FutureInv(s) && MarkInv(s) && OwnerInv(s)
    ensures OwnerInv(DoReport(p, s, report, seen, decided))
  {
    if report.Some? {
      var o := Visited(s, s.control.pass);
      SeenKeepsOwners(s, o, report.value, seen);
      SeenKeepsSafe(s, o, report.value, seen);
      DecideKeepsOwners(p, Seen(s, o, report.value, seen), decided);
    } else {
      QuietKeepsOwners(s, DoLeave(s, decided));
    }
  }

  lemma SeenKeepsSafe(s: State, o: nat, report: JobState, at: int)
    requires StoreInv(s) && PassInv(s) && FutureInv(s) && MarkInv(s) && o < |s.objs|
    ensures var s' := Seen(s, o, report, at); StoreInv(s') && PassInv(s') && FutureInv(s') && MarkInv(s')
  {
    SeenKeepsMarks(s, o, report, at);
    SeenKeepsPass(s, o, report, at);
    StoreInvFrame(s, Seen(s, o, report, at));
    FutureInvFrame(s, Seen(s, o, report, at));
  }

  lemma RunKeepsOwners(s: State, r: nat, reply: Reply)
    requires CanRun(s, r, reply) && OwnerInv(s)
    ensures OwnerInv(DoRun(s, r, reply))
  {}

  lemma AddKeepsOwners(p: Platform, s: State)
    requires CanAdd(s) && OwnerInv(s)
    ensures OwnerInv(DoAdd(p, s))
  {
    var s' := DoAdd(p, s);
    forall id | id in s'.futures && s.futures[id] < |s.routines|
      ensures Untouched(s, s', s.routines[s.futures[id]].o)
    {
      if s.routines[s.futures[id]].o in Stored(s) {
        AddKeepsStored(p, s, s.routines[s.futures[id]].o);
      }
    }
    OwnerFrame(s, s');
  }

  /** Marks and targets change, current states do not. */
  lemma QuietKeepsOwners(s: State, s': State)
    requires OwnerInv(s) && s'.routines == s.routines && s'.futures == s.futures && Stored(s') == Stored(s) && |s'.objs| == |s.objs|
    requires forall o :: 0 <= o < |s.objs| ==> s'.objs[o].current == s.objs[o].current && (s.objs[o].marked ==> s'.objs[o].marked)
    ensures OwnerInv(s')
  {}

  lemma OwnersKept(p: Platform, s: State, step: Step)
    requires Enabled(s, step) && StoreInv(s) && PassInv(s) && FutureInv(s) && MarkInv(s) && OwnerInv(s)
    ensures OwnerInv(Apply(p, s, step))
  {
    match step
    case AddJob => AddKeepsOwners(p, s);
    case PollFuture => PollKeepsOwners(s);
    case TakeReport(report, seen, decided) => ReportKeepsOwners(p, s, report, seen, decided);
    case RunRoutine(r, reply) => RunKeepsOwners(s, r, reply);
    case MarkJob => MarkKeepsOwners(s);
    case EvaluateJob => EvaluateKeepsOwners(s);
    case _ => ControlKeepsOwners(s, Apply(p, s, step));
  }

  lemma MarkKeepsOwners(s: State)
    requires CanMark(s) && OwnerInv(s)
    ensures OwnerInv(DoMark(s))
  {
    QuietKeepsOwners(s, DoMark(s));
  }

  lemma EvaluateKeepsOwners(s: State)
    requires CanEvaluate(s) && OwnerInv(s)
    ensures OwnerInv(DoEvaluate(s))
  {
    QuietKeepsOwners(s, DoEvaluate(s));
  }

  lemma ControlKeepsOwners(s: State, s': State)
    requires OwnerInv(s) && s'.objs == s.objs && s'.backing == s.backing && s'.len == s.len
    requires s'.futures == s.futures && s'.routines == s.routines
    ensures OwnerInv(s')
  {
    assert Stored(s') == Stored(s);
  }

  // ----- the ranking -----

  /** A marked job in the store that is not Inactive. */
  ghost predicate Doomed(s: State, o: nat) {
    && o < |s.objs| && o in Stored(s) && s.objs[o].marked && !s.objs[o].current.Inactive?
  }

  /** The goroutine is on its way to stop and remove the pod, or has removed it. */
  ghost predicate Clearing(s: State, ro: Routine) {
    && ro.o < |s.objs| && s.objs[ro.o].marked
    && match ro.pc
       case Start => !s.objs[ro.o].current.Exited?
       case CheckRun => true
       case CheckStop => true
       case InStop => true
       case InRemove => true
       case InGetState => ro.id !in s.pods
       case Sending(_) => ro.id !in s.pods
       case Closing => ro.id !in s.pods
       case Finished => ro.id !in s.pods
       case _ => false
  }

  /** How many visits a doomed job has still to wait for, at most. */
  ghost function Rank(s: State, o: nat): (n: nat)
    ensures n <= 4
  {
    if o >= |s.objs| || o !in Stored(s) then 0
    else
      var id := s.objs[o].w.id;
      if id !in s.futures then (if id in s.pods then 3 else 1)
      else if s.futures[id] < |s.routines| && Clearing(s, s.routines[s.futures[id]]) then 2
      else 4
  }

  /** Stop and Remove succeed for the job's ID, and a report on it tells whether the pod exists. */
  ghost predicate Benign(s: State, step: Step, o: nat)
    requires o < |s.objs|
  {
    match step
    case RunRoutine(r, reply) =>
      r < |s.routines| && s.routines[r].id == s.objs[o].w.id && (s.routines[r].pc.InStop? || s.routines[r].pc.InRemove?) ==>
        reply.Done?
    case TakeReport(report, _, _) =>
      s.control.Awaiting? && CanVisit(s, s.control.pass) && Visited(s, s.control.pass) == o && report.Some? ==>
        report.value == if s.objs[o].w.id in s.pods then Running else Unknown
    case _ => true
  }

  /** A visit of the job that finds a resolved future, or learns its state. */
  ghost predicate Counts(s: State, step: Step, o: nat)
    requires Enabled(s, step)
  {
    || (step.PollFuture? && Visited(s, s.control.pass) == o && !Live(s.routines[s.futures[VisitedId(s, s.control.pass)]]))
    || (step.TakeReport? && Visited(s, s.control.pass) == o && step.report.Some?)
  }

  ghost predicate SafeInv(s: State) {
    StoreInv(s) && PassInv(s) && FutureInv(s) && MarkInv(s) && OwnerInv(s)
  }

  /** The goroutine registered for the ID, and its object, are as before. */
  ghost predicate SameRoutine(s: State, s': State, id: string)
    requires id in s.futures
  {
    && id in s'.futures && s'.futures[id] == s.futures[id]
    && s.futures[id] < |s.routines| && s.futures[id] < |s'.routines|
    && s'.routines[s.futures[id]] == s.routines[s.futures[id]]
    && Untouched(s, s', s.routines[s.futures[id]].o)
  }

  /** Nothing happens to the job, its pod or its goroutine except that marks may be added. */
  lemma RankFrame(s: State, s': State, o: nat)
    requires SafeInv(s) && Doomed(s, o) && Untouched(s, s', o) && s'.objs[o].w == s.objs[o].w
    requires var id := s.objs[o].w.id;
             && (id in s'.pods <==> id in s.pods)
             && (id in s'.futures <==> id in s.futures)
             && (id in s.futures ==> SameRoutine(s, s', id))
    ensures Doomed(s', o) && Rank(s', o) <= Rank(s, o)
  {
    var id := s.objs[o].w.id;
    if id in s.futures {
      var ro := s.routines[s.futures[id]];
      assert RoutineOk(s.objs, ro);
      assert Clearing(s, ro) ==> Clearing(s', ro);
    }
  }

  lemma PollRanks(s: State, o: nat)
    requires CanPoll(s) && SafeInv(s) && Doomed(s, o)
    ensures var s' := DoPoll(s);
            && Doomed(s', o) && Rank(s', o) <= Rank(s, o)
            && (Counts(s, PollFuture, o) ==> Rank(s', o) < Rank(s, o))
  {
    var v, id := Visited(s, s.control.pass), VisitedId(s, s.control.pass);
    if v != o {
      PollOtherRanks(s, o);
    } else if Live(s.routines[s.futures[id]]) {
      RankFrame(s, DoPoll(s), o);
    } else {
      ResolvedRanks(s, o);
    }
  }

  /** A visit of another job: only that job and its future may change. */
  lemma OtherVisitRanks(s: State, s': State, o: nat, v: nat)
    requires SafeInv(s) && Doomed(s, o) && v < |s.objs| && s.objs[v].w.id != s.objs[o].w.id
    requires s'.pods == s.pods && |s.routines| <= |s'.routines| && |s'.objs| == |s.objs|
    requires forall r :: 0 <= r < |s.routines| ==> s'.routines[r] == s.routines[r]
    requires forall id :: id != s.objs[v].w.id ==>
               (id in s'.futures <==> id in s.futures) && (id in s.futures ==> s'.futures[id] == s.futures[id])
    requires forall x :: 0 <= x < |s.objs| && x != v ==> s'.objs[x] == s.objs[x] && (x in Stored(s) ==> x in Stored(s'))
    ensures Doomed(s', o) && Rank(s', o) <= Rank(s, o)
  {}

  lemma PollOtherRanks(s: State, o: nat)
    requires CanPoll(s) && SafeInv(s) && Doomed(s, o) && Visited(s, s.control.pass) != o
    ensures Doomed(DoPoll(s), o) && Rank(DoPoll(s), o) <= Rank(s, o)
  {
    if s.objs[o].w.id == VisitedId(s, s.control.pass) {
      SameIdAsVisited(s, o);
    }
    PollChangesOne(s);
    OtherVisitRanks(s, DoPoll(s), o, Visited(s, s.control.pass));
  }

  /** A poll changes at most the visited job and the future of its ID. */
  lemma PollChangesOne(s: State)
    requires CanPoll(s)
    ensures var s' := DoPoll(s);
            && s'.pods == s.pods && s'.routines == s.routines && |s'.objs| == |s.objs| && Stored(s') == Stored(s)
            && (forall id :: id != VisitedId(s, s.control.pass) ==>
                  (id in s'.futures <==> id in s.futures) && (id in s.futures ==> s'.futures[id] == s.futures[id]))
            && (forall x :: 0 <= x < |s.objs| && x != Visited(s, s.control.pass) ==> s'.objs[x] == s.objs[x])
  {}

  /** The future of the job is gone, after its goroutine has finished. */
  lemma UnregisteredRanks(s: State, s': State, o: nat)
    requires SafeInv(s) && Doomed(s, o) && s.objs[o].w.id in s.futures && !Live(s.routines[s.futures[s.objs[o].w.id]])
    requires s'.futures == s.futures - {s.objs[o].w.id} && s'.pods == s.pods && Stored(s') == Stored(s) && |s'.objs| == |s.objs|
    requires s'.objs[o].w == s.objs[o].w && s'.objs[o].marked && !s'.objs[o].current.Inactive?
    ensures Doomed(s', o) && Rank(s', o) < Rank(s, o)
  {}

  /** What a finished goroutine brings back for a doomed job is not Inactive. */
  lemma ResultNotInactive(s: State, o: nat)
    requires SafeInv(s) && Doomed(s, o) && s.objs[o].w.id in s.futures
    ensures Outcome(s.routines[s.futures[s.objs[o].w.id]]) != Some(Reached(Inactive))
  {}

  lemma ResolvedRanks(s: State, o: nat)
    requires CanPoll(s) && SafeInv(s) && Doomed(s, o) && Visited(s, s.control.pass) == o
    requires !Live(s.routines[s.futures[s.objs[o].w.id]])
    ensures Doomed(DoPoll(s), o) && Rank(DoPoll(s), o) < Rank(s, o)
  {
    ResultNotInactive(s, o);
    assert JobMarks(s.objs[o], MarkedIn(s.trace, o));
    PollResult(s, o);
    UnregisteredRanks(s, DoPoll(s), o);
  }

  lemma PollResult(s: State, o: nat)
    requires CanPoll(s) && Visited(s, s.control.pass) == o && s.objs[o].target.Exited? && !s.objs[o].current.Inactive?
    requires !Live(s.routines[s.futures[s.objs[o].w.id]])
    requires Outcome(s.routines[s.futures[s.objs[o].w.id]]) != Some(Reached(Inactive))
    ensures var s' := DoPoll(s);
            && s'.futures == s.futures - {s.objs[o].w.id} && s'.pods == s.pods && Stored(s') == Stored(s) && |s'.objs| == |s.objs|
            && s'.objs[o].w == s.objs[o].w && s'.objs[o].marked == s.objs[o].marked && !s'.objs[o].current.Inactive?
  {}

  lemma ReportRanks(p: Platform, s: State, report: Option<JobState>, seen: int, decided: int, o: nat)
    requires CanReport(s, report, seen, decided) && SafeInv(s) && Doomed(s, o)
    requires Benign(s, TakeReport(report, seen, decided), o)
    ensures var s' := DoReport(p, s, report, seen, decided);
            && (o in Stored(s') ==> Doomed(s', o)) && Rank(s', o) <= Rank(s, o)
            && (Visited(s, s.control.pass) == o && report.Some? ==> Rank(s', o) < Rank(s, o))
  {
    if report.None? {
      LeaveRanks(s, decided, o);
    } else if Visited(s, s.control.pass) == o {
      assert JobMarks(s.objs[o], MarkedIn(s.trace, o));
      if s.objs[o].w.id in s.pods {
        ReportRelaunches(p, s, seen, decided, o);
      } else {
        ReportStored(p, s, report, seen, decided, o);
        RemovesIff(s.objs[o], report, seen, decided);
      }
    } else {
      ReportOtherRanks(p, s, report, seen, decided, o);
    }
  }

  /** A failed query changes nothing. */
  lemma LeaveRanks(s: State, decided: int, o: nat)
    requires s.control.Awaiting? && CanVisit(s, s.control.pass) && SafeInv(s) && Doomed(s, o)
    ensures Doomed(DoLeave(s, decided), o) && Rank(DoLeave(s, decided), o) <= Rank(s, o)
  {
    SameRank(s, DoLeave(s, decided), o);
  }

  lemma ReportRelaunches(p: Platform, s: State, seen: int, decided: int, o: nat)
    requires CanReport(s, Some(Running), seen, decided) && SafeInv(s) && Visited(s, s.control.pass) == o
    requires o in Stored(s) && s.objs[o].marked && s.objs[o].target.Exited? && s.objs[o].w.id in s.pods
    ensures var s' := DoReport(p, s, Some(Running), seen, decided); Doomed(s', o) && Rank(s', o) == 2 && Rank(s, o) == 3
  {
    var s1 := Seen(s, o, Running, seen);
    RunningIsStopped(s.objs[o], seen, decided);
    assert s1.objs[o] == Observe(s.objs[o], Running, seen) && Stored(s1) == Stored(s);
    StopIsLaunched(p, s1, decided, o);
    assert DoReport(p, s, Some(Running), seen, decided) == DoLaunch(p, s1, decided);
    IdleRank(s, o);
  }

  lemma IdleRank(s: State, o: nat)
    requires FutureInv(s) && s.control.Awaiting? && CanVisit(s, s.control.pass) && Visited(s, s.control.pass) == o
    requires o in Stored(s) && s.objs[o].w.id in s.pods
    ensures Rank(s, o) == 3
  {
    assert s.objs[o].w.id !in s.futures;
  }

  lemma RunningIsStopped(j: JobView, seen: int, decided: int)
    requires j.target.Exited?
    ensures Observe(j, Running, seen).current.Running? && Choose(Observe(j, Running, seen), decided).Launch?
  {}

  lemma StopIsLaunched(p: Platform, s: State, decided: int, o: nat)
    requires s.control.Awaiting? && CanVisit(s, s.control.pass) && Visited(s, s.control.pass) == o && Doomed(s, o)
    requires s.objs[o].current.Running?
    ensures var s' := DoLaunch(p, s, decided); Doomed(s', o) && Rank(s', o) == 2
  {}

  lemma ReportOtherRanks(p: Platform, s: State, report: Option<JobState>, seen: int, decided: int, o: nat)
    requires CanReport(s, report, seen, decided) && SafeInv(s) && Doomed(s, o) && Visited(s, s.control.pass) != o
    ensures var s' := DoReport(p, s, report, seen, decided); Doomed(s', o) && Rank(s', o) <= Rank(s, o)
  {
    var v := Visited(s, s.control.pass);
    if s.objs[o].w.id == VisitedId(s, s.control.pass) {
      SameIdAsVisited(s, o);
    }
    ReportFutures(p, s, report, seen, decided);
    ReportFrame(p, s, report, seen, decided);
    forall x | 0 <= x < |s.objs| && x != v
      ensures x in Stored(s) ==> x in Stored(DoReport(p, s, report, seen, decided))
    {
      ReportStored(p, s, report, seen, decided, x);
    }
    OtherVisitRanks(s, DoReport(p, s, report, seen, decided), o, v);
  }

  lemma RunRanks(s: State, r: nat, reply: Reply, o: nat)
    requires CanRun(s, r, reply) && SafeInv(s) && Doomed(s, o) && Benign(s, RunRoutine(r, reply), o)
    ensures var s' := DoRun(s, r, reply); Doomed(s', o) && Rank(s', o) <= Rank(s, o)
  {
    var s' := DoRun(s, r, reply);
    var id := s.objs[o].w.id;
    assert Stored(s') == Stored(s);
    if s.routines[r].id == id {
      assert s.futures[id] == r;
      assert RoutineOk(s.objs, s.routines[r]);
      if Clearing(s, s.routines[r]) {
        ClearingGoesOn(s, r, reply, o);
      }
    } else {
      RankFrame(s, s', o);
    }
  }

  lemma ClearingGoesOn(s: State, r: nat, reply: Reply, o: nat)
    requires CanRun(s, r, reply) && SafeInv(s) && o < |s.objs| && Benign(s, RunRoutine(r, reply), o)
    requires s.routines[r].id == s.objs[o].w.id && Clearing(s, s.routines[r])
    ensures Clearing(DoRun(s, r, reply), DoRun(s, r, reply).routines[r])
  {}

  lemma ElapseRanks(s: State, to: int, pods: set<string>, o: nat)
    requires CanElapse(s, to, pods) && SafeInv(s) && Doomed(s, o)
    ensures var s' := s.(clock := to, pods := pods); Doomed(s', o) && Rank(s', o) <= Rank(s, o)
  {
    var s', id := s.(clock := to, pods := pods), s.objs[o].w.id;
    assert Stored(s') == Stored(s);
    if id in pods && id !in s.pods {
      CreatedRank(s, o);
    } else if id !in pods && id in s.pods {
      VanishedRank(s, s', o);
    } else {
      RankFrame(s, s', o);
    }
  }

  lemma CreatedRank(s: State, o: nat)
    requires FutureInv(s) && o < |s.objs| && o in Stored(s) && Creating(s, s.objs[o].w.id)
    ensures Rank(s, o) == 4
  {
    var id := s.objs[o].w.id;
    var q :| 0 <= q < |s.routines| && s.routines[q].pc.InRun? && s.routines[q].id == id;
    assert Live(s.routines[q]) && s.futures[id] == q;
  }

  lemma VanishedRank(s: State, s': State, o: nat)
    requires SafeInv(s) && Doomed(s, o) && s.objs[o].w.id !in s'.pods && Stored(s') == Stored(s)
    requires s'.objs == s.objs && s'.futures == s.futures && s'.routines == s.routines
    ensures Rank(s', o) <= Rank(s, o)
  {
    var id := s.objs[o].w.id;
    if id in s.futures {
      var ro := s.routines[s.futures[id]];
      assert RoutineOk(s.objs, ro);
      assert Clearing(s, ro) ==> Clearing(s', ro);
    }
  }

  lemma AddRanks(p: Platform, s: State, o: nat)
    requires CanAdd(s) && SafeInv(s) && Doomed(s, o)
    ensures Doomed(DoAdd(p, s), o) && Rank(DoAdd(p, s), o) <= Rank(s, o)
  {
    var s' := DoAdd(p, s);
    AddKeepsStored(p, s, o);
    var id := s.objs[o].w.id;
    if id in s.futures {
      var w := s.routines[s.futures[id]].o;
      assert RoutineOk(s.objs, s.routines[s.futures[id]]);
      if w in Stored(s) {
        AddKeepsStored(p, s, w);
      }
    }
    RankFrame(s, s', o);
  }

  lemma QuietRanks(s: State, s': State, o: nat)
    requires SafeInv(s) && Doomed(s, o) && s'.futures == s.futures && s'.routines == s.routines && s'.pods == s.pods
    requires Stored(s') == Stored(s) && |s'.objs| == |s.objs|
    requires forall x :: 0 <= x < |s.objs| ==>
               s'.objs[x].w == s.objs[x].w && s'.objs[x].current == s.objs[x].current && (s.objs[x].marked ==> s'.objs[x].marked)
    ensures Doomed(s', o) && Rank(s', o) <= Rank(s, o)
  {}

  /** Every step keeps a doomed job doomed or removes it, and does not raise its rank; a counted visit
      lowers it. */
  lemma RankStep(p: Platform, s: State, step: Step, o: nat)
    requires Enabled(s, step) && SafeInv(s) && Doomed(s, o) && Benign(s, step, o)
    ensures var s' := Apply(p, s, step);
            && (o in Stored(s') ==> Doomed(s', o))
            && Rank(s', o) <= Rank(s, o)
            && (Counts(s, step, o) ==> Rank(s', o) < Rank(s, o))
  {
    if step.PollFuture? {
      PollRanks(s, o);
    } else if step.TakeReport? {
      ReportRanks(p, s, step.report, step.seen, step.decided, o);
    } else {
      OtherStepRanks(p, s, step, o);
    }
  }

  lemma OtherStepRanks(p: Platform, s: State, step: Step, o: nat)
    requires Enabled(s, step) && SafeInv(s) && Doomed(s, o) && Benign(s, step, o) && !step.PollFuture? && !step.TakeReport?
    ensures Doomed(Apply(p, s, step), o) && Rank(Apply(p, s, step), o) <= Rank(s, o)
  {
    match step
    case AddJob => AddRanks(p, s, o);
    case RunRoutine(r, reply) => RunRanks(s, r, reply, o);
    case Elapse(to, pods) => ElapseRanks(s, to, pods, o);
    case MarkJob => MarkRanks(s, o);
    case EvaluateJob => EvaluateRanks(s, o);
    case PollFuture =>
    case TakeReport(_, _, _) =>
    case _ => SameRank(s, Apply(p, s, step), o);
  }

  lemma MarkRanks(s: State, o: nat)
    requires CanMark(s) && SafeInv(s) && Doomed(s, o)
    ensures Doomed(DoMark(s), o) && Rank(DoMark(s), o) <= Rank(s, o)
  {
    QuietRanks(s, DoMark(s), o);
  }

  lemma EvaluateRanks(s: State, o: nat)
    requires CanEvaluate(s) && SafeInv(s) && Doomed(s, o)
    ensures Doomed(DoEvaluate(s), o) && Rank(DoEvaluate(s), o) <= Rank(s, o)
  {
    QuietRanks(s, DoEvaluate(s), o);
  }

  lemma SameRank(s: State, s': State, o: nat)
    requires SafeInv(s) && Doomed(s, o) && s'.futures == s.futures && s'.routines == s.routines && s'.pods == s.pods
    requires s'.backing == s.backing && s'.len == s.len && s'.objs == s.objs
    ensures Doomed(s', o) && Rank(s', o) <= Rank(s, o)
  {
    QuietRanks(s, s', o);
  }

  lemma PositiveRank(s: State, o: nat)
    requires o < |s.objs| && o in Stored(s)
    ensures Rank(s, o) > 0
  {}
}
