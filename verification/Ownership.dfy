/** Whose job the result of a reconciliation is applied to: the future is looked up by ID, so it may be
    another object than the one the goroutine works on. */
module Ownership {
  import opened Wrappers
  import opened Jobs
  import opened Machine
  import opened InFlight
  import opened MarkedJobs
  import opened ExecutionPass
  import opened Configuration
  import opened Removal
  import opened Progress

  /** A job removed in this pass has at most its own goroutine in flight. */
  ghost predicate GoneOwn(s: State, gone: set<nat>) {
    forall x :: x in gone && x < |s.objs| && s.objs[x].w.id in s.futures && s.futures[s.objs[x].w.id] < |s.routines| ==>
      s.routines[s.futures[s.objs[x].w.id]].o == x
  }

  ghost predicate OwnInv(s: State) {
    && (s.control.Executing? ==> GoneOwn(s, s.control.pass.gone))
    && (s.control.Awaiting? ==> GoneOwn(s, s.control.pass.gone))
  }

  lemma GoneOwnFrame(s: State, s': State, gone: set<nat>)
    requires GoneOwn(s, gone) && |s'.objs| == |s.objs| && SameWorkloads(s.objs, s'.objs)
    requires forall id :: id in s'.futures ==> id in s.futures && s'.futures[id] == s.futures[id]
    requires |s'.routines| == |s.routines| && forall r :: 0 <= r < |s.routines| ==> s'.routines[r].o == s.routines[r].o
    ensures GoneOwn(s', gone)
  {}

  lemma PollKeepsOwn(s: State)
    requires CanPoll(s) && OwnInv(s)
    ensures OwnInv(DoPoll(s))
  {
    GoneOwnFrame(s, DoPoll(s), s.control.pass.gone);
  }

  lemma RemoveKeepsOwn(s: State, decided: int)
    requires s.control.Awaiting? && CanVisit(s, s.control.pass) && StoreInv(s) && PassInv(s) && OwnInv(s)
    ensures OwnInv(DoRemove(s, decided))
  {
    IndexIsVisited(s);
    GoneOwnFrame(s, DoRemove(s, decided), s.control.pass.gone);
  }

  lemma LaunchKeepsOwn(p: Platform, s: State, decided: int)
    requires s.control.Awaiting? && CanVisit(s, s.control.pass) && PassInv(s) && Registered(s.futures, s.routines) && OwnInv(s)
    ensures OwnInv(DoLaunch(p, s, decided))
  {
    var s', pass, v := DoLaunch(p, s, decided), s.control.pass, Visited(s, s.control.pass);
    forall x | x in pass.gone && x < |s'.objs| && s'.objs[x].w.id in s'.futures && s'.futures[s'.objs[x].w.id] < |s'.routines|
      ensures s'.routines[s'.futures[s'.objs[x].w.id]].o == x
    {
      if s.objs[x].w.id == s.objs[v].w.id {
        SameIdSameRef(s.objs, pass.start, x, v);
      }
    }
  }

  lemma ReportKeepsOwn(p: Platform, s: State, report: Option<JobState>, seen: int, decided: int)
    requires CanReport(s, report, seen, decided) && StoreInv(s) && PassInv(s) && FutureInv(s) && OwnInv(s)
    ensures OwnInv(DoReport(p, s, report, seen, decided))
  {
    if report.Some? {
      var v := Visited(s, s.control.pass);
      var s1 := Seen(s, v, report.value, seen);
      StoreInvFrame(s, s1);
      SeenKeepsPass(s, v, report.value, seen);
      GoneOwnFrame(s, s1, s.control.pass.gone);
      match Choose(s1.objs[v], decided)
      case Leave => GoneOwnFrame(s1, DoLeave(s1, decided), s1.control.pass.gone);
      case Remove => RemoveKeepsOwn(s1, decided);
      case Launch => LaunchKeepsOwn(p, s1, decided);
    } else {
      GoneOwnFrame(s, DoLeave(s, decided), s.control.pass.gone);
    }
  }

  lemma OwnKept(p: Platform, s: State, step: Step)
    requires Enabled(s, step) && StoreInv(s) && PassInv(s) && FutureInv(s) && OwnInv(s)
    ensures OwnInv(Apply(p, s, step))
  {
    match step
    case PollFuture => PollKeepsOwn(s);
    case TakeReport(report, seen, decided) => ReportKeepsOwn(p, s, report, seen, decided);
    case RunRoutine(r, reply) => RunKeepsOwn(s, r, reply);
    case _ =>
  }

  lemma RunKeepsOwn(s: State, r: nat, reply: Reply)
    requires CanRun(s, r, reply) && OwnInv(s)
    ensures OwnInv(DoRun(s, r, reply))
  {
    if s.control.Executing? || s.control.Awaiting? {
      GoneOwnFrame(s, DoRun(s, r, reply), s.control.pass.gone);
    }
  }

  /** A visited job that is not in the store was removed in this pass. */
  lemma VisitedIsGone(s: State)
    requires PassInv(s) && s.control.Executing? && CanVisit(s, s.control.pass) && s.len <= |s.backing|
    requires Visited(s, s.control.pass) !in Stored(s)
    ensures Visited(s, s.control.pass) in s.control.pass.gone
  {}

  /** The goroutine whose future a visit finds works on the visited job, unless the visited job is in the
      store and the goroutine's is not: then that one was removed, and relaunched because a second visit
      in the same pass found it running. */
  lemma PolledIsOwn(s: State)
    requires CanPoll(s) && SafeInv(s) && OwnInv(s)
    ensures var o := Visited(s, s.control.pass);
            var ro := s.routines[s.futures[VisitedId(s, s.control.pass)]];
            && ro.o < |s.objs|
            && (ro.o == o <==> ro.o in Stored(s) || o !in Stored(s))
            && (ro.o != o ==> s.objs[ro.o].marked && s.objs[ro.o].current.Running?)
  {
    var o, id := Visited(s, s.control.pass), VisitedId(s, s.control.pass);
    var ro := s.routines[s.futures[id]];
    assert OwnerOk(s, ro);
    assert RoutineOk(s.objs, ro);
    if ro.o in Stored(s) {
      SameIdAsVisited(s, ro.o);
    } else if o !in Stored(s) {
      VisitedIsGone(s);
    }
  }

  // ----- with a truthful executor -----

  /** What the executor has to say about an ID: whether its pod exists. */
  function Truth(s: State, id: string): (r: JobState) {
    if id in s.pods then Running else Unknown
  }

  /** A state report in this step agrees with the pods that exist. */
  ghost predicate TruthfulStep(s: State, step: Step) {
    match step
    case RunRoutine(r, reply) =>
      r < |s.routines| && s.routines[r].pc.InGetState? && reply.Reported? ==> reply.state == Truth(s, s.routines[r].id)
    case TakeReport(report, _, _) =>
      s.control.Awaiting? && CanVisit(s, s.control.pass) && report.Some? ==> report.value == Truth(s, VisitedId(s, s.control.pass))
    case _ => true
  }

  ghost predicate OwnersStored(s: State) {
    forall id :: id in s.futures && s.futures[id] < |s.routines| ==> s.routines[s.futures[id]].o in Stored(s)
  }

  /** The jobs removed in this pass have neither a pod nor a goroutine. */
  ghost predicate GoneClear(s: State, gone: set<nat>) {
    forall x :: x in gone && x < |s.objs| ==> s.objs[x].w.id !in s.futures && s.objs[x].w.id !in s.pods
  }

  ghost predicate ClearInv(s: State) {
    && OwnersStored(s)
    && (s.control.Executing? ==> GoneClear(s, s.control.pass.gone))
    && (s.control.Awaiting? ==> GoneClear(s, s.control.pass.gone))
  }

  /** Futures and pods only become fewer. */
  lemma ClearFrame(s: State, s': State)
    requires ClearInv(s) && Stored(s') == Stored(s) && |s'.objs| == |s.objs| && SameWorkloads(s.objs, s'.objs)
    requires forall id :: id in s'.futures ==> id in s.futures && s'.futures[id] == s.futures[id]
    requires |s'.routines| == |s.routines| && forall r :: 0 <= r < |s.routines| ==> s'.routines[r].o == s.routines[r].o
    requires forall id :: id in s'.pods ==> id in s.pods || id in s.futures
    requires s'.futures == s.futures || s'.pods == s.pods
    requires s'.control.Executing? || s'.control.Awaiting? ==>
               (s.control.Executing? || s.control.Awaiting?) && s'.control.pass.gone == s.control.pass.gone
    ensures ClearInv(s')
  {}

  lemma AddKeepsClear(p: Platform, s: State)
    requires CanAdd(s) && ClearInv(s)
    ensures ClearInv(DoAdd(p, s))
  {
    forall id | id in s.futures && s.futures[id] < |s.routines|
      ensures s.routines[s.futures[id]].o in Stored(DoAdd(p, s))
    {
      AddKeepsStored(p, s, s.routines[s.futures[id]].o);
    }
  }

  lemma RunKeepsClear(s: State, r: nat, reply: Reply)
    requires CanRun(s, r, reply) && FutureInv(s) && ClearInv(s)
    ensures ClearInv(DoRun(s, r, reply))
  {
    ClearFrame(s, DoRun(s, r, reply));
  }

  lemma ElapseKeepsClear(s: State, to: int, pods: set<string>)
    requires CanElapse(s, to, pods) && FutureInv(s) && ClearInv(s)
    ensures ClearInv(s.(clock := to, pods := pods))
  {
    forall id | id in pods && id !in s.pods
      ensures id in s.futures
    {
      assert Creating(s, id);
    }
    ClearFrame(s, s.(clock := to, pods := pods));
  }

  lemma PollKeepsClear(s: State)
    requires CanPoll(s) && ClearInv(s)
    ensures ClearInv(DoPoll(s))
  {
    PollChangesOne(s);
    ClearFrame(s, DoPoll(s));
  }

  lemma MarkKeepsClear(s: State)
    requires CanMark(s) && ClearInv(s)
    ensures ClearInv(DoMark(s))
  {
    ClearFrame(s, DoMark(s));
  }

  lemma EvaluateKeepsClear(s: State)
    requires CanEvaluate(s) && ClearInv(s)
    ensures ClearInv(DoEvaluate(s))
  {
    ClearFrame(s, DoEvaluate(s));
  }

  lemma RemoveKeepsClear(s: State, decided: int)
    requires s.control.Awaiting? && CanVisit(s, s.control.pass) && StoreInv(s) && PassInv(s) && FutureInv(s) && ClearInv(s)
    requires VisitedId(s, s.control.pass) !in s.pods
    ensures ClearInv(DoRemove(s, decided))
  {
    RemoveKeepsOwnersStored(s, decided);
    IndexIsVisited(s);
    RemoveKeepsGoneClear(s, decided);
  }

  lemma RemoveKeepsOwnersStored(s: State, decided: int)
    requires s.control.Awaiting? && CanVisit(s, s.control.pass) && StoreInv(s) && PassInv(s) && FutureInv(s) && OwnersStored(s)
    ensures OwnersStored(DoRemove(s, decided))
  {
    var s', v := DoRemove(s, decided), Visited(s, s.control.pass);
    assert s'.routines == s.routines;
    forall id | id in s'.futures && s'.futures[id] < |s'.routines|
      ensures s'.routines[s'.futures[id]].o in Stored(s')
    {
      OtherOwner(s, id, v);
      RemovedFromStore(s, decided, s.routines[s.futures[id]].o);
    }
  }

  lemma RemoveKeepsGoneClear(s: State, decided: int)
    requires s.control.Awaiting? && CanVisit(s, s.control.pass) && s.len <= |s.backing| && GoneClear(s, s.control.pass.gone)
    requires VisitedId(s, s.control.pass) !in s.pods
    requires var at := IndexOf(s.objs, Stored(s), VisitedId(s, s.control.pass));
             at < s.len ==> s.backing[at] == Visited(s, s.control.pass)
    ensures DoRemove(s, decided).control.Executing? && GoneClear(DoRemove(s, decided), DoRemove(s, decided).control.pass.gone)
  {}

  lemma LaunchKeepsClear(p: Platform, s: State, decided: int)
    requires s.control.Awaiting? && CanVisit(s, s.control.pass) && PassInv(s) && Registered(s.futures, s.routines) && ClearInv(s)
    requires Visited(s, s.control.pass) in Stored(s)
    ensures ClearInv(DoLaunch(p, s, decided))
  {
    var s', pass, v := DoLaunch(p, s, decided), s.control.pass, Visited(s, s.control.pass);
    assert Stored(s') == Stored(s);
    forall x | x in pass.gone && x < |s'.objs|
      ensures s'.objs[x].w.id !in s'.futures && s'.objs[x].w.id !in s'.pods
    {
      if s.objs[x].w.id == s.objs[v].w.id {
        SameIdSameRef(s.objs, pass.start, x, v);
      }
    }
  }

  /** A job removed in this pass is not launched again: it has no pod, so it is not found running. */
  lemma GoneIsNotLaunched(s: State, seen: int, decided: int)
    requires s.control.Awaiting? && CanVisit(s, s.control.pass) && StoreInv(s) && PassInv(s) && MarkInv(s) && ClearInv(s)
    requires Visited(s, s.control.pass) !in Stored(s)
    ensures var v := Visited(s, s.control.pass);
            v in s.control.pass.gone && !Choose(Observe(s.objs[v], Truth(s, s.objs[v].w.id), seen), decided).Launch?
  {
    var v := Visited(s, s.control.pass);
    assert v in s.control.pass.gone;
    assert JobMarks(s.objs[v], MarkedIn(s.trace, v));
  }

  lemma ReportKeepsClear(p: Platform, s: State, report: Option<JobState>, seen: int, decided: int)
    requires CanReport(s, report, seen, decided) && StoreInv(s) && PassInv(s) && FutureInv(s) && MarkInv(s) && ClearInv(s)
    requires TruthfulStep(s, TakeReport(report, seen, decided))
    ensures ClearInv(DoReport(p, s, report, seen, decided))
  {
    if report.Some? {
      var v := Visited(s, s.control.pass);
      var s1 := Seen(s, v, report.value, seen);
      SeenKeepsSafe(s, v, report.value, seen);
      ClearFrame(s, s1);
      match Choose(s1.objs[v], decided)
      case Leave => ClearFrame(s1, DoLeave(s1, decided));
      case Remove => RemoveKeepsClear(s1, decided);
      case Launch =>
        if v !in Stored(s) {
          GoneIsNotLaunched(s, seen, decided);
        }
        LaunchKeepsClear(p, s1, decided);
    } else {
      ClearFrame(s, DoLeave(s, decided));
    }
  }

  lemma ClearKept(p: Platform, s: State, step: Step)
    requires Enabled(s, step) && StoreInv(s) && PassInv(s) && FutureInv(s) && MarkInv(s) && ClearInv(s) && TruthfulStep(s, step)
    ensures ClearInv(Apply(p, s, step))
  {
    match step
    case AddJob => AddKeepsClear(p, s);
    case PollFuture => PollKeepsClear(s);
    case TakeReport(report, seen, decided) => ReportKeepsClear(p, s, report, seen, decided);
    case RunRoutine(r, reply) => RunKeepsClear(s, r, reply);
    case Elapse(to, pods) => ElapseKeepsClear(s, to, pods);
    case MarkJob => MarkKeepsClear(s);
    case EvaluateJob => EvaluateKeepsClear(s);
    case _ => ControlKeepsClear(s, Apply(p, s, step));
  }

  /** The scheduler turns to something else. */
  lemma ControlKeepsClear(s: State, s': State)
    requires ClearInv(s) && s'.objs == s.objs && s'.backing == s.backing && s'.len == s.len
    requires s'.futures == s.futures && s'.routines == s.routines && s'.pods == s.pods
    requires s'.control.Executing? || s'.control.Awaiting? ==>
               s'.control.pass.gone == {} || (s.control.Executing? && s'.control.pass == s.control.pass)
    ensures ClearInv(s')
  {
    assert Stored(s') == Stored(s);
  }

  lemma ClearIsOwn(s: State)
    requires CanPoll(s) && SafeInv(s) && ClearInv(s)
    ensures s.routines[s.futures[VisitedId(s, s.control.pass)]].o == Visited(s, s.control.pass)
  {
    var ro := s.routines[s.futures[VisitedId(s, s.control.pass)]];
    assert RoutineOk(s.objs, ro);
    SameIdAsVisited(s, ro.o);
  }
}
