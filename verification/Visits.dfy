/** One visit of the execution pass, on values: what it makes of the job, the futures and the store.  Both the
    handlers on the job objects and the step machine are proved to do this. */
module Visits {
  import opened Wrappers
  import opened Jobs
  import opened Slices
  import opened Machine
  import opened InFlight
  import opened Removal

  /** A future as the scheduler sees it. */
  datatype FutureView = FutureView(closed: bool, value: Option<SyncResult>)

  /** What the executor answers in a visit, if asked, and the clock readings on the way. */
  datatype Answer = Answer(report: Option<JobState>, polled: int, seen: int, decided: int)

  /** A visit of the job `j` with the futures `fs` ends with `j'` and `fs'`, and removes the job or not. */
  ghost predicate VisitsJob(p: Platform, j: JobView, fs: map<string, FutureView>, a: Answer,
                            j': JobView, fs': map<string, FutureView>, removed: bool) {
    if j.w.id in fs then
      Polls(j, fs, a.polled, j', fs') && !removed
    else
      match a.report
      case None => j' == j && fs' == fs && !removed
      case Some(state) => Reconciles(p, Observe(j, state, a.seen), fs, a.decided, j', fs', removed)
  }

  /** A future is left alone until it is resolved; then its state is the job's, and it goes. */
  ghost predicate Polls(j: JobView, fs: map<string, FutureView>, polled: int, j': JobView, fs': map<string, FutureView>)
    requires j.w.id in fs
  {
    var f := fs[j.w.id];
    if !f.closed then j' == j && fs' == fs
    else fs' == fs - {j.w.id} &&
         j' == if f.value.Some? && f.value.value.Reached? then Observe(j, f.value.value.state, polled) else j
  }

  /** After the report: the job `j`, whose state is known, is removed, launched or left. */
  ghost predicate Reconciles(p: Platform, j: JobView, fs: map<string, FutureView>, decided: int,
                             j': JobView, fs': map<string, FutureView>, removed: bool) {
    match Choose(j, decided)
    case Leave => j' == j && fs' == fs && !removed
    case Remove => j' == j && fs' == fs - {j.w.id} && removed
    case Launch => j' == Launched(p, j, decided) && fs' == fs[j.w.id := FutureView(false, None)] && !removed
  }

  // ----- what that means -----

  /** Exactly when a visit removes the job: it is marked, nothing is in flight, and the executor says that it has
      exited, or that it does not know of it, the latter not for a job that is Inactive. */
  lemma RemovedIff(p: Platform, j: JobView, fs: map<string, FutureView>, a: Answer,
                   j': JobView, fs': map<string, FutureView>, removed: bool)
    requires VisitsJob(p, j, fs, a, j', fs', removed)
    requires (j.marked ==> j.target.Exited?) && (a.report.Some? ==> MapperState(a.report.value))
    ensures removed <==>
              j.marked && j.w.id !in fs && (a.report == Some(Exited) || (a.report == Some(Unknown) && !j.current.Inactive?))
  {
    if j.w.id !in fs && a.report.Some? {
      var j1 := Observe(j, a.report.value, a.seen);
      RemoveIff(j1, a.decided);
      if j.marked {
        RemovesIff(j, a.report, a.seen, a.decided);
      }
    }
  }

  /** Exactly when a visit launches a goroutine for a job that has none. */
  lemma LaunchedIff(p: Platform, j: JobView, fs: map<string, FutureView>, a: Answer,
                    j': JobView, fs': map<string, FutureView>, removed: bool)
    requires VisitsJob(p, j, fs, a, j', fs', removed) && j.w.id !in fs
    ensures j.w.id in fs' <==> a.report.Some? && Choose(Observe(j, a.report.value, a.seen), a.decided).Launch?
  {}

  /** Other jobs' futures stay as they are. */
  lemma OtherFuturesStay(p: Platform, j: JobView, fs: map<string, FutureView>, a: Answer,
                         j': JobView, fs': map<string, FutureView>, removed: bool, id: string)
    requires VisitsJob(p, j, fs, a, j', fs', removed) && id != j.w.id
    ensures (id in fs' <==> id in fs) && (id in fs ==> fs'[id] == fs[id])
  {}

  // ----- the step machine -----

  /** The futures of the machine as the scheduler sees them. */
  function Futures(s: State): (fs: map<string, FutureView>) {
    map id | id in s.futures && s.futures[id] < |s.routines| ::
      FutureView(!Live(s.routines[s.futures[id]]), s.routines[s.futures[id]].value)
  }

  /** The array and length of the store are those after `Store.Delete` has found the place `at`, if the job is
      removed, and else the same. */
  ghost predicate Deletes(backing: seq<nat>, len: nat, at: nat, removed: bool, backing': seq<nat>, len': nat)
    requires len <= |backing|
  {
    if removed && at < len then backing' == ShiftDown(backing, at, len) && len' == len - 1 else backing' == backing && len' == len
  }

  /** From `s` to `s'` the object `v` is visited. */
  ghost predicate VisitedIn(p: Platform, s: State, s': State, v: nat, a: Answer, removed: bool) {
    && v < |s.objs| == |s'.objs| && s.len <= |s.backing|
    && VisitsJob(p, s.objs[v], Futures(s), a, s'.objs[v], Futures(s'), removed)
    && Deletes(s.backing, s.len, IndexOf(s.objs, Stored(s), s.objs[v].w.id), removed, s'.backing, s'.len)
  }

  /** A visit of the machine that finds a future. */
  lemma VisitIsMachinePoll(p: Platform, s: State, report: Option<JobState>, seen: int, decided: int)
    requires CanPoll(s) && s.len <= |s.backing|
    ensures VisitedIn(p, s, DoPoll(s), Visited(s, s.control.pass), Answer(report, s.clock, seen, decided), false)
  {
    var id := VisitedId(s, s.control.pass);
    if !Live(s.routines[s.futures[id]]) {
      OneFutureLess(s, DoPoll(s), id);
    } else {
      assert Futures(DoPoll(s)) == Futures(s);
    }
  }

  lemma DecideFutures(p: Platform, s: State, decided: int)
    requires s.control.Awaiting? && CanVisit(s, s.control.pass) && s.len <= |s.backing| && Registered(s.futures, s.routines)
    ensures var j, fs := s.objs[Visited(s, s.control.pass)], Futures(DoDecide(p, s, decided));
            && (Choose(j, decided).Leave? ==> fs == Futures(s))
            && (Choose(j, decided).Remove? ==> fs == Futures(s) - {j.w.id})
            && (Choose(j, decided).Launch? ==> fs == Futures(s)[j.w.id := FutureView(false, None)])
  {
    match Choose(s.objs[Visited(s, s.control.pass)], decided)
    case Leave => assert Futures(DoLeave(s, decided)) == Futures(s);
    case Remove => RemoveFutures(s, decided);
    case Launch => LaunchFutures(p, s, decided);
  }

  lemma RemoveFutures(s: State, decided: int)
    requires s.control.Awaiting? && CanVisit(s, s.control.pass) && s.len <= |s.backing|
    ensures Futures(DoRemove(s, decided)) == Futures(s) - {VisitedId(s, s.control.pass)}
  {
    OneFutureLess(s, DoRemove(s, decided), VisitedId(s, s.control.pass));
  }

  lemma OneFutureLess(s: State, s': State, id: string)
    requires s'.routines == s.routines && s'.futures == s.futures - {id}
    ensures Futures(s') == Futures(s) - {id}
  {}

  lemma OneFutureMore(s: State, s': State, id: string)
    requires Registered(s.futures, s.routines) && |s'.routines| == |s.routines| + 1 && s'.futures == s.futures[id := |s.routines|]
    requires s'.routines[|s.routines|].pc == Start && s'.routines[|s.routines|].value == None
    requires forall r :: 0 <= r < |s.routines| ==> s'.routines[r] == s.routines[r]
    ensures Futures(s') == Futures(s)[id := FutureView(false, None)]
  {}

  lemma LaunchFutures(p: Platform, s: State, decided: int)
    requires s.control.Awaiting? && CanVisit(s, s.control.pass) && Registered(s.futures, s.routines)
    ensures Futures(DoLaunch(p, s, decided)) == Futures(s)[VisitedId(s, s.control.pass) := FutureView(false, None)]
  {
    OneFutureMore(s, DoLaunch(p, s, decided), VisitedId(s, s.control.pass));
  }

  lemma DecideIsVisit(p: Platform, s: State, decided: int)
    requires s.control.Awaiting? && CanVisit(s, s.control.pass) && s.len <= |s.backing| && Registered(s.futures, s.routines)
    ensures var v, s' := Visited(s, s.control.pass), DoDecide(p, s, decided);
            var removed := Choose(s.objs[v], decided).Remove?;
            && |s'.objs| == |s.objs| && Reconciles(p, s.objs[v], Futures(s), decided, s'.objs[v], Futures(s'), removed)
            && Deletes(s.backing, s.len, IndexOf(s.objs, Stored(s), s.objs[v].w.id), removed, s'.backing, s'.len)
  {
    DecideFutures(p, s, decided);
  }

  /** A visit of the machine that asks for the state. */
  lemma VisitIsMachineReport(p: Platform, s: State, report: Option<JobState>, seen: int, decided: int)
    requires CanReport(s, report, seen, decided) && FutureInv(s)
    ensures var v := Visited(s, s.control.pass);
            VisitedIn(p, s, DoReport(p, s, report, seen, decided), v, Answer(report, s.clock, seen, decided),
                      report.Some? && Choose(Observe(s.objs[v], report.value, seen), decided).Remove?)
  {
    var v := Visited(s, s.control.pass);
    if report.Some? {
      var s1 := Seen(s, v, report.value, seen);
      assert s1.objs[v] == Observe(s.objs[v], report.value, seen);
      assert Futures(s1) == Futures(s) && Stored(s1) == Stored(s);
      SameIndex(s.objs, s1.objs, Stored(s), s.objs[v].w.id);
      DecideIsVisit(p, s1, decided);
    } else {
      assert Futures(DoLeave(s, decided)) == Futures(s);
    }
  }

  lemma {:induction false} SameIndex(objs: seq<JobView>, objs': seq<JobView>, refs: seq<nat>, id: string)
    requires |objs'| == |objs| && forall o :: 0 <= o < |objs| ==> objs'[o].w == objs[o].w
    ensures IndexOf(objs', refs, id) == IndexOf(objs, refs, id)
  {
    if refs != [] {
      SameIndex(objs, objs', refs[1..], id);
    }
  }
}
