/** What every step keeps about the store, the futures and the goroutines in flight. */
module InFlight {
  import opened Wrappers
  import opened Jobs
  import opened Slices
  import opened Machine

  // ----- the store -----

  ghost predicate ValidRefs(objs: seq<JobView>, refs: seq<nat>) {
    forall k :: 0 <= k < |refs| ==> refs[k] < |objs|
  }

  ghost predicate DistinctIds(objs: seq<JobView>, refs: seq<nat>)
    requires ValidRefs(objs, refs)
  {
    forall i, j :: 0 <= i < j < |refs| ==> objs[refs[i]].w.id != objs[refs[j]].w.id
  }

  /** The backing array holds job objects, and the IDs of those in the store are distinct. */
  ghost predicate StoreOk(objs: seq<JobView>, backing: seq<nat>, len: nat) {
    len <= |backing| && ValidRefs(objs, backing) && DistinctIds(objs, backing[..len])
  }

  /** The workloads still to be added are new, and the jobs still to be marked exist. */
  ghost predicate ControlOk(s: State) {
    match s.control
    case Adding(toAdd, stale) =>
      && (forall i :: 0 <= i < |toAdd| ==> !HasId(s, toAdd[i].id))
      && (forall i, j :: 0 <= i < j < |toAdd| ==> toAdd[i].id != toAdd[j].id)
      && (forall k :: 0 <= k < |stale| ==> stale[k] in Stored(s))
    case Marking(todo) => forall k :: 0 <= k < |todo| ==> todo[k] in Stored(s)
    case _ => true
  }

  ghost predicate StoreInv(s: State) {
    StoreOk(s.objs, s.backing, s.len) && ControlOk(s)
  }

  /** Objects are only ever added, and keep their workload. */
  ghost predicate SameWorkloads(objs: seq<JobView>, objs': seq<JobView>) {
    |objs| <= |objs'| && forall o :: 0 <= o < |objs| ==> objs'[o].w == objs[o].w
  }

  lemma StoreOkKept(objs: seq<JobView>, objs': seq<JobView>, backing: seq<nat>, len: nat)
    requires StoreOk(objs, backing, len) && SameWorkloads(objs, objs')
    ensures StoreOk(objs', backing, len)
  {}

  lemma StoreOkShift(objs: seq<JobView>, backing: seq<nat>, len: nat, at: nat)
    requires StoreOk(objs, backing, len) && at < len
    ensures StoreOk(objs, ShiftDown(backing, at, len), len - 1)
    ensures ShiftDown(backing, at, len)[..len - 1] == backing[..at] + backing[at + 1..len]
  {}

  lemma AddKeepsStore(p: Platform, s: State)
    requires CanAdd(s) && StoreInv(s)
    ensures StoreInv(DoAdd(p, s))
  {
    var s' := DoAdd(p, s);
    var w := s.control.toAdd[0];
    assert !HasId(s, w.id);
    if CreateJob(p, w, s.clock).Some? {
      var refs := Stored(s');
      assert refs == Stored(s) + [|s.objs|];
      forall i, j | 0 <= i < j < |refs|
        ensures s'.objs[refs[i]].w.id != s'.objs[refs[j]].w.id
      {
        assert refs[i] == Stored(s)[i] && s'.objs[refs[i]] == s.objs[Stored(s)[i]];
        if j < |Stored(s)| {
          assert refs[j] == Stored(s)[j];
        }
      }
    }
    forall i | 0 <= i < |s'.control.toAdd|
      ensures !HasId(s', s'.control.toAdd[i].id)
    {
      assert s'.control.toAdd[i] == s.control.toAdd[i + 1];
      assert !HasId(s, s.control.toAdd[i + 1].id);
      assert w.id != s.control.toAdd[i + 1].id;
      AddedId(p, s, s'.control.toAdd[i].id);
    }
  }

  lemma AddedId(p: Platform, s: State, id: string)
    requires CanAdd(s) && StoreInv(s) && !HasId(s, id) && s.control.toAdd[0].id != id
    ensures !HasId(DoAdd(p, s), id)
  {
    var s' := DoAdd(p, s);
    forall k | 0 <= k < |Stored(s')| && Stored(s')[k] < |s'.objs|
      ensures s'.objs[Stored(s')[k]].w.id != id
    {
      if k < |Stored(s)| {
        assert Stored(s')[k] == Stored(s)[k];
        assert s'.objs[Stored(s)[k]] == s.objs[Stored(s)[k]];
      } else {
        assert Stored(s')[k] == |s.objs|;
      }
    }
  }

  /** Steps that leave the store and the work list alone, and only update objects. */
  lemma StoreInvFrame(s: State, s': State)
    requires StoreInv(s) && SameWorkloads(s.objs, s'.objs) && s'.backing == s.backing && s'.len == s.len
    requires s'.control == s.control || (!s'.control.Adding? && !s'.control.Marking?)
    ensures StoreInv(s')
  {
    StoreOkKept(s.objs, s'.objs, s.backing, s.len);
    if s'.control.Adding? {
      forall i | 0 <= i < |s'.control.toAdd|
        ensures !HasId(s', s'.control.toAdd[i].id)
      {
        assert !HasId(s, s.control.toAdd[i].id);
        NoNewId(s, s', s.control.toAdd[i].id);
      }
    }
  }

  lemma NoNewId(s: State, s': State, id: string)
    requires StoreInv(s) && SameWorkloads(s.objs, s'.objs) && Stored(s') == Stored(s) && !HasId(s, id)
    ensures !HasId(s', id)
  {}

  lemma ConfigKeepsStore(s: State, wanted: seq<Workload>, toAdd: seq<Workload>, stale: seq<nat>, s': State)
    requires StoreInv(s) && ListsFresh(s, wanted, toAdd) && ListsStale(s, wanted, stale)
    requires s'.objs == s.objs && s'.backing == s.backing && s'.len == s.len && s'.control == Adding(toAdd, stale)
    ensures StoreInv(s')
  {
    forall i | 0 <= i < |toAdd|
      ensures !HasId(s', toAdd[i].id)
    {
      NoNewId(s, s', toAdd[i].id);
    }
    forall k | 0 <= k < |stale|
      ensures stale[k] in Stored(s')
    {
      var o: nat := stale[k];
      assert o in stale;
    }
  }

  lemma RemoveKeepsStore(s: State, decided: int)
    requires s.control.Awaiting? && CanVisit(s, s.control.pass) && StoreInv(s)
    ensures StoreInv(DoRemove(s, decided))
  {
    var at := IndexOf(s.objs, Stored(s), VisitedId(s, s.control.pass));
    if at < s.len {
      StoreOkShift(s.objs, s.backing, s.len, at);
    }
  }

  lemma ReportKeepsStore(p: Platform, s: State, report: Option<JobState>, seen: int, decided: int)
    requires CanReport(s, report, seen, decided) && StoreInv(s)
    ensures StoreInv(DoReport(p, s, report, seen, decided))
  {
    if report.Some? {
      var o := Visited(s, s.control.pass);
      var s1 := Seen(s, o, report.value, seen);
      StoreInvFrame(s, s1);
      match Choose(s1.objs[o], decided)
      case Leave => StoreInvFrame(s1, DoLeave(s1, decided));
      case Remove => RemoveKeepsStore(s1, decided);
      case Launch => StoreInvFrame(s1, DoLaunch(p, s1, decided));
    } else {
      StoreInvFrame(s, DoLeave(s, decided));
    }
  }

  lemma MarkKeepsStore(s: State)
    requires CanMark(s) && StoreInv(s)
    ensures StoreInv(DoMark(s))
  {}

  lemma StoreKept(p: Platform, s: State, step: Step)
    requires Enabled(s, step) && StoreInv(s)
    ensures StoreInv(Apply(p, s, step))
  {
    match step
    case ReceiveNone =>
    case ReceiveConfig(wanted, toAdd, stale) => ConfigKeepsStore(s, wanted, toAdd, stale, Apply(p, s, step));
    case AddJob => AddKeepsStore(p, s);
    case Signal =>
    case MarkJob => MarkKeepsStore(s);
    case TakeReport(report, seen, decided) => ReportKeepsStore(p, s, report, seen, decided);
    case EvaluateJob => EvaluateKeepsStore(s);
    case PollFuture => PollKeepsStore(s);
    case _ => ControlKeepsStore(s, Apply(p, s, step));
  }

  lemma EvaluateKeepsStore(s: State)
    requires CanEvaluate(s) && StoreInv(s)
    ensures StoreInv(DoEvaluate(s))
  {
    StoreInvFrame(s, DoEvaluate(s));
  }

  lemma PollKeepsStore(s: State)
    requires CanPoll(s) && StoreInv(s)
    ensures StoreInv(DoPoll(s))
  {
    StoreInvFrame(s, DoPoll(s));
  }

  lemma ControlKeepsStore(s: State, s': State)
    requires StoreInv(s) && s'.objs == s.objs && s'.backing == s.backing && s'.len == s.len
    requires s'.control == s.control || (!s'.control.Adding? && !s'.control.Marking?)
    ensures StoreInv(s')
  {
    StoreInvFrame(s, s');
  }

  // ----- what a report leaves alone -----

  /** Of the objects a visit changes at most the visited one, and that neither in its workload nor in its
      target and mark; it leaves the pods and the goroutines in flight alone. */
  ghost predicate Framed(s: State, s': State, v: nat) {
    && |s'.objs| == |s.objs| && s'.pods == s.pods && |s.routines| <= |s'.routines|
    && (forall x :: 0 <= x < |s.objs| && x != v ==> s'.objs[x] == s.objs[x])
    && (forall x :: 0 <= x < |s.objs| ==>
          s'.objs[x].w == s.objs[x].w && s'.objs[x].target == s.objs[x].target && s'.objs[x].marked == s.objs[x].marked)
    && (forall r :: 0 <= r < |s.routines| ==> s'.routines[r] == s.routines[r])
  }

  lemma SeenFrame(s: State, o: nat, report: JobState, at: int)
    requires o < |s.objs|
    ensures Framed(s, Seen(s, o, report, at), o)
  {}

  lemma DecideFrame(p: Platform, s: State, decided: int)
    requires s.control.Awaiting? && CanVisit(s, s.control.pass) && s.len <= |s.backing|
    ensures Framed(s, DoDecide(p, s, decided), Visited(s, s.control.pass))
  {}

  lemma ReportFrame(p: Platform, s: State, report: Option<JobState>, seen: int, decided: int)
    requires CanReport(s, report, seen, decided)
    ensures Framed(s, DoReport(p, s, report, seen, decided), Visited(s, s.control.pass))
  {
    if report.Some? {
      SeenFrame(s, Visited(s, s.control.pass), report.value, seen);
      DecideFrame(p, Seen(s, Visited(s, s.control.pass), report.value, seen), decided);
    }
  }

  // ----- futures and goroutines -----

  /** Every future belongs to a goroutine of its ID, and every live goroutine has its future. */
  ghost predicate Registered(futures: map<string, nat>, routines: seq<Routine>) {
    && (forall id :: id in futures ==> futures[id] < |routines| && routines[futures[id]].id == id)
    && (forall r :: 0 <= r < |routines| && Live(routines[r]) ==>
          routines[r].id in futures && futures[routines[r].id] == r)
  }

  /** A goroutine works on an object with its ID and kind; once it has sent, the future has the value. */
  ghost predicate RoutineOk(objs: seq<JobView>, ro: Routine) {
    && ro.o < |objs| && objs[ro.o].w.id == ro.id && objs[ro.o].w.kind == ro.kind
    && (ro.pc.Closing? || ro.pc.Finished? ==> ro.value.Some?)
  }

  ghost predicate RoutinesOk(objs: seq<JobView>, routines: seq<Routine>) {
    forall r :: 0 <= r < |routines| ==> RoutineOk(objs, routines[r])
  }

  /** The scheduler asks for the state of a job only when it has no future. */
  ghost predicate QueryOk(s: State) {
    s.control.Awaiting? && CanVisit(s, s.control.pass) ==> VisitedId(s, s.control.pass) !in s.futures
  }

  ghost predicate FutureInv(s: State) {
    Registered(s.futures, s.routines) && RoutinesOk(s.objs, s.routines) && QueryOk(s)
  }

  lemma FutureInvFrame(s: State, s': State)
    requires FutureInv(s) && SameWorkloads(s.objs, s'.objs) && s'.futures == s.futures && s'.routines == s.routines
    requires !s'.control.Awaiting? || (s'.control == s.control && s'.backing == s.backing && |s'.objs| == |s.objs|)
    ensures FutureInv(s')
  {}

  /** A finished goroutine can lose its future. */
  lemma Unregister(futures: map<string, nat>, routines: seq<Routine>, id: string)
    requires Registered(futures, routines)
    requires id in futures ==> !Live(routines[futures[id]])
    ensures Registered(futures - {id}, routines)
  {}

  lemma PollKeepsFutures(s: State)
    requires CanPoll(s) && FutureInv(s)
    ensures FutureInv(DoPoll(s))
  {
    var id, s' := VisitedId(s, s.control.pass), DoPoll(s);
    if Live(s.routines[s.futures[id]]) {
      FutureInvFrame(s, s');
    } else {
      Unregister(s.futures, s.routines, id);
      assert SameWorkloads(s.objs, s'.objs);
      FutureInvFrame(s.(futures := s'.futures, control := s'.control), s');
    }
  }

  lemma LaunchKeepsFutures(p: Platform, s: State, decided: int)
    requires s.control.Awaiting? && CanVisit(s, s.control.pass) && FutureInv(s)
    ensures FutureInv(DoLaunch(p, s, decided))
  {}

  lemma RemoveKeepsFutures(s: State, decided: int)
    requires s.control.Awaiting? && CanVisit(s, s.control.pass) && s.len <= |s.backing| && FutureInv(s)
    ensures FutureInv(DoRemove(s, decided))
  {}

  lemma ReportKeepsFutures(p: Platform, s: State, report: Option<JobState>, seen: int, decided: int)
    requires CanReport(s, report, seen, decided) && FutureInv(s)
    ensures FutureInv(DoReport(p, s, report, seen, decided))
  {
    if report.Some? {
      var o := Visited(s, s.control.pass);
      var s1 := Seen(s, o, report.value, seen);
      FutureInvFrame(s, s1);
      match Choose(s1.objs[o], decided)
      case Leave => FutureInvFrame(s1, DoLeave(s1, decided));
      case Remove => RemoveKeepsFutures(s1, decided);
      case Launch => LaunchKeepsFutures(p, s1, decided);
    } else {
      FutureInvFrame(s, DoLeave(s, decided));
    }
  }

  lemma RoutineKeepsFutures(s: State, r: nat, reply: Reply)
    requires CanRun(s, r, reply) && FutureInv(s)
    ensures FutureInv(DoRun(s, r, reply))
  {
    var s' := DoRun(s, r, reply);
    forall q | 0 <= q < |s'.routines|
      ensures RoutineOk(s'.objs, s'.routines[q])
    {
      assert RoutineOk(s.objs, s.routines[q]);
    }
  }

  lemma AddKeepsFutures(p: Platform, s: State)
    requires CanAdd(s) && FutureInv(s)
    ensures FutureInv(DoAdd(p, s))
  {}

  lemma FuturesKept(p: Platform, s: State, step: Step)
    requires Enabled(s, step) && FutureInv(s)
    ensures FutureInv(Apply(p, s, step))
  {
    match step
    case AddJob => AddKeepsFutures(p, s);
    case PollFuture => PollKeepsFutures(s);
    case QueryState =>
    case TakeReport(report, seen, decided) => ReportKeepsFutures(p, s, report, seen, decided);
    case RunRoutine(r, reply) => RoutineKeepsFutures(s, r, reply);
    case MarkJob => FutureInvFrame(s, DoMark(s));
    case EvaluateJob => EvaluateKeepsFutures(s);
    case _ => ControlKeepsFutures(s, Apply(p, s, step));
  }

  lemma EvaluateKeepsFutures(s: State)
    requires CanEvaluate(s) && FutureInv(s)
    ensures FutureInv(DoEvaluate(s))
  {
    FutureInvFrame(s, DoEvaluate(s));
  }

  /** The scheduler turns to something else. */
  lemma ControlKeepsFutures(s: State, s': State)
    requires FutureInv(s) && s'.objs == s.objs && s'.backing == s.backing && s'.futures == s.futures && s'.routines == s.routines
    requires s'.control.Awaiting? ==> s'.control == s.control
    ensures FutureInv(s')
  {}

  // ----- main results about goroutines in flight -----

  /** The current state of a job does not change while a reconciliation for its ID is in flight. */
  lemma CurrentIsFixedInFlight(p: Platform, s: State, step: Step, o: nat, r: nat)
    requires Enabled(s, step) && FutureInv(s)
    requires o < |s.objs| && r < |s.routines| && s.routines[r].id == s.objs[o].w.id && Live(s.routines[r])
    ensures o < |Apply(p, s, step).objs| && Apply(p, s, step).objs[o].current == s.objs[o].current
  {
    match step
    case TakeReport(report, seen, decided) => ReportFrame(p, s, report, seen, decided);
    case PollFuture => PollFixes(s, o, r);
    case _ =>
  }

  lemma PollFixes(s: State, o: nat, r: nat)
    requires CanPoll(s) && FutureInv(s) && o < |s.objs| && r < |s.routines|
    requires s.routines[r].id == s.objs[o].w.id && Live(s.routines[r])
    ensures o < |DoPoll(s).objs| && DoPoll(s).objs[o].current == s.objs[o].current
  {
    if Visited(s, s.control.pass) == o {
      assert s.futures[s.objs[o].w.id] == r;
    }
  }
}
