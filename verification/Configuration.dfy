/** The jobs of the store against the last configuration message and the latest profile results. */
module Configuration {
  import opened Wrappers
  import opened Jobs
  import opened Slices
  import opened Machine
  import opened InFlight
  import opened ExecutionPass

  // ----- the jobs that a message asks for -----

  /** An unmarked job with the ID is stored and not about to be marked. */
  ghost predicate Keeps(s: State, id: string, doomed: seq<nat>) {
    exists o: nat :: o in Stored(s) && KeepsAs(s.objs, o, id) && o !in doomed
  }

  ghost predicate KeepsAs(objs: seq<JobView>, o: nat, id: string) {
    o < |objs| && objs[o].w.id == id && !objs[o].marked
  }

  /** A job with the ID is about to be created. */
  ghost predicate WillAdd(p: Platform, toAdd: seq<Workload>, id: string) {
    exists i :: 0 <= i < |toAdd| && toAdd[i].id == id && CronParses(p, toAdd[i])
  }

  /** The IDs of the unmarked jobs. */
  ghost predicate UnmarkedId(s: State, id: string) {
    Keeps(s, id, [])
  }

  ghost predicate OnTheWay(p: Platform, s: State, id: string) {
    match s.control
    case Adding(toAdd, stale) => Keeps(s, id, stale) || WillAdd(p, toAdd, id)
    case Marking(todo) => Keeps(s, id, todo)
    case _ => Keeps(s, id, [])
  }

  /** The unmarked jobs are, or are becoming, those that the last message asked for. */
  ghost predicate DesiredInv(p: Platform, s: State) {
    forall id :: id in s.desired <==> OnTheWay(p, s, id)
  }

  lemma ConfigKeepsDesired(p: Platform, s: State, wanted: seq<Workload>, toAdd: seq<Workload>, stale: seq<nat>)
    requires StoreInv(s) && ListsFresh(s, wanted, toAdd) && ListsStale(s, wanted, stale)
    ensures DesiredInv(p, s.(control := Adding(toAdd, stale), desired := Wanted(p, s, wanted)))
  {}

  /** The same unmarked jobs with the same IDs. */
  lemma KeepsFrame(s: State, s': State, id: string, doomed: seq<nat>)
    requires forall o: nat :: KeepsAs(s.objs, o, id) && o in Stored(s) <==> KeepsAs(s'.objs, o, id) && o in Stored(s')
    ensures Keeps(s, id, doomed) <==> Keeps(s', id, doomed)
  {}

  lemma DesiredFrame(p: Platform, s: State, s': State)
    requires DesiredInv(p, s) && s'.desired == s.desired && Stored(s') == Stored(s)
    requires |s'.objs| == |s.objs|
    requires forall o :: 0 <= o < |s.objs| ==> s'.objs[o].w == s.objs[o].w && s'.objs[o].marked == s.objs[o].marked
    requires s'.control == s.control || (!Configuring(s) && !Configuring(s'))
    ensures DesiredInv(p, s')
  {}

  /** A configuration message is being handled. */
  predicate Configuring(s: State) {
    s.control.Adding? || s.control.Marking?
  }

  lemma AddKeepsDesired(p: Platform, s: State)
    requires CanAdd(s) && StoreInv(s) && DesiredInv(p, s)
    ensures DesiredInv(p, DoAdd(p, s))
  {
    var s' := DoAdd(p, s);
    var w, rest := s.control.toAdd[0], s.control.toAdd[1..];
    var stale := s.control.stale;
    assert |s.objs| !in stale by {
      assert forall k :: 0 <= k < |stale| ==> stale[k] in Stored(s);
    }
    forall id
      ensures id in s'.desired <==> OnTheWay(p, s', id)
    {
      assert id in s.desired <==> OnTheWay(p, s, id);
      WillAddCons(p, s.control.toAdd, id);
      AddKeepsOthers(p, s, id);
    }
  }

  lemma WillAddCons(p: Platform, toAdd: seq<Workload>, id: string)
    requires toAdd != []
    ensures WillAdd(p, toAdd, id) <==> (toAdd[0].id == id && CronParses(p, toAdd[0])) || WillAdd(p, toAdd[1..], id)
  {}

  lemma AddKeepsOthers(p: Platform, s: State, id: string)
    requires CanAdd(s) && StoreInv(s) && |s.objs| !in s.control.stale
    ensures Keeps(DoAdd(p, s), id, s.control.stale) <==>
              Keeps(s, id, s.control.stale) || (s.control.toAdd[0].id == id && CronParses(p, s.control.toAdd[0]))
  {
    var s' := DoAdd(p, s);
    if CreateJob(p, s.control.toAdd[0], s.clock).Some? {
      assert Stored(s') == Stored(s) + [|s.objs|];
      assert |s.objs| in Stored(s');
      forall o: nat
        ensures KeepsAs(s'.objs, o, id) && o in Stored(s') <==>
                  (KeepsAs(s.objs, o, id) && o in Stored(s)) || (o == |s.objs| && s.control.toAdd[0].id == id)
      {}
      if s.control.toAdd[0].id == id {
        assert KeepsAs(s'.objs, |s.objs|, id);
      }
    } else {
      assert Stored(s') == Stored(s);
      KeepsFrame(s, s', id, s.control.stale);
    }
  }

  lemma MarkKeepsDesired(p: Platform, s: State)
    requires CanMark(s) && DesiredInv(p, s)
    ensures DesiredInv(p, DoMark(s))
  {
    var s' := DoMark(s);
    var o, rest := s.control.todo[0], s.control.todo[1..];
    assert Stored(s') == Stored(s);
    forall id
      ensures id in s'.desired <==> OnTheWay(p, s', id)
    {
      assert id in s.desired <==> OnTheWay(p, s, id);
      forall x: nat
        ensures KeepsAs(s'.objs, x, id) && x !in rest <==> KeepsAs(s.objs, x, id) && x !in s.control.todo
      {}
    }
  }

  lemma RemoveKeepsDesired(p: Platform, s: State, decided: int)
    requires s.control.Awaiting? && CanVisit(s, s.control.pass) && StoreInv(s) && PassInv(s) && DesiredInv(p, s)
    requires s.objs[Visited(s, s.control.pass)].marked
    ensures DesiredInv(p, DoRemove(s, decided))
  {
    var s' := DoRemove(s, decided);
    forall id
      ensures id in s'.desired <==> OnTheWay(p, s', id)
    {
      assert id in s.desired <==> OnTheWay(p, s, id);
      forall o: nat
        ensures KeepsAs(s.objs, o, id) && o in Stored(s) <==> KeepsAs(s'.objs, o, id) && o in Stored(s')
      {
        RemovedFromStore(s, decided, o);
      }
      KeepsFrame(s, s', id, []);
    }
  }

  /** A removal takes the visited job out of the store and no other. */
  lemma RemovedFromStore(s: State, decided: int, o: nat)
    requires s.control.Awaiting? && CanVisit(s, s.control.pass) && StoreInv(s) && PassInv(s)
    ensures o in Stored(DoRemove(s, decided)) <==> o in Stored(s) && o != Visited(s, s.control.pass)
  {
    var at := IndexOf(s.objs, Stored(s), VisitedId(s, s.control.pass));
    IndexIsVisited(s);
    if at < s.len {
      DistinctRefs(s.objs, Stored(s));
      ShiftedMembership(s.backing, s.len, at, o);
    } else {
      AbsentFromStore(s.objs, Stored(s), Visited(s, s.control.pass));
    }
  }

  lemma AbsentFromStore(objs: seq<JobView>, refs: seq<nat>, v: nat)
    requires v < |objs| && IndexOf(objs, refs, objs[v].w.id) == |refs|
    ensures v !in refs
  {}

  lemma ShiftedMembership(backing: seq<nat>, len: nat, at: nat, o: nat)
    requires len <= |backing| && at < len && Distinct(backing[..len])
    ensures o in ShiftDown(backing, at, len)[..len - 1] <==> o in backing[..len] && o != backing[at]
  {}

  lemma ReportKeepsDesired(p: Platform, s: State, report: Option<JobState>, seen: int, decided: int)
    requires CanReport(s, report, seen, decided) && StoreInv(s) && PassInv(s) && DesiredInv(p, s)
    ensures DesiredInv(p, DoReport(p, s, report, seen, decided))
  {
    if report.Some? {
      var o := Visited(s, s.control.pass);
      var s1 := Seen(s, o, report.value, seen);
      DesiredFrame(p, s, s1);
      StoreInvFrame(s, s1);
      SeenKeepsPass(s, o, report.value, seen);
      match Choose(s1.objs[o], decided)
      case Leave => DesiredFrame(p, s1, DoLeave(s1, decided));
      case Remove => RemoveKeepsDesired(p, s1, decided);
      case Launch => DesiredFrame(p, s1, DoLaunch(p, s1, decided));
    } else {
      DesiredFrame(p, s, DoLeave(s, decided));
    }
  }

  lemma DesiredKept(p: Platform, s: State, step: Step)
    requires Enabled(s, step) && StoreInv(s) && PassInv(s) && DesiredInv(p, s)
    ensures DesiredInv(p, Apply(p, s, step))
  {
    match step
    case ReceiveNone => NoneKeepsDesired(p, s);
    case ReceiveConfig(wanted, toAdd, stale) => ConfigKeepsDesired(p, s, wanted, toAdd, stale);
    case AddJob => AddKeepsDesired(p, s);
    case Signal => SignalKeepsDesired(p, s);
    case MarkJob => MarkKeepsDesired(p, s);
    case TakeReport(report, seen, decided) => ReportKeepsDesired(p, s, report, seen, decided);
    case Return => ReturnKeepsDesired(p, s);
    case EvaluateJob => DesiredFrame(p, s, DoEvaluate(s));
    case PollFuture => PollKeepsDesired(p, s);
    case _ => QuietKeepsDesired(p, s, Apply(p, s, step));
  }

  lemma PollKeepsDesired(p: Platform, s: State)
    requires CanPoll(s) && DesiredInv(p, s)
    ensures DesiredInv(p, DoPoll(s))
  {
    DesiredFrame(p, s, DoPoll(s));
  }

  lemma QuietKeepsDesired(p: Platform, s: State, s': State)
    requires DesiredInv(p, s) && s'.desired == s.desired && s'.objs == s.objs && s'.backing == s.backing && s'.len == s.len
    requires s'.control == s.control || (!Configuring(s) && !Configuring(s'))
    ensures DesiredInv(p, s')
  {}

  lemma NoneKeepsDesired(p: Platform, s: State)
    requires StoreInv(s)
    ensures DesiredInv(p, s.(control := Marking(Stored(s)), desired := {}))
  {}

  lemma SignalKeepsDesired(p: Platform, s: State)
    requires s.control.Adding? && s.control.toAdd == [] && DesiredInv(p, s)
    ensures DesiredInv(p, s.(pending := true, control := Marking(s.control.stale)))
  {}

  lemma ReturnKeepsDesired(p: Platform, s: State)
    requires CanReturn(s) && DesiredInv(p, s)
    ensures DesiredInv(p, s.(control := Idle))
  {}

  // ----- main result about configuration messages -----

  /** Outside the handling of a message, the IDs of the unmarked jobs are exactly those that the last
      message asked for, less the jobs that were already marked when it arrived and the workloads whose
      cron specification does not parse (see `Machine.Wanted`). */
  lemma UnmarkedJobsAreDesired(p: Platform, s: State, id: string)
    requires DesiredInv(p, s) && !Configuring(s)
    ensures id in s.desired <==> UnmarkedId(s, id)
  {}

  // ----- targets against the latest profile results -----

  /** The target of an unmarked job is what the results ask for. */
  ghost predicate Matches(s: State, o: nat) {
    o < |s.objs| ==> s.objs[o].marked || s.objs[o].target == Desired(s.objs[o].w, s.results)
  }

  /** How much of the store is known to match: all of it, or the part an evaluation has passed. */
  function Checked(s: State): (n: nat) {
    if s.control.Evaluating? && s.control.at < |Stored(s)| then s.control.at else |Stored(s)|
  }

  /** Unless an evaluation is pending or jobs are just being added, all targets match. */
  ghost predicate DirtyInv(s: State) {
    s.control.Adding? || s.pending || forall k :: 0 <= k < Checked(s) ==> Matches(s, Stored(s)[k])
  }

  /** The objects keep their targets and marks, or gain a mark; the results stay. */
  lemma DirtyFrame(s: State, s': State)
    requires DirtyInv(s) && s'.results == s.results && Stored(s') == Stored(s) && |s'.objs| == |s.objs|
    requires forall o :: 0 <= o < |s.objs| ==>
               s'.objs[o].w == s.objs[o].w && (s.objs[o].marked ==> s'.objs[o].marked) &&
               (s'.objs[o].marked || s'.objs[o].target == s.objs[o].target)
    requires !s.control.Adding? && (s.pending ==> s'.pending) && Checked(s') <= Checked(s)
    ensures DirtyInv(s')
  {}

  lemma EvaluateKeepsClean(s: State)
    requires CanEvaluate(s) && StoreInv(s) && DirtyInv(s)
    ensures DirtyInv(DoEvaluate(s))
  {
    var s' := DoEvaluate(s);
    assert Stored(s') == Stored(s);
    DistinctRefs(s.objs, Stored(s));
    if !s.pending {
      forall k | 0 <= k < Checked(s')
        ensures Matches(s', Stored(s')[k])
      {
        assert k < Checked(s) ==> Matches(s, Stored(s)[k]);
      }
    }
  }

  lemma RemoveKeepsClean(s: State, decided: int)
    requires s.control.Awaiting? && CanVisit(s, s.control.pass) && StoreInv(s) && PassInv(s) && DirtyInv(s)
    ensures DirtyInv(DoRemove(s, decided))
  {
    var s' := DoRemove(s, decided);
    if !s.pending {
      forall k | 0 <= k < Checked(s')
        ensures Matches(s', Stored(s')[k])
      {
        var o := Stored(s')[k];
        RemovedFromStore(s, decided, o);
        var j :| 0 <= j < |Stored(s)| && Stored(s)[j] == o;
        assert Matches(s, Stored(s)[j]);
      }
    }
  }

  lemma ReportKeepsClean(p: Platform, s: State, report: Option<JobState>, seen: int, decided: int)
    requires CanReport(s, report, seen, decided) && StoreInv(s) && PassInv(s) && DirtyInv(s)
    ensures DirtyInv(DoReport(p, s, report, seen, decided))
  {
    if report.Some? {
      var o := Visited(s, s.control.pass);
      var s1 := Seen(s, o, report.value, seen);
      DirtyFrame(s, s1);
      StoreInvFrame(s, s1);
      SeenKeepsPass(s, o, report.value, seen);
      match Choose(s1.objs[o], decided)
      case Leave => DirtyFrame(s1, DoLeave(s1, decided));
      case Remove => RemoveKeepsClean(s1, decided);
      case Launch => DirtyFrame(s1, DoLaunch(p, s1, decided));
    } else {
      DirtyFrame(s, DoLeave(s, decided));
    }
  }

  lemma PollKeepsClean(s: State)
    requires CanPoll(s) && DirtyInv(s)
    ensures DirtyInv(DoPoll(s))
  {
    DirtyFrame(s, DoPoll(s));
  }

  lemma QuietKeepsClean(s: State, s': State)
    requires DirtyInv(s) && s'.results == s.results && s'.objs == s.objs && s'.backing == s.backing && s'.len == s.len
    requires !s.control.Adding? && s'.pending == s.pending && Checked(s') <= Checked(s)
    ensures DirtyInv(s')
  {}

  lemma CleanKept(p: Platform, s: State, step: Step)
    requires Enabled(s, step) && StoreInv(s) && PassInv(s) && DirtyInv(s)
    ensures DirtyInv(Apply(p, s, step))
  {
    match step
    case ReceiveConfig(_, _, _) =>
    case AddJob =>
    case Signal =>
    case MarkJob => DirtyFrame(s, DoMark(s));
    case ReceiveResults(rs, differ) =>
    case BeginEvaluation =>
    case EvaluateJob => EvaluateKeepsClean(s);
    case PollFuture => PollKeepsClean(s);
    case TakeReport(report, seen, decided) => ReportKeepsClean(p, s, report, seen, decided);
    case RunRoutine(_, _) => if !s.control.Adding? { QuietKeepsClean(s, Apply(p, s, step)); }
    case Elapse(_, _) => if !s.control.Adding? { QuietKeepsClean(s, Apply(p, s, step)); }
    case _ => QuietKeepsClean(s, Apply(p, s, step));
  }
}
