/** What a reconciliation goroutine achieves, however its steps interleave with the others: a pod or
    deployment that is there, or one that is gone. */
module Starting {
  import opened Jobs
  import opened Machine
  import opened InFlight
  import opened Reconcilers

  /** The goroutine is on its way to a running workload, or has one and brings back a state. */
  ghost predicate Starts(s: State, r: nat) {
    && r < |s.routines| && s.routines[r].o < |s.objs|
    && var ro := s.routines[r];
       match ro.pc
       case Start => true
       case CheckRun => true
       case InExists => true
       case InRemoveFirst => true
       case RunReady => true
       case InRun => true
       case CheckStop => ro.kind.K8s? && ro.id in s.pods
       case InGetState => ro.id in s.pods
       case Sending(result) => ro.id in s.pods && result.Reached?
       case Closing => ro.id in s.pods && ro.value.Some? && ro.value.value.Reached?
       case Finished => ro.id in s.pods && ro.value.Some? && ro.value.value.Reached?
       case _ => false
  }

  /** The goroutine is on its way to a workload that is gone, or has got there and brings back a state. */
  ghost predicate Stops(s: State, r: nat) {
    && r < |s.routines| && s.routines[r].o < |s.objs|
    && var ro := s.routines[r];
       match ro.pc
       case Start => true
       case CheckRun => true
       case CheckStop => true
       case InStop => true
       case InRemove => true
       case InGetState => ro.id !in s.pods
       case Sending(result) => ro.id !in s.pods && result.Reached?
       case Closing => ro.id !in s.pods && ro.value.Some? && ro.value.value.Reached?
       case Finished => ro.id !in s.pods && ro.value.Some? && ro.value.value.Reached?
       case _ => false
  }

  /** The step does not fail a call of the goroutine, nor does a pod of its ID vanish by itself. */
  ghost predicate Undisturbed(s: State, step: Step, r: nat) {
    r < |s.routines| &&
    match step
    case RunRoutine(q, reply) => q == r && IsCall(s.routines[r].pc) ==> Succeeds(s.routines[r].pc, reply)
    case Elapse(_, pods) => s.routines[r].id in s.pods ==> s.routines[r].id in pods
    case _ => true
  }

  /** The goroutine and the pods are as before. */
  lemma SameGoroutine(s: State, s': State, r: nat)
    requires r < |s.routines| && r < |s'.routines| && s'.routines[r] == s.routines[r] && |s.objs| <= |s'.objs|
    requires s.routines[r].id in s'.pods <==> s.routines[r].id in s.pods
    ensures Starts(s, r) ==> Starts(s', r)
    ensures Stops(s, r) ==> Stops(s', r)
  {}

  lemma OwnStepStarts(s: State, r: nat, reply: Reply)
    requires CanRun(s, r, reply) && Starts(s, r) && Undisturbed(s, RunRoutine(r, reply), r)
    requires var j := s.objs[s.routines[r].o]; j.target.Running? && !j.current.Running?
    ensures Starts(DoRun(s, r, reply), r)
  {}

  lemma OwnStepStops(s: State, r: nat, reply: Reply)
    requires CanRun(s, r, reply) && Stops(s, r) && Undisturbed(s, RunRoutine(r, reply), r)
    requires var j := s.objs[s.routines[r].o]; (j.target.Exited? || j.target.Inactive?) && j.current != j.target
    ensures Stops(DoRun(s, r, reply), r)
  {}

  /** Another goroutine works on another ID. */
  lemma OthersStep(s: State, q: nat, reply: Reply, r: nat)
    requires CanRun(s, q, reply) && FutureInv(s) && r < |s.routines| && q != r && Live(s.routines[r])
    ensures Starts(s, r) ==> Starts(DoRun(s, q, reply), r)
    ensures Stops(s, r) ==> Stops(DoRun(s, q, reply), r)
  {
    assert Live(s.routines[q]);
    assert s.routines[q].id != s.routines[r].id;
    SameGoroutine(s, DoRun(s, q, reply), r);
  }

  /** While the goroutine does not create a pod nobody does. */
  lemma TimeStops(s: State, to: int, pods: set<string>, r: nat)
    requires CanElapse(s, to, pods) && FutureInv(s) && Stops(s, r) && Live(s.routines[r])
    ensures Stops(s.(clock := to, pods := pods), r)
  {
    var id := s.routines[r].id;
    if id in pods && id !in s.pods {
      var q :| 0 <= q < |s.routines| && s.routines[q].pc.InRun? && s.routines[q].id == id;
      assert Live(s.routines[q]) && q == r;
    }
  }

  lemma OtherStep(p: Platform, s: State, step: Step, r: nat)
    requires Enabled(s, step) && r < |s.routines| && !step.RunRoutine? && !step.Elapse?
    ensures Starts(s, r) ==> Starts(Apply(p, s, step), r)
    ensures Stops(s, r) ==> Stops(Apply(p, s, step), r)
  {
    if step.TakeReport? {
      ReportFrame(p, s, step.report, step.seen, step.decided);
    }
    SameGoroutine(s, Apply(p, s, step), r);
  }

  /** A goroutine whose job is to run, and does not, goes on to a running workload in every step. */
  lemma StartingGoesOn(p: Platform, s: State, step: Step, r: nat)
    requires Enabled(s, step) && FutureInv(s) && Starts(s, r) && Live(s.routines[r]) && Undisturbed(s, step, r)
    requires var j := s.objs[s.routines[r].o]; j.target.Running? && !j.current.Running?
    ensures Starts(Apply(p, s, step), r)
  {
    match step
    case RunRoutine(q, reply) =>
      if q == r {
        OwnStepStarts(s, r, reply);
      } else {
        OthersStep(s, q, reply, r);
      }
    case Elapse(_, _) =>
    case _ => OtherStep(p, s, step, r);
  }

  /** A goroutine whose job is to stop, and has not, goes on to a workload that is gone in every step. */
  lemma StoppingGoesOn(p: Platform, s: State, step: Step, r: nat)
    requires Enabled(s, step) && FutureInv(s) && Stops(s, r) && Live(s.routines[r]) && Undisturbed(s, step, r)
    requires var j := s.objs[s.routines[r].o]; (j.target.Exited? || j.target.Inactive?) && j.current != j.target
    ensures Stops(Apply(p, s, step), r)
  {
    match step
    case RunRoutine(q, reply) =>
      if q == r {
        OwnStepStops(s, r, reply);
      } else {
        OthersStep(s, q, reply, r);
      }
    case Elapse(to, pods) => TimeStops(s, to, pods, r);
    case _ => OtherStep(p, s, step, r);
  }
}
