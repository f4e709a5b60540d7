/** The sync functions of internal/scheduler/reconcile/reconciler.go as the program runs them when the job
    does not change meanwhile: ordered executor calls with early returns.  For every state, target and
    answers the list of calls and the result are stated, and the goroutine of the step machine is proved to
    make the same calls and to come to the same result. */
module Reconcilers {
  import opened Wrappers
  import opened Jobs
  import opened Machine

  /** What the executor answers to each call. */
  type Answers = Pc -> Reply

  predicate IsCall(pc: Pc) {
    pc.InExists? || pc.InRemoveFirst? || pc.InRun? || pc.InStop? || pc.InRemove? || pc.InGetState?
  }

  function ReplyAt(pc: Pc, ex: Answers): (r: Reply) {
    if IsCall(pc) then ex(pc) else Silent
  }

  /** How many steps a goroutine has at most before it, from each of its program points. */
  function StepsLeft(pc: Pc): (n: nat) {
    match pc
    case Start => 12
    case CheckRun => 11
    case InExists => 10
    case InRemoveFirst => 9
    case RunReady => 8
    case InRun => 7
    case CheckStop => 6
    case InStop => 5
    case InRemove => 4
    case InGetState => 3
    case Sending(_) => 2
    case Closing => 1
    case Finished => 0
  }

  lemma StepsDecrease(ro: Routine, j: JobView, reply: Reply)
    ensures Live(ro) ==> StepsLeft(NextPc(ro, j, reply)) < StepsLeft(ro.pc)
  {}

  /** The goroutine after it has run to its end on the job `j`. */
  function Ended(ro: Routine, j: JobView, ex: Answers): (ro': Routine)
    ensures ro'.pc.Finished?
    decreases StepsLeft(ro.pc)
  {
    if Live(ro) then
      StepsDecrease(ro, j, ReplyAt(ro.pc, ex));
      Ended(NextRoutine(ro, j, ReplyAt(ro.pc, ex)), j, ex)
    else ro
  }

  /** The executor calls it makes on the way. */
  function Calls(ro: Routine, j: JobView, ex: Answers): (calls: seq<Pc>)
    decreases StepsLeft(ro.pc)
  {
    if Live(ro) then
      StepsDecrease(ro, j, ReplyAt(ro.pc, ex));
      (if IsCall(ro.pc) then [ro.pc] else []) + Calls(NextRoutine(ro, j, ReplyAt(ro.pc, ex)), j, ex)
    else []
  }

  function Begin(j: JobView): (ro: Routine) {
    Routine(0, j.w.id, j.w.kind, Start, None)
  }

  /** The goroutine, from the program point `pc` on, makes `calls` and brings back `r`. */
  ghost predicate Goes(j: JobView, ex: Answers, pc: Pc, calls: seq<Pc>, r: SyncResult) {
    var ro := Begin(j).(pc := pc);
    Calls(ro, j, ex) == calls && Ended(ro, j, ex).value == Some(r)
  }

  lemma Sends(j: JobView, ex: Answers, r: SyncResult)
    ensures Goes(j, ex, Sending(r), [], r)
  {
    var ro := Begin(j).(pc := Sending(r));
    var closing := NextRoutine(ro, j, Silent);
    assert Calls(NextRoutine(closing, j, Silent), j, ex) == [];
    assert Calls(closing, j, ex) == [];
    assert Ended(closing, j, ex) == NextRoutine(closing, j, Silent);
  }

  /** One step in front. */
  lemma Steps(j: JobView, ex: Answers, pc: Pc, pc': Pc, calls: seq<Pc>, r: SyncResult)
    requires !pc.Sending? && !pc.Closing? && !pc.Finished?
    requires pc' == NextPc(Begin(j).(pc := pc), j, ReplyAt(pc, ex)) && Goes(j, ex, pc', calls, r)
    ensures Goes(j, ex, pc, (if IsCall(pc) then [pc] else []) + calls, r)
  {
    assert NextRoutine(Begin(j).(pc := pc), j, ReplyAt(pc, ex)) == Begin(j).(pc := pc');
  }

  // ----- calls in order -----

  /** The answer lets the function go on: Exists has told, GetState has reported, the others are done. */
  predicate Succeeds(pc: Pc, reply: Reply) {
    if pc.InExists? then reply.Present? else if pc.InGetState? then reply.Reported? else reply.Done?
  }

  /** The calls of `plan` are made in order up to the first failure, and the function brings back a failure
      or else the state that the last call reports. */
  ghost predicate InOrder(plan: seq<Pc>, ex: Answers, calls: seq<Pc>, r: SyncResult) {
    && plan != [] && calls != [] && calls[0] == plan[0]
    && if !Succeeds(plan[0], ex(plan[0])) then calls == [plan[0]] && r == SyncFailed
       else if |plan| == 1 then calls == plan && ex(plan[0]).Reported? && r == Reached(ex(plan[0]).state)
       else InOrder(plan[1..], ex, calls[1..], r)
  }

  lemma OneMoreCall(pc: Pc, plan: seq<Pc>, ex: Answers, calls: seq<Pc>, r: SyncResult)
    requires Succeeds(pc, ex(pc)) && InOrder(plan, ex, calls, r)
    ensures InOrder([pc] + plan, ex, [pc] + calls, r)
  {
    assert ([pc] + plan)[1..] == plan && ([pc] + calls)[1..] == calls;
  }

  /** In other words: if all calls succeed they are all made and the last report is the result, and if the
      `k`-th is the first to fail, it is the last one made. */
  lemma {:induction false} InOrderExactly(plan: seq<Pc>, ex: Answers, calls: seq<Pc>, r: SyncResult, k: nat)
    requires InOrder(plan, ex, calls, r) && k <= |plan|
    requires forall i :: 0 <= i < k ==> Succeeds(plan[i], ex(plan[i]))
    ensures k == |plan| ==> calls == plan && ex(plan[k - 1]).Reported? && r == Reached(ex(plan[k - 1]).state)
    ensures k < |plan| && !Succeeds(plan[k], ex(plan[k])) ==> calls == plan[..k + 1] && r == SyncFailed
  {
    if k > 0 && |plan| > 1 {
      forall i | 0 <= i < k - 1
        ensures Succeeds(plan[1..][i], ex(plan[1..][i]))
      {
        assert plan[1..][i] == plan[i + 1];
      }
      InOrderExactly(plan[1..], ex, calls[1..], r, k - 1);
      assert calls == [calls[0]] + calls[1..] && plan == [plan[0]] + plan[1..];
    }
  }

  // ----- the functions -----

  /** The last call of both functions: the state as the executor sees it, or a failure. */
  method Inspect(j: JobView, ex: Answers) returns (calls: seq<Pc>, r: SyncResult)
    ensures Goes(j, ex, InGetState, calls, r)
    ensures InOrder([InGetState], ex, calls, r)
  {
    var state := ex(InGetState);
    calls, r := [InGetState], if state.Reported? then Reached(state.state) else SyncFailed;
    Sends(j, ex, r);
    Steps(j, ex, InGetState, Sending(r), [], r);
    assert [InGetState] + [] == calls;
  }

  /** `executor.Run` and what follows it for a pod. */
  method RunPod(j: JobView, ex: Answers) returns (calls: seq<Pc>, r: SyncResult)
    requires j.w.kind.Pod?
    ensures Goes(j, ex, RunReady, calls, r) && InOrder([InRun, InGetState], ex, calls, r)
  {
    if !ex(InRun).Done? {
      calls, r := [InRun], SyncFailed;
      Sends(j, ex, r);
      Steps(j, ex, InRun, Sending(r), [], r);
    } else {
      var last;
      last, r := Inspect(j, ex);
      Steps(j, ex, InRun, InGetState, last, r);
      calls := [InRun] + last;
      OneMoreCall(InRun, [InGetState], ex, last, r);
      assert [InRun] + [InGetState] == [InRun, InGetState];
    }
    Steps(j, ex, RunReady, InRun, calls, r);
    assert [] + calls == calls;
  }

  /** The branch of the pod function for target Running. */
  method StartPod(j: JobView, ex: Answers) returns (calls: seq<Pc>, r: SyncResult)
    requires j.w.kind.Pod?
    ensures Goes(j, ex, InExists, calls, r)
    ensures ex(InExists) == Present(true) ==> InOrder([InExists, InRemoveFirst, InRun, InGetState], ex, calls, r)
    ensures ex(InExists) != Present(true) ==> InOrder([InExists, InRun, InGetState], ex, calls, r)
  {
    var found := ex(InExists);
    if found != Present(true) && found != Present(false) {
      calls, r := [InExists], SyncFailed;
      Sends(j, ex, r);
      Steps(j, ex, InExists, Sending(r), [], r);
      return;
    }
    var rest;
    if found == Present(false) {
      rest, r := RunPod(j, ex);
      Steps(j, ex, InExists, RunReady, rest, r);
      OneMoreCall(InExists, [InRun, InGetState], ex, rest, r);
      assert [InExists] + [InRun, InGetState] == [InExists, InRun, InGetState];
    } else {
      rest, r := ReplacePod(j, ex);
      Steps(j, ex, InExists, InRemoveFirst, rest, r);
      OneMoreCall(InExists, [InRemoveFirst, InRun, InGetState], ex, rest, r);
      assert [InExists] + [InRemoveFirst, InRun, InGetState] == [InExists, InRemoveFirst, InRun, InGetState];
    }
    calls := [InExists] + rest;
  }

  /** An existing pod is removed first. */
  method ReplacePod(j: JobView, ex: Answers) returns (calls: seq<Pc>, r: SyncResult)
    requires j.w.kind.Pod?
    ensures Goes(j, ex, InRemoveFirst, calls, r) && InOrder([InRemoveFirst, InRun, InGetState], ex, calls, r)
  {
    if !ex(InRemoveFirst).Done? {
      calls, r := [InRemoveFirst], SyncFailed;
      Sends(j, ex, r);
      Steps(j, ex, InRemoveFirst, Sending(r), [], r);
    } else {
      var rest;
      rest, r := RunPod(j, ex);
      Steps(j, ex, InRemoveFirst, RunReady, rest, r);
      calls := [InRemoveFirst] + rest;
      OneMoreCall(InRemoveFirst, [InRun, InGetState], ex, rest, r);
      assert [InRemoveFirst] + [InRun, InGetState] == [InRemoveFirst, InRun, InGetState];
    }
  }

  /** `executor.Remove` and what follows it. */
  method Clear(j: JobView, ex: Answers) returns (calls: seq<Pc>, r: SyncResult)
    ensures Goes(j, ex, InRemove, calls, r) && InOrder([InRemove, InGetState], ex, calls, r)
  {
    if !ex(InRemove).Done? {
      calls, r := [InRemove], SyncFailed;
      Sends(j, ex, r);
      Steps(j, ex, InRemove, Sending(r), [], r);
    } else {
      var last;
      last, r := Inspect(j, ex);
      Steps(j, ex, InRemove, InGetState, last, r);
      calls := [InRemove] + last;
      OneMoreCall(InRemove, [InGetState], ex, last, r);
      assert [InRemove] + [InGetState] == [InRemove, InGetState];
    }
  }

  /** The branch of the pod function for targets Exited and Inactive. */
  method StopPod(j: JobView, ex: Answers) returns (calls: seq<Pc>, r: SyncResult)
    ensures Goes(j, ex, InStop, calls, r) && InOrder([InStop, InRemove, InGetState], ex, calls, r)
  {
    if !ex(InStop).Done? {
      calls, r := [InStop], SyncFailed;
      Sends(j, ex, r);
      Steps(j, ex, InStop, Sending(r), [], r);
    } else {
      var rest;
      rest, r := Clear(j, ex);
      Steps(j, ex, InStop, InRemove, rest, r);
      calls := [InStop] + rest;
      OneMoreCall(InStop, [InRemove, InGetState], ex, rest, r);
      assert [InStop] + [InRemove, InGetState] == [InStop, InRemove, InGetState];
    }
  }

  /** Nothing is to be done: the job has reached its target. */
  method AtTarget(j: JobView, ex: Answers) returns (calls: seq<Pc>, r: SyncResult)
    requires j.current == j.target
    ensures Goes(j, ex, Start, calls, r) && calls == [] && r == Reached(j.current)
  {
    calls, r := [], Reached(j.current);
    Sends(j, ex, r);
    Steps(j, ex, Start, Sending(r), [], r);
    assert [] + calls == calls;
  }

  /** The pod function.  Nothing is called for a job that has reached its target, or for a target other than
      Running, Exited and Inactive; else the calls are made in order, up to the first failure. */
  method SyncPod(j: JobView, ex: Answers) returns (calls: seq<Pc>, r: SyncResult)
    requires j.w.kind.Pod?
    ensures Goes(j, ex, Start, calls, r)
    ensures j.current == j.target || !(j.target.Running? || j.target.Exited? || j.target.Inactive?) ==>
              calls == [] && r == Reached(j.current)
    ensures j.current != j.target && j.target.Running? && ex(InExists) == Present(true) ==>
              InOrder([InExists, InRemoveFirst, InRun, InGetState], ex, calls, r)
    ensures j.current != j.target && j.target.Running? && ex(InExists) != Present(true) ==>
              InOrder([InExists, InRun, InGetState], ex, calls, r)
    ensures j.current != j.target && (j.target.Exited? || j.target.Inactive?) ==>
              InOrder([InStop, InRemove, InGetState], ex, calls, r)
  {
    if j.current == j.target {
      calls, r := AtTarget(j, ex);
      return;
    }
    if j.target.Running? {
      calls, r := StartPod(j, ex);
      Steps(j, ex, CheckRun, InExists, calls, r);
    } else {
      if j.target.Exited? || j.target.Inactive? {
        calls, r := StopPod(j, ex);
        Steps(j, ex, CheckStop, InStop, calls, r);
      } else {
        calls, r := [], Reached(j.current);
        Sends(j, ex, r);
        Steps(j, ex, CheckStop, Sending(r), [], r);
      }
      assert [] + calls == calls;
      Steps(j, ex, CheckRun, CheckStop, calls, r);
    }
    assert [] + calls == calls;
    Steps(j, ex, Start, CheckRun, calls, r);
  }

  /** From the second test of the k8s function on. */
  method ClearDeployment(j: JobView, ex: Answers) returns (calls: seq<Pc>, r: SyncResult)
    requires j.w.kind.K8s?
    ensures Goes(j, ex, CheckStop, calls, r)
    ensures InOrder(if j.target.Exited? || j.target.Inactive? || j.target.Unknown? then [InRemove, InGetState] else [InGetState], ex, calls, r)
  {
    if j.target.Exited? || j.target.Inactive? || j.target.Unknown? {
      calls, r := Clear(j, ex);
      Steps(j, ex, CheckStop, InRemove, calls, r);
    } else {
      calls, r := Inspect(j, ex);
      Steps(j, ex, CheckStop, InGetState, calls, r);
    }
    assert [] + calls == calls;
  }

  /** The k8s function.  It does not look before it runs, and asks for the state whatever the target is. */
  method SyncK8s(j: JobView, ex: Answers) returns (calls: seq<Pc>, r: SyncResult)
    requires j.w.kind.K8s?
    ensures Goes(j, ex, Start, calls, r)
    ensures j.current == j.target ==> calls == [] && r == Reached(j.current)
    ensures j.current != j.target && j.target.Running? ==> InOrder([InRun, InGetState], ex, calls, r)
    ensures j.current != j.target && (j.target.Exited? || j.target.Inactive? || j.target.Unknown?) ==>
              InOrder([InRemove, InGetState], ex, calls, r)
    ensures j.current != j.target && !(j.target.Running? || j.target.Exited? || j.target.Inactive? || j.target.Unknown?) ==>
              InOrder([InGetState], ex, calls, r)
  {
    if j.current == j.target {
      calls, r := AtTarget(j, ex);
      return;
    }
    if j.target.Running? {
      calls, r := CreateDeployment(j, ex);
      Steps(j, ex, RunReady, InRun, calls, r);
      assert [] + calls == calls;
      Steps(j, ex, CheckRun, RunReady, calls, r);
    } else {
      calls, r := ClearDeployment(j, ex);
      assert [] + calls == calls;
      Steps(j, ex, CheckRun, CheckStop, calls, r);
    }
    Steps(j, ex, Start, CheckRun, calls, r);
  }

  /** The first test of the k8s function, for target Running, and what follows it. */
  method CreateDeployment(j: JobView, ex: Answers) returns (calls: seq<Pc>, r: SyncResult)
    requires j.w.kind.K8s? && j.target.Running?
    ensures Goes(j, ex, InRun, calls, r) && InOrder([InRun, InGetState], ex, calls, r)
  {
    if !ex(InRun).Done? {
      calls, r := [InRun], SyncFailed;
      Sends(j, ex, r);
      Steps(j, ex, InRun, Sending(r), [], r);
    } else {
      var rest;
      rest, r := ClearDeployment(j, ex);
      Steps(j, ex, InRun, CheckStop, rest, r);
      calls := [InRun] + rest;
      OneMoreCall(InRun, [InGetState], ex, rest, r);
      assert [InRun] + [InGetState] == [InRun, InGetState];
    }
  }
}
