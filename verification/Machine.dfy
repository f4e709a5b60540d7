/** The scheduler as a step machine: internal/scheduler/scheduler.go (`run`), the reconciliation
    goroutines of internal/scheduler/reconcile/reconciler.go, their futures (internal/entity/future.go),
    the clock and the executor.

    Steps of different goroutines interleave freely; the scheduler goroutine itself is split wherever a
    goroutine could observe an intermediate state.  Job objects and goroutines are numbered in the order
    of their creation, so that two objects with the same workload ID stay apart. */
module Machine {
  import opened Wrappers
  import opened Profiles
  import opened Jobs
  import opened Slices

  // ----- goroutines -----

  datatype SyncResult = Reached(state: JobState) | SyncFailed

  /** Where a reconciliation goroutine is.  `InX` means inside the executor call X. */
  datatype Pc =
    | Start | CheckRun | CheckStop
    | InExists | InRemoveFirst | RunReady | InRun
    | InStop | InRemove | InGetState
    | Sending(result: SyncResult) | Closing | Finished

  /** A goroutine and its future: `value` is what the future has received, and it is resolved once the
      goroutine has finished. */
  datatype Routine = Routine(o: nat, id: string, kind: Kind, pc: Pc, value: Option<SyncResult>)

  predicate Live(ro: Routine) {
    !ro.pc.Finished?
  }

  datatype Reply = Silent | Done | Err | Present(yes: bool) | Reported(state: JobState)

  /** The states the executors' mappers produce. */
  predicate MapperState(s: JobState) {
    s.Running? || s.Degraded? || s.Stopped? || s.Error? || s.Exited? || s.Unknown?
  }

  /** `mapPodmanStatusToEntity`. */
  function MapStatus(status: string): (s: JobState)
    ensures MapperState(s)
  {
    match status
    case "Running" => Running
    case "Degraded" => Degraded
    case "Stopped" => Stopped
    case "Error" => Error
    case "Exited" => Exited
    case _ => Unknown
  }

  /** Those states and no others are produced. */
  lemma MapperProduces(s: JobState)
    ensures MapperState(s) <==> exists status :: MapStatus(status) == s
  {
    assert MapStatus("Running") == Running && MapStatus("Degraded") == Degraded && MapStatus("Stopped") == Stopped;
    assert MapStatus("Error") == Error && MapStatus("Exited") == Exited && MapStatus("") == Unknown;
  }

  predicate Replies(pc: Pc, reply: Reply) {
    match pc
    case InExists => reply.Present? || reply.Err?
    case InRemoveFirst => reply.Done? || reply.Err?
    case InRun => reply.Done? || reply.Err?
    case InStop => reply.Done? || reply.Err?
    case InRemove => reply.Done? || reply.Err?
    case InGetState => reply.Err? || (reply.Reported? && MapperState(reply.state))
    case Finished => false
    case _ => reply.Silent?
  }

  /** The pod and k8s sync functions and `futureWrapper`, one read or one executor call at a time. */
  function NextPc(ro: Routine, j: JobView, reply: Reply): (pc: Pc) {
    match ro.pc
    case Start => if j.current == j.target then Sending(Reached(j.current)) else CheckRun
    case CheckRun =>
      if j.target.Running? then (if ro.kind.Pod? then InExists else RunReady) else CheckStop
    case CheckStop =>
      if ro.kind.Pod? then
        if j.target.Exited? || j.target.Inactive? then InStop else Sending(Reached(j.current))
      else if j.target.Exited? || j.target.Inactive? || j.target.Unknown? then InRemove
      else InGetState
    case InExists =>
      if reply == Present(true) then InRemoveFirst
      else if reply == Present(false) then RunReady
      else Sending(SyncFailed)
    case InRemoveFirst => if reply.Done? then RunReady else Sending(SyncFailed)
    case RunReady => InRun
    case InRun =>
      if !reply.Done? then Sending(SyncFailed) else if ro.kind.Pod? then InGetState else CheckStop
    case InStop => if reply.Done? then InRemove else Sending(SyncFailed)
    case InRemove => if reply.Done? then InGetState else Sending(SyncFailed)
    case InGetState => Sending(if reply.Reported? then Reached(reply.state) else SyncFailed)
    case Sending(_) => Closing
    case Closing => Finished
    case Finished => Finished
  }

  function NextRoutine(ro: Routine, j: JobView, reply: Reply): (ro': Routine)
    ensures ro'.o == ro.o && ro'.id == ro.id && ro'.kind == ro.kind
  {
    ro.(pc := NextPc(ro, j, reply), value := if ro.pc.Sending? then Some(ro.pc.result) else ro.value)
  }

  /** The pods (and deployments, for k8s) that exist after the executor call that `ro` is in has returned
      `reply`. */
  function PodsAfter(pods: set<string>, ro: Routine, reply: Reply): (pods': set<string>) {
    if reply.Done? && (ro.pc.InRemoveFirst? || ro.pc.InRemove?) then pods - {ro.id}
    else if reply.Done? && ro.pc.InRun? then pods + {ro.id}
    else pods
  }

  // ----- history -----

  datatype Event =
    | Created(o: nat, at: int)
    | Observed(o: nat, report: JobState, at: int, job: JobView)
    | RetrySet(o: nat, at: int)
    | MarkedFor(o: nat)
    | Started(o: nat, r: nat, at: int, job: JobView)
    | RunCalled(o: nat, r: nat, kind: Kind, existed: bool)

  datatype Trace = Empty | Snoc(prev: Trace, last: Event)

  // ----- state -----

  /** An execution pass: the index and length of its loop, and for reference the jobs stored at its
      start, those visited, those that a deletion moved past the index, and those removed. */
  datatype Pass = Pass(i: nat, n: nat, start: seq<nat>, visited: set<nat>, skipped: set<nat>, gone: set<nat>)

  /** What the scheduler goroutine is doing. */
  datatype Control =
    | Idle
    | Adding(toAdd: seq<Workload>, stale: seq<nat>)
    | Marking(todo: seq<nat>)
    | Evaluating(at: nat)
    | Executing(pass: Pass)
    | Awaiting(pass: Pass)

  datatype State = State(
    clock: int,
    objs: seq<JobView>,
    backing: seq<nat>,
    len: nat,
    futures: map<string, nat>,
    routines: seq<Routine>,
    results: seq<ProfileResult>,
    pending: bool,
    control: Control,
    pods: set<string>,
    desired: set<string>,
    trace: Trace)

  ghost predicate Init(s: State) {
    && s.objs == [] && s.backing == [] && s.len == 0 && s.futures == map[] && s.routines == []
    && s.results == [] && !s.pending && s.control == Idle && s.desired == {} && s.trace == Empty
  }

  /** The jobs in the store, in order. */
  function Stored(s: State): (refs: seq<nat>) {
    if s.len <= |s.backing| then s.backing[..s.len] else []
  }

  /** `Store.index`: the first position whose job has the ID. */
  function IndexOf(objs: seq<JobView>, refs: seq<nat>, id: string): (k: nat)
    ensures k <= |refs|
    ensures k < |refs| && refs[k] < |objs| ==> objs[refs[k]].w.id == id
    ensures forall j :: 0 <= j < k && refs[j] < |objs| ==> objs[refs[j]].w.id != id
  {
    if refs == [] then 0
    else if refs[0] < |objs| && objs[refs[0]].w.id == id then 0
    else 1 + IndexOf(objs, refs[1..], id)
  }

  /** The last workload of a list with a given ID: what `substract` keeps in its map. */
  function LastWith(ws: seq<Workload>, id: string): (w: Option<Workload>)
    ensures w.Some? ==> w.value.id == id && w.value in ws
    ensures w.None? ==> forall i :: 0 <= i < |ws| ==> ws[i].id != id
  {
    if ws == [] then None
    else if ws[|ws| - 1].id == id then Some(ws[|ws| - 1])
    else LastWith(ws[..|ws| - 1], id)
  }

  ghost predicate HasId(s: State, id: string) {
    exists k :: 0 <= k < |Stored(s)| && Stored(s)[k] < |s.objs| && s.objs[Stored(s)[k]].w.id == id
  }

  /** `substract(opt.Value, jobs)`, in some order: the desired workloads that no job has. */
  ghost predicate ListsFresh(s: State, desired: seq<Workload>, toAdd: seq<Workload>) {
    && (forall i :: 0 <= i < |toAdd| ==> LastWith(desired, toAdd[i].id) == Some(toAdd[i]) && !HasId(s, toAdd[i].id))
    && (forall i, j :: 0 <= i < j < |toAdd| ==> toAdd[i].id != toAdd[j].id)
    && (forall w :: w in desired && !HasId(s, w.id) ==> exists i :: 0 <= i < |toAdd| && toAdd[i].id == w.id)
  }

  /** `substract(jobs, opt.Value)`, in some order: the jobs that are not desired. */
  ghost predicate ListsStale(s: State, desired: seq<Workload>, stale: seq<nat>) {
    forall o: nat :: o in stale <==> o in Stored(s) && o < |s.objs| && LastWith(desired, s.objs[o].w.id).None?
  }

  predicate CronParses(p: Platform, w: Workload) {
    w.cron == "" || p.parses(w.cron)
  }

  /** The IDs that a configuration asks for, without those of jobs already marked for deletion and those
      whose cron specification does not parse. */
  ghost function Wanted(p: Platform, s: State, desired: seq<Workload>): (ids: set<string>) {
    set w | w in desired && IsWanted(p, s, desired, w.id) :: w.id
  }

  ghost predicate IsWanted(p: Platform, s: State, desired: seq<Workload>, id: string) {
    if HasId(s, id) then
      exists k :: 0 <= k < |Stored(s)| && Stored(s)[k] < |s.objs| && s.objs[Stored(s)[k]].w.id == id && !s.objs[Stored(s)[k]].marked
    else
      LastWith(desired, id).Some? && CronParses(p, LastWith(desired, id).value)
  }

  // ----- steps -----

  /** `differ` is what the deep comparison of results says: true at least of different ones (it also tells a
      missing list from an empty one). */
  datatype Step =
    | ReceiveNone
    | ReceiveConfig(wanted: seq<Workload>, toAdd: seq<Workload>, stale: seq<nat>)
    | AddJob
    | Signal
    | MarkJob
    | ReceiveResults(rs: seq<ProfileResult>, differ: bool)
    | BeginEvaluation
    | EvaluateJob
    | BeginPass
    | PollFuture
    | QueryState
    | TakeReport(report: Option<JobState>, seen: int, decided: int)
    | Return
    | RunRoutine(r: nat, reply: Reply)
    | Elapse(to: int, pods: set<string>)

  // ----- configuration messages -----

  predicate CanMark(s: State) {
    s.control.Marking? && s.control.todo != [] && s.control.todo[0] < |s.objs|
  }

  function DoMark(s: State): (s': State)
    requires CanMark(s)
  {
    var o := s.control.todo[0];
    s.(objs := s.objs[o := Mark(s.objs[o])], control := Marking(s.control.todo[1..]), trace := Snoc(s.trace, MarkedFor(o)))
  }

  predicate CanAdd(s: State) {
    s.control.Adding? && s.control.toAdd != []
  }

  /** One new workload: a job is added unless its cron specification is rejected. */
  function DoAdd(p: Platform, s: State): (s': State)
    requires CanAdd(s)
  {
    var next := s.(control := Adding(s.control.toAdd[1..], s.control.stale));
    match CreateJob(p, s.control.toAdd[0], s.clock)
    case None => next
    case Some(j) =>
      next.(objs := s.objs + [j], backing := Stored(s) + [|s.objs|], len := |Stored(s)| + 1,
            trace := Snoc(s.trace, Created(|s.objs|, s.clock)))
  }

  // ----- profile evaluation -----

  predicate CanEvaluate(s: State) {
    s.control.Evaluating? && s.control.at < |Stored(s)| && Stored(s)[s.control.at] < |s.objs|
  }

  /** The target of one unmarked job. */
  ghost function DoEvaluate(s: State): (s': State)
    requires CanEvaluate(s)
  {
    var o := Stored(s)[s.control.at];
    var next := s.(control := Evaluating(s.control.at + 1));
    if s.objs[o].marked then next
    else next.(objs := s.objs[o := SetTarget(s.objs[o], Desired(s.objs[o].w, s.results))])
  }

  // ----- execution pass -----

  predicate CanVisit(s: State, pass: Pass) {
    pass.i < pass.n && pass.i < |s.backing| && s.backing[pass.i] < |s.objs|
  }

  /** The job object that the pass is visiting: read from the shared backing array. */
  function Visited(s: State, pass: Pass): (o: nat)
    requires CanVisit(s, pass)
    ensures o < |s.objs|
  {
    s.backing[pass.i]
  }

  function VisitedId(s: State, pass: Pass): (id: string)
    requires CanVisit(s, pass)
  {
    s.objs[Visited(s, pass)].w.id
  }

  /** The end of a visit without a removal. */
  function Advance(pass: Pass, o: nat): (pass': Pass) {
    pass.(i := pass.i + 1, visited := pass.visited + {o})
  }

  function TraceObserved(t: Trace, o: nat, before: JobView, after: JobView, report: JobState, at: int): (t': Trace) {
    var t1 := Snoc(t, Observed(o, report, at, after));
    if before.retry.Some? && after.retry.Some? && !before.retry.value.marked && after.retry.value.marked
    then Snoc(t1, RetrySet(o, at)) else t1
  }

  predicate CanPoll(s: State) {
    && s.control.Executing? && CanVisit(s, s.control.pass)
    && VisitedId(s, s.control.pass) in s.futures && s.futures[VisitedId(s, s.control.pass)] < |s.routines|
  }

  /** A visit that finds a future: nothing unless it is resolved. */
  function DoPoll(s: State): (s': State)
    requires CanPoll(s)
  {
    var o, id := Visited(s, s.control.pass), VisitedId(s, s.control.pass);
    var ro := s.routines[s.futures[id]];
    var next := s.(control := Executing(Advance(s.control.pass, o)));
    if Live(ro) then next
    else if ro.value.Some? && ro.value.value.Reached? then
      Seen(next.(futures := s.futures - {id}), o, ro.value.value.state, s.clock)
    else next.(futures := s.futures - {id})
  }

  /** `SetCurrentState` on the object `o`. */
  function Seen(s: State, o: nat, report: JobState, at: int): (s': State)
    requires o < |s.objs|
  {
    var j' := Observe(s.objs[o], report, at);
    s.(objs := s.objs[o := j'], trace := TraceObserved(s.trace, o, s.objs[o], j', report, at))
  }

  predicate CanQuery(s: State) {
    s.control.Executing? && CanVisit(s, s.control.pass) && VisitedId(s, s.control.pass) !in s.futures
  }

  predicate CanReport(s: State, report: Option<JobState>, seen: int, decided: int) {
    && s.control.Awaiting? && CanVisit(s, s.control.pass) && s.len <= |s.backing|
    && (report.Some? ==> MapperState(report.value)) && s.clock <= seen <= decided
  }

  /** The end of a visit that asked the executor for the state: the report is recorded at time `seen`,
      the rest decided at time `decided`. */
  function DoReport(p: Platform, s: State, report: Option<JobState>, seen: int, decided: int): (s': State)
    requires CanReport(s, report, seen, decided)
  {
    if report.None? then DoLeave(s, decided)
    else DoDecide(p, Seen(s, Visited(s, s.control.pass), report.value, seen), decided)
  }

  function DoDecide(p: Platform, s: State, decided: int): (s': State)
    requires s.control.Awaiting? && CanVisit(s, s.control.pass) && s.len <= |s.backing|
  {
    match Choose(s.objs[Visited(s, s.control.pass)], decided)
    case Leave => DoLeave(s, decided)
    case Remove => DoRemove(s, decided)
    case Launch => DoLaunch(p, s, decided)
  }

  function DoLeave(s: State, decided: int): (s': State)
    requires s.control.Awaiting? && CanVisit(s, s.control.pass)
  {
    s.(clock := decided, control := Executing(Advance(s.control.pass, Visited(s, s.control.pass))))
  }

  /** A new goroutine, with its future. */
  function DoLaunch(p: Platform, s: State, decided: int): (s': State)
    requires s.control.Awaiting? && CanVisit(s, s.control.pass)
  {
    var o := Visited(s, s.control.pass);
    var j := s.objs[o];
    DoLeave(s, decided).(
      objs := s.objs[o := Launched(p, j, decided)],
      futures := s.futures[j.w.id := |s.routines|],
      routines := s.routines + [Routine(o, j.w.id, j.w.kind, Start, None)],
      trace := Snoc(s.trace, Started(o, |s.routines|, decided, j)))
  }

  /** `Store.Delete` during the pass: the array under the loop shifts. */
  function DoRemove(s: State, decided: int): (s': State)
    requires s.control.Awaiting? && CanVisit(s, s.control.pass) && s.len <= |s.backing|
  {
    var pass := s.control.pass;
    var id := VisitedId(s, pass);
    var at := IndexOf(s.objs, Stored(s), id);
    var next := DoLeave(s, decided).(futures := s.futures - {id});
    if at < s.len then
      var moved := MovedPast(s.backing, s.len, pass.i, at);
      next.(backing := ShiftDown(s.backing, at, s.len), len := s.len - 1,
            control := Executing(next.control.pass.(skipped := pass.skipped + moved, gone := pass.gone + {s.backing[at]})))
    else next
  }

  // ----- goroutines -----

  predicate CanRun(s: State, r: nat, reply: Reply) {
    && r < |s.routines| && s.routines[r].o < |s.objs| && Replies(s.routines[r].pc, reply)
    && (reply.Present? && s.routines[r].kind.Pod? ==> (reply.yes <==> s.routines[r].id in s.pods))
  }

  function DoRun(s: State, r: nat, reply: Reply): (s': State)
    requires CanRun(s, r, reply)
  {
    var ro := s.routines[r];
    s.(routines := s.routines[r := NextRoutine(ro, s.objs[ro.o], reply)],
       pods := PodsAfter(s.pods, ro, reply),
       trace := if ro.pc.RunReady? then Snoc(s.trace, RunCalled(ro.o, r, ro.kind, ro.id in s.pods)) else s.trace)
  }

  /** A pod of this ID is being created. */
  ghost predicate Creating(s: State, id: string) {
    exists r :: 0 <= r < |s.routines| && s.routines[r].pc.InRun? && s.routines[r].id == id
  }

  /** Time passes; pods may vanish at any time, but one only appears during a `Run` call for it. */
  ghost predicate CanElapse(s: State, to: int, pods: set<string>) {
    s.clock <= to && forall id :: id in pods && id !in s.pods ==> Creating(s, id)
  }

  // ----- all steps -----

  /** The loop of the current message is at its end. */
  predicate CanReturn(s: State) {
    || (s.control.Marking? && s.control.todo == [])
    || (s.control.Evaluating? && s.control.at >= |Stored(s)|)
    || (s.control.Executing? && s.control.pass.i >= s.control.pass.n)
  }

  ghost predicate Enabled(s: State, step: Step) {
    match step
    case ReceiveNone => s.control.Idle?
    case ReceiveConfig(wanted, toAdd, stale) => s.control.Idle? && ListsFresh(s, wanted, toAdd) && ListsStale(s, wanted, stale)
    case AddJob => CanAdd(s)
    case Signal => s.control.Adding? && s.control.toAdd == []
    case MarkJob => CanMark(s)
    case ReceiveResults(rs, differ) => s.control.Idle? && (rs != s.results ==> differ)
    case BeginEvaluation => s.control.Idle? && s.pending
    case EvaluateJob => CanEvaluate(s)
    case BeginPass => s.control.Idle?
    case PollFuture => CanPoll(s)
    case QueryState => CanQuery(s)
    case TakeReport(report, seen, decided) => CanReport(s, report, seen, decided)
    case Return => CanReturn(s)
    case RunRoutine(r, reply) => CanRun(s, r, reply)
    case Elapse(to, pods) => CanElapse(s, to, pods)
  }

  ghost function Apply(p: Platform, s: State, step: Step): (s': State)
    requires Enabled(s, step)
  {
    match step
    case ReceiveNone => s.(control := Marking(Stored(s)), desired := {})
    case ReceiveConfig(wanted, toAdd, stale) => s.(control := Adding(toAdd, stale), desired := Wanted(p, s, wanted))
    case AddJob => DoAdd(p, s)
    case Signal => s.(pending := true, control := Marking(s.control.stale))
    case MarkJob => DoMark(s)
    case ReceiveResults(rs, differ) => s.(results := rs, pending := s.pending || differ)
    case BeginEvaluation => s.(pending := false, control := Evaluating(0))
    case EvaluateJob => DoEvaluate(s)
    case BeginPass => s.(control := Executing(Pass(0, |Stored(s)|, Stored(s), {}, {}, {})))
    case PollFuture => DoPoll(s)
    case QueryState => s.(control := Awaiting(s.control.pass))
    case TakeReport(report, seen, decided) => DoReport(p, s, report, seen, decided)
    case Return => s.(control := Idle)
    case RunRoutine(r, reply) => DoRun(s, r, reply)
    case Elapse(to, pods) => s.(clock := to, pods := pods)
  }

  /** Time and the pods are what the environment says. */
  lemma EnvironmentSteps(p: Platform, s: State, to: int, pods: set<string>, r: nat, reply: Reply)
    ensures CanElapse(s, to, pods) ==> Apply(p, s, Elapse(to, pods)) == s.(clock := to, pods := pods)
    ensures CanRun(s, r, reply) && s.routines[r].pc.InRun? && reply.Done? ==> s.routines[r].id in Apply(p, s, RunRoutine(r, reply)).pods
    ensures CanRun(s, r, reply) && s.routines[r].pc.InRemove? && reply.Done? ==> s.routines[r].id !in Apply(p, s, RunRoutine(r, reply)).pods
  {}
}
