/** Jobs and their state rules (internal/entity/job.go, internal/entity/state.go, and the hooks that
    `createJob` in internal/scheduler/scheduler.go installs).

    Times are integers (nanoseconds).  The cron library is a parameter: which specifications parse, and
    the next instant of a schedule after a given time. */
module Jobs {
  import opened Wrappers
  import opened Activation
  import opened Profiles

  datatype JobState = Ready | Running | Stopped | Degraded | Exited | Error | Unknown | Inactive

  datatype Kind = Pod | K8s

  /** A workload; its ID is a stable value. */
  datatype Workload = Workload(id: string, kind: Kind, cron: string, profiles: seq<WorkloadProfile>)

  datatype Retry = Retry(marked: bool, next: int)

  datatype Cron = Cron(spec: string, next: int)

  /** The fields of a job. */
  datatype JobView = JobView(w: Workload, current: JobState, target: JobState, marked: bool,
                             cron: Option<Cron>, retry: Option<Retry>)

  datatype Platform = Platform(parses: string -> bool, next: (string, int) -> int)

  /** `WithConstantRetry(10 * time.Second)`. */
  const RETRY_INTERVAL: int := 10_000_000_000

  predicate ShouldRestart(j: JobView) {
    (j.current.Exited? || j.current.Unknown?) && j.target.Running?
  }

  /** `createJob`: a cron specification excludes the retry, and one that does not parse is an error. */
  function CreateJob(p: Platform, w: Workload, now: int): (j: Option<JobView>)
    ensures j.Some? <==> w.cron == "" || p.parses(w.cron)
    ensures j.Some? ==> j.value.w == w && !j.value.marked && j.value.current == j.value.target == Ready
    ensures j.Some? && w.cron != "" ==> j.value.cron == Some(Cron(w.cron, p.next(w.cron, now))) && j.value.retry.None?
    ensures j.Some? && w.cron == "" ==> j.value.cron.None? && j.value.retry == Some(Retry(false, now))
  {
    if w.cron == "" then Some(JobView(w, Ready, Ready, false, None, Some(Retry(false, now))))
    else if p.parses(w.cron) then Some(JobView(w, Ready, Ready, false, Some(Cron(w.cron, p.next(w.cron, now))), None))
    else None
  }

  /** The `PostSetCurrentState` hook. */
  function AfterObservation(j: JobView, s: JobState, now: int): (j': JobView)
    ensures j'.w == j.w && j'.current == j.current && j'.target == j.target && j'.marked == j.marked && j'.cron == j.cron
  {
    if j.retry.None? then j
    else
      var r := j.retry.value;
      var r' := if ShouldRestart(j) && !r.marked then Retry(true, now + RETRY_INTERVAL) else r;
      j.(retry := Some(if s.Running? then r'.(marked := false) else r'))
  }

  /** `SetCurrentState`. */
  function Observe(j: JobView, s: JobState, now: int): (j': JobView)
    ensures j'.w == j.w && j'.target == j.target && j'.marked == j.marked && j'.cron == j.cron
    ensures j'.retry.Some? <==> j.retry.Some?
  {
    if s.Unknown? && (j.current.Ready? || j.current.Inactive?) then j
    else if (s.Unknown? || s.Exited?) && j.target.Inactive? then j.(current := Inactive)
    else AfterObservation(j.(current := s), s, now)
  }

  function SetTarget(j: JobView, s: JobState): (j': JobView) {
    j.(target := s)
  }

  /** `MarkForDeletion` and the target that goes with it. */
  function Mark(j: JobView): (j': JobView) {
    j.(marked := true, target := Exited)
  }

  // ----- what the scheduler decides about a job whose state it has just learned -----

  /** `shouldReconcile`. */
  predicate ShouldReconcile(j: JobView) {
    || (j.target.Running? && (j.current.Ready? || j.current.Inactive? || j.current.Exited? || j.current.Unknown?))
    || ((j.target.Exited? || j.target.Inactive?) && j.current.Running?)
  }

  datatype Choice = Remove | Leave | Launch

  function Choose(j: JobView, now: int): (c: Choice) {
    if j.marked && (j.current.Unknown? || j.current.Exited? || j.current.Ready?) then Remove
    else if !ShouldReconcile(j) then Leave
    else if ShouldRestart(j) && j.retry.Some? && now <= j.retry.value.next then Leave
    else if j.target.Running? && j.cron.Some? && now <= j.cron.value.next then Leave
    else Launch
  }

  /** The job as it is launched: a cron moves on to its next instant. */
  function Launched(p: Platform, j: JobView, now: int): (j': JobView)
    ensures j'.w == j.w && j'.current == j.current && j'.target == j.target && j'.marked == j.marked && j'.retry == j.retry
  {
    if j.target.Running? && j.cron.Some? then j.(cron := Some(Cron(j.cron.value.spec, p.next(j.cron.value.spec, now))))
    else j
  }

  /** The state an evaluation of the profiles asks for. */
  ghost function Desired(w: Workload, rs: seq<ProfileResult>): (s: JobState)
    ensures s.Running? <==> IsActive(w.profiles, rs)
    ensures s.Inactive? <==> !IsActive(w.profiles, rs)
  {
    if IsActive(w.profiles, rs) then Running else Inactive
  }

  // ----- the rules, case by case -----

  /** When a report is not taken as it is: Unknown says nothing about a job that is Ready or Inactive, and a
      job that was stopped on purpose is Inactive when it is found gone. */
  lemma ObservedState(j: JobView, s: JobState, now: int)
    ensures s.Unknown? && (j.current.Ready? || j.current.Inactive?) ==> Observe(j, s, now) == j
    ensures (s.Exited? || (s.Unknown? && !j.current.Ready?)) && j.target.Inactive? ==> Observe(j, s, now) == j.(current := Inactive)
    ensures s.Exited? && !j.target.Inactive? ==> Observe(j, s, now).current.Exited?
    ensures s.Unknown? && !j.current.Ready? && !j.current.Inactive? && !j.target.Inactive? ==> Observe(j, s, now).current.Unknown?
    ensures !s.Unknown? && !s.Exited? ==> Observe(j, s, now).current == s
  {}

  /** The retry: the first failing report of a job that is to run sets its time, ten seconds later; only
      Running clears the mark, and no other report changes anything. */
  lemma ObservedRetry(j: JobView, s: JobState, now: int)
    requires j.retry.Some?
    ensures var j', r := Observe(j, s, now), j.retry.value;
            && (s.Running? ==> j'.retry == Some(Retry(false, r.next)))
            && (!s.Running? && j.target.Running? && (j'.current.Exited? || j'.current.Unknown?) && !r.marked &&
                !(s.Unknown? && (j.current.Ready? || j.current.Inactive?)) ==>
                  j'.retry == Some(Retry(true, now + 10_000_000_000)))
            && (!s.Running? && ((!s.Exited? && !s.Unknown?) || !j.target.Running? || r.marked) ==> j'.retry == j.retry)
  {}

  /** A job is removed exactly when it is marked and has stopped or never ran. */
  lemma RemoveIff(j: JobView, now: int)
    ensures Choose(j, now).Remove? <==> j.marked && (j.current.Unknown? || j.current.Exited? || j.current.Ready?)
  {}

  /** A reconciliation is launched exactly for a job that is not removed, is not running although it is to
      run or is running although it is to stop, and whose time has come: that of its retry if it has failed,
      and that of its cron if it is to run. */
  lemma LaunchIff(j: JobView, now: int)
    ensures Choose(j, now).Launch? <==>
              && !(j.marked && (j.current.Unknown? || j.current.Exited? || j.current.Ready?))
              && ((j.target.Running? && (j.current.Ready? || j.current.Inactive? || j.current.Exited? || j.current.Unknown?)) ||
                  ((j.target.Exited? || j.target.Inactive?) && j.current.Running?))
              && (j.target.Running? && (j.current.Exited? || j.current.Unknown?) && j.retry.Some? ==> now > j.retry.value.next)
              && (j.target.Running? && j.cron.Some? ==> now > j.cron.value.next)
  {}

  /** A launch to run moves the cron on to the next instant from now, and changes nothing else. */
  lemma LaunchedCron(p: Platform, j: JobView, now: int)
    ensures j.target.Running? && j.cron.Some? ==>
              Launched(p, j, now) == j.(cron := Some(Cron(j.cron.value.spec, p.next(j.cron.value.spec, now))))
    ensures !(j.target.Running? && j.cron.Some?) ==> Launched(p, j, now) == j
  {}

  // ----- the job object -----

  class Job {
    const w: Workload
    var current: JobState
    var target: JobState
    var markedForDeletion: bool
    var cron: Option<Cron>
    var retry: Option<Retry>

    function View(): (v: JobView)
      reads this
    {
      JobView(w, current, target, markedForDeletion, cron, retry)
    }

    constructor FromView(v: JobView)
      ensures View() == v
    {
      w, current, target, markedForDeletion, cron, retry := v.w, v.current, v.target, v.marked, v.cron, v.retry;
    }

    /** `Builder.Build` as `createJob` uses it. */
    static method Build(p: Platform, w: Workload, now: int) returns (j: Option<Job>)
      ensures j.Some? <==> CreateJob(p, w, now).Some?
      ensures j.Some? ==> fresh(j.value) && j.value.View() == CreateJob(p, w, now).value
    {
      if w.cron != "" {
        if !p.parses(w.cron) {
          return None;
        }
        var job := new Job.FromView(JobView(w, Ready, Ready, false, Some(Cron(w.cron, p.next(w.cron, now))), None));
        return Some(job);
      }
      var job := new Job.FromView(JobView(w, Ready, Ready, false, None, Some(Retry(false, now))));
      return Some(job);
    }

    method SetTargetState(s: JobState)
      modifies this
      ensures View() == SetTarget(old(View()), s)
    {
      target := s;
    }

    method MarkForDeletion()
      modifies this
      ensures View() == old(View()).(marked := true)
    {
      markedForDeletion := true;
    }

    method SetCurrentState(s: JobState, now: int)
      modifies this
      ensures View() == Observe(old(View()), s, now)
    {
      if s.Unknown? && (current.Ready? || current.Inactive?) {
        return;
      }
      if (s.Unknown? || s.Exited?) && target.Inactive? {
        current := Inactive;
        return;
      }
      current := s;
      // hook
      if (current.Exited? || current.Unknown?) && target.Running? && retry.Some? {
        if !retry.value.marked {
          retry := Some(Retry(true, now + RETRY_INTERVAL));
        }
      }
      if s.Running? && retry.Some? {
        retry := Some(retry.value.(marked := false));
      }
    }

    /** The tail of a visit in the execution pass, after the state report: whether a reconciliation is to
        be started, with the cron advanced if so. */
    method Gate(p: Platform, now: int) returns (c: Choice)
      modifies this
      ensures c == Choose(old(View()), now)
      ensures View() == if c.Launch? then Launched(p, old(View()), now) else old(View())
    {
      if markedForDeletion && (current.Unknown? || current.Exited? || current.Ready?) {
        return Remove;
      }
      if !ShouldReconcile(View()) {
        return Leave;
      }
      if ShouldRestart(View()) && retry.Some? {
        if now <= retry.value.next {
          return Leave;
        }
      }
      if target.Running? && cron.Some? {
        if now <= cron.value.next {
          return Leave;
        }
        cron := Some(Cron(cron.value.spec, p.next(cron.value.spec, now)));
      }
      return Launch;
    }
  }
}
