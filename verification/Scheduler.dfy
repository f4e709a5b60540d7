/** The message handlers of the scheduler loop on the job objects themselves
    (internal/scheduler/scheduler.go `run`, internal/scheduler/util.go, internal/entity/future.go). */
module Schedulers {
  import opened Wrappers
  import opened Profiles
  import opened Activation
  import opened Jobs
  import opened Slices
  import opened Stores
  import opened Machine
  import opened InFlight
  import opened Visits

  // ----- substract -----

  function LastKey<S>(a: seq<S>, key: S -> string, id: string): (x: Option<S>)
    ensures x.Some? ==> x.value in a && key(x.value) == id
    ensures x.None? ==> forall i :: 0 <= i < |a| ==> key(a[i]) != id
  {
    if a == [] then None
    else if key(a[|a| - 1]) == id then Some(a[|a| - 1])
    else LastKey(a[..|a| - 1], key, id)
  }

  /** Of several elements with the key the last one is found. */
  lemma {:induction false} LastKeyIsLast<S>(a: seq<S>, key: S -> string, i: nat)
    requires i < |a| && forall j :: i < j < |a| ==> key(a[j]) != key(a[i])
    ensures LastKey(a, key, key(a[i])) == Some(a[i])
  {
    if i < |a| - 1 {
      LastKeyIsLast(a[..|a| - 1], key, i);
    }
  }

  /** `res` has, for every key of `a` that `b` does not have, the last element with it, once. */
  ghost predicate IsDifference<S, T>(a: seq<S>, keyA: S -> string, b: seq<T>, keyB: T -> string, res: seq<S>) {
    && (forall i :: 0 <= i < |res| ==>
          LastKey(a, keyA, keyA(res[i])) == Some(res[i]) && LastKey(b, keyB, keyA(res[i])).None?)
    && (forall i, j :: 0 <= i < j < |res| ==> keyA(res[i]) != keyA(res[j]))
    && (forall k :: 0 <= k < |a| && LastKey(b, keyB, keyA(a[k])).None? ==> exists i :: 0 <= i < |res| && keyA(res[i]) == keyA(a[k]))
  }

  /** The map holds the last element of `a` for every key. */
  ghost predicate Indexes<S>(m: map<string, S>, a: seq<S>, key: S -> string) {
    forall id :: (id in m <==> LastKey(a, key, id).Some?) && (id in m ==> LastKey(a, key, id) == Some(m[id]))
  }

  lemma IndexSnoc<S>(m: map<string, S>, a: seq<S>, key: S -> string, i: nat)
    requires i < |a| && Indexes(m, a[..i], key)
    ensures Indexes(m[key(a[i]) := a[i]], a[..i + 1], key)
  {
    assert a[..i + 1][..i] == a[..i];
  }

  /** The two maps that `substract` fills in one loop. */
  method FillMaps<S, T>(a: seq<S>, keyA: S -> string, b: seq<T>, keyB: T -> string)
    returns (m1: map<string, S>, m2: map<string, T>)
    ensures Indexes(m1, a, keyA) && Indexes(m2, b, keyB)
  {
    m1, m2 := map[], map[];
    var limit := if |a| < |b| then |b| else |a|;
    for i := 0 to limit
      invariant Indexes(m1, a[..if i < |a| then i else |a|], keyA)
      invariant Indexes(m2, b[..if i < |b| then i else |b|], keyB)
    {
      if i < |a| {
        IndexSnoc(m1, a, keyA, i);
        m1 := m1[keyA(a[i]) := a[i]];
      }
      if i < |b| {
        IndexSnoc(m2, b, keyB, i);
        m2 := m2[keyB(b[i]) := b[i]];
      }
    }
    assert a[..|a|] == a && b[..|b|] == b;
  }

  /** `substract`: the elements of `a` that are not found in `b`, in the order of a map iteration. */
  method Substract<S, T>(a: seq<S>, keyA: S -> string, b: seq<T>, keyB: T -> string) returns (res: seq<S>)
    ensures IsDifference(a, keyA, b, keyB, res)
  {
    var m1, m2 := FillMaps(a, keyA, b, keyB);
    res := [];
    var left := m1.Keys;
    while left != {}
      invariant left <= m1.Keys
      invariant forall i :: 0 <= i < |res| ==>
                  keyA(res[i]) in m1 && keyA(res[i]) !in left && m1[keyA(res[i])] == res[i] && keyA(res[i]) !in m2
      invariant forall i, j :: 0 <= i < j < |res| ==> keyA(res[i]) != keyA(res[j])
      invariant forall id :: id in m1 && id !in left && id !in m2 ==> exists i :: 0 <= i < |res| && keyA(res[i]) == id
      decreases left
    {
      var id :| id in left;
      if id !in m2 {
        ghost var before := res;
        assert keyA(m1[id]) == id;
        res := res + [m1[id]];
        assert keyA(res[|before|]) == id;
        assert forall i :: 0 <= i < |before| ==> res[i] == before[i];
      }
      left := left - {id};
    }
  }

  function WorkloadKey(w: Workload): (id: string) {
    w.id
  }

  /** The ID of a numbered job object. */
  function ObjectKey(objs: seq<JobView>): (key: nat -> string) {
    (o: nat) => if o < |objs| then objs[o].w.id else ""
  }

  lemma {:induction false} LastKeyIsLastWith(ws: seq<Workload>, id: string)
    ensures LastKey(ws, WorkloadKey, id) == LastWith(ws, id)
  {
    if ws != [] {
      LastKeyIsLastWith(ws[..|ws| - 1], id);
    }
  }

  lemma StoredKey(s: State, id: string)
    requires StoreInv(s)
    ensures LastKey(Stored(s), ObjectKey(s.objs), id).Some? <==> HasId(s, id)
  {}

  /** Subtracting the stored jobs from the desired workloads gives the workloads to add, as the step
      machine takes them. */
  lemma DifferenceIsFresh(s: State, desired: seq<Workload>, res: seq<Workload>)
    requires StoreInv(s) && IsDifference(desired, WorkloadKey, Stored(s), ObjectKey(s.objs), res)
    ensures ListsFresh(s, desired, res)
  {
    forall i | 0 <= i < |res|
      ensures LastWith(desired, res[i].id) == Some(res[i]) && !HasId(s, res[i].id)
    {
      LastKeyIsLastWith(desired, res[i].id);
      StoredKey(s, res[i].id);
    }
    assert forall i, j :: 0 <= i < j < |res| ==> WorkloadKey(res[i]) != WorkloadKey(res[j]);
    forall w | w in desired && !HasId(s, w.id)
      ensures exists i :: 0 <= i < |res| && res[i].id == w.id
    {
      var k :| 0 <= k < |desired| && desired[k] == w;
      StoredKey(s, w.id);
      var i :| 0 <= i < |res| && WorkloadKey(res[i]) == WorkloadKey(desired[k]);
      assert res[i].id == w.id;
    }
  }

  /** Subtracting the desired workloads from the stored jobs gives the jobs to mark. */
  lemma DifferenceIsStale(s: State, desired: seq<Workload>, res: seq<nat>)
    requires StoreInv(s) && IsDifference(Stored(s), ObjectKey(s.objs), desired, WorkloadKey, res)
    ensures ListsStale(s, desired, res)
  {
    var key := ObjectKey(s.objs);
    forall o: nat
      ensures o in res <==> o in Stored(s) && o < |s.objs| && LastWith(desired, s.objs[o].w.id).None?
    {
      if o in res {
        var i :| 0 <= i < |res| && res[i] == o;
        assert LastKey(Stored(s), key, key(res[i])) == Some(res[i]);
        LastKeyIsLastWith(desired, key(o));
      }
      if o in Stored(s) && o < |s.objs| && LastWith(desired, s.objs[o].w.id).None? {
        StaleIsListed(s, desired, res, o);
      }
    }
  }

  lemma StaleIsListed(s: State, desired: seq<Workload>, res: seq<nat>, o: nat)
    requires StoreInv(s) && IsDifference(Stored(s), ObjectKey(s.objs), desired, WorkloadKey, res)
    requires o in Stored(s) && o < |s.objs| && LastWith(desired, s.objs[o].w.id).None?
    ensures o in res
  {
    var key := ObjectKey(s.objs);
    var k :| 0 <= k < |Stored(s)| && Stored(s)[k] == o;
    LastKeyIsLastWith(desired, key(o));
    var i :| 0 <= i < |res| && key(res[i]) == key(Stored(s)[k]);
    assert LastKey(Stored(s), key, key(res[i])) == Some(res[i]);
    var j :| 0 <= j < |Stored(s)| && Stored(s)[j] == res[i];
    assert s.objs[Stored(s)[j]].w.id == s.objs[Stored(s)[k]].w.id;
    assert j == k;
  }

  // ----- futures -----

  /** A future and the goroutine that fills it from the channel. */
  class Future {
    var value: Option<SyncResult>
    var inputClosed: bool

    function View(): (v: FutureView)
      reads this
    {
      FutureView(inputClosed, value)
    }

    constructor ()
      ensures value.None? && !inputClosed
    {
      value, inputClosed := None, false;
    }

    /** Drain the channel: every message overwrites the value, and closing comes last. */
    method Drain(input: seq<SyncResult>)
      requires !inputClosed
      modifies this
      ensures inputClosed
      ensures value == if input == [] then old(value) else Some(input[|input| - 1])
    {
      for i := 0 to |input|
        invariant value == if i == 0 then old(value) else Some(input[i - 1])
        invariant !inputClosed
      {
        value := Some(input[i]);
      }
      inputClosed := true;
    }

    method Poll() returns (v: Option<SyncResult>, resolved: bool)
      ensures resolved == inputClosed
      ensures v == if resolved then value else None
    {
      if inputClosed {
        return value, true;
      }
      return None, false;
    }
  }

  // ----- message handlers -----

  ghost predicate DistinctJobIds(jobs: seq<Job>) {
    forall i, j :: 0 <= i < j < |jobs| ==> jobs[i].w.id != jobs[j].w.id
  }

  // ----- a pass as a sequence of visits -----

  /** What the executor and the clock say in the iterations of a pass. */
  type Answers = nat -> Answer

  /** What a pass can see and change: the array of the store and its length, the jobs and the futures. */
  datatype Frame = Frame(places: seq<Job>, len: nat, views: map<Job, JobView>, futures: map<string, FutureView>)

  /** `Store.Delete` has looked through the first `len` jobs for the ID and found it at `at`, or not at all. */
  ghost predicate DeletedAt(places: seq<Job>, len: nat, id: string, at: nat, places': seq<Job>, len': nat) {
    && at <= len <= |places| && (forall k :: 0 <= k < at ==> places[k].w.id != id)
    && if at < len then places[at].w.id == id && places' == ShiftDown(places, at, len) && len' == len - 1
       else places' == places && len' == len
  }

  ghost predicate Deleted(places: seq<Job>, len: nat, id: string, places': seq<Job>, len': nat) {
    exists at :: DeletedAt(places, len, id, at, places', len')
  }

  /** Iteration `i` of the pass: the job in place `i` is visited, and deleted if the visit says so. */
  ghost predicate VisitsAt(p: Platform, f: Frame, f': Frame, i: nat, a: Answer) {
    && i < |f.places| && f.places[i] in f.views && f'.views.Keys == f.views.Keys
    && (forall j :: j in f.views && j != f.places[i] ==> f'.views[j] == f.views[j])
    && exists removed :: VisitsAndDeletes(p, f, f', f.places[i], a, removed)
  }

  ghost predicate VisitsAndDeletes(p: Platform, f: Frame, f': Frame, j: Job, a: Answer, removed: bool)
    requires j in f.views && j in f'.views
  {
    && VisitsJob(p, f.views[j], f.futures, a, f'.views[j], f'.futures, removed)
    && if removed then Deleted(f.places, f.len, j.w.id, f'.places, f'.len)
       else f'.places == f.places && f'.len == f.len
  }

  /** The frames lead through a whole pass of `n` iterations. */
  ghost predicate IsPass(p: Platform, frames: seq<Frame>, n: nat, answers: Answers) {
    && |frames| == n + 1
    && (n > 0 ==> IsPass(p, frames[..n], n - 1, answers) && VisitsAt(p, frames[n - 1], frames[n], n - 1, answers(n - 1)))
  }

  /** The jobs visited, in the iterations that end with a frame. */
  ghost function VisitedOf(frames: seq<Frame>): (js: set<Job>) {
    if |frames| <= 1 then {} else VisitedOf(frames[..|frames| - 1]) + VisitedLast(frames)
  }

  ghost function VisitedLast(frames: seq<Frame>): (js: set<Job>)
    requires |frames| > 1
  {
    var i := |frames| - 2;
    if i < |frames[i].places| then {frames[i].places[i]} else {}
  }

  /** Those among them whose visit took a job out of the store. */
  ghost function GoneOf(frames: seq<Frame>): (js: set<Job>) {
    if |frames| <= 1 then {}
    else GoneOf(frames[..|frames| - 1]) + if frames[|frames| - 1].len < frames[|frames| - 2].len then VisitedLast(frames) else {}
  }

  /** Every iteration of a pass is a visit. */
  lemma {:induction false} EveryVisit(p: Platform, frames: seq<Frame>, n: nat, answers: Answers, i: nat)
    requires IsPass(p, frames, n, answers) && i < n
    ensures VisitsAt(p, frames[i], frames[i + 1], i, answers(i))
  {
    if i < n - 1 {
      EveryVisit(p, frames[..n], n - 1, answers, i);
    }
  }

  /** Exactly when a visit takes a job out of the store: the job is there, marked, has no future, and the executor
      reports Exited, or Unknown while it is not Inactive. */
  lemma LeavesIff(p: Platform, f: Frame, f': Frame, i: nat, a: Answer)
    requires VisitsAt(p, f, f', i, a) && f.len <= |f.places| && f.views[f.places[i]].w == f.places[i].w
    requires var j := f.views[f.places[i]]; (j.marked ==> j.target.Exited?) && (a.report.Some? ==> MapperState(a.report.value))
    ensures var j := f.views[f.places[i]];
            f'.len < f.len <==>
              && (exists k :: 0 <= k < f.len && f.places[k].w.id == j.w.id) && j.marked && j.w.id !in f.futures
              && (a.report == Some(Exited) || (a.report == Some(Unknown) && !j.current.Inactive?))
  {
    var o := f.places[i];
    var removed :| VisitsAndDeletes(p, f, f', o, a, removed);
    RemovedIff(p, f.views[o], f.futures, a, f'.views[o], f'.futures, removed);
    if removed {
      var at :| DeletedAt(f.places, f.len, o.w.id, at, f'.places, f'.len);
    }
  }

  /** The jobs of a list as they are. */
  ghost function Views(jobs: seq<Job>): (views: map<Job, JobView>)
    reads jobs
  {
    map j | j in jobs :: j.View()
  }

  class Scheduler {
    const p: Platform
    const store: Store
    var futures: map<string, Future>
    var results: seq<ProfileResult>
    var pending: bool

    ghost predicate Valid()
      reads this, store, store.data
    {
      store.Valid() && DistinctJobIds(store.Contents())
    }

    ghost function Jobs(): (s: seq<Job>)
      requires Valid()
      reads this, store, store.data
    {
      store.Contents()
    }

    /** The futures as the scheduler sees them. */
    ghost function Pending(): (fs: map<string, FutureView>)
      reads this, futures.Values
    {
      map id | id in futures :: futures[id].View()
    }

    ghost function Snapshot(start: seq<Job>): (f: Frame)
      requires store.Valid()
      reads this, store, store.data, start, futures.Values
    {
      Frame(store.data[..], store.len, Views(start), Pending())
    }

    constructor (p: Platform)
      ensures Valid() && fresh(store) && fresh(store.data) && Jobs() == [] && futures == map[] && results == [] && !pending
    {
      this.p := p;
      store := new Store();
      futures, results, pending := map[], [], false;
    }

    /** A message without workloads: every job is marked. */
    method ReceiveNone()
      requires Valid()
      modifies store.data[..store.len]
      ensures Valid() && Jobs() == old(Jobs())
      ensures forall j | j in Jobs() :: j.View() == Mark(old(j.View()))
    {
      var list, n := store.ToList();
      MarkAll(list[..n]);
    }

    static method MarkAll(jobs: seq<Job>)
      requires DistinctJobIds(jobs)
      modifies jobs
      ensures forall j | j in jobs :: j.View() == Mark(old(j.View()))
    {
      for i := 0 to |jobs|
        invariant forall k :: 0 <= k < i ==> jobs[k].View() == Mark(old(jobs[k].View()))
        invariant forall k :: i <= k < |jobs| ==> jobs[k].View() == old(jobs[k].View())
      {
        assert forall k :: 0 <= k < |jobs| && k != i ==> jobs[k].w.id != jobs[i].w.id;
        jobs[i].MarkForDeletion();
        jobs[i].SetTargetState(Exited);
      }
    }

    /** New profile results: an evaluation is due unless they are deeply equal to the present ones. */
    method ReceiveResults(rs: seq<ProfileResult>)
      modifies this`results, this`pending
      ensures results == rs && (pending <==> old(pending) || rs != old(results))
    {
      if rs == results {
        return;
      }
      results := rs;
      pending := true;
    }

    /** The evaluation branch: every unmarked job gets the target that the results ask for. */
    method EvaluationPass()
      requires Valid()
      modifies this`pending, store.data[..store.len]
      ensures Valid() && Jobs() == old(Jobs()) && !pending
      ensures forall j | j in Jobs() ::
                j.View() == if old(j.View()).marked then old(j.View())
                            else old(j.View()).(target := if IsActive(j.w.profiles, results) then Running else Inactive)
    {
      pending := false;
      var list, n := store.ToList();
      EvaluateAll(list[..n], results);
    }

    static method EvaluateAll(jobs: seq<Job>, rs: seq<ProfileResult>)
      requires DistinctJobIds(jobs)
      modifies jobs
      ensures forall j | j in jobs ::
                j.View() == if old(j.View()).marked then old(j.View()) else SetTarget(old(j.View()), Desired(j.w, rs))
    {
      for i := 0 to |jobs|
        invariant forall k :: 0 <= k < i ==>
                    jobs[k].View() == if old(jobs[k].View()).marked then old(jobs[k].View()) else SetTarget(old(jobs[k].View()), Desired(jobs[k].w, rs))
        invariant forall k :: i <= k < |jobs| ==> jobs[k].View() == old(jobs[k].View())
      {
        assert forall k :: 0 <= k < |jobs| && k != i ==> jobs[k].w.id != jobs[i].w.id;
        if !jobs[i].markedForDeletion {
          var e := EvaluateWorkload(jobs[i].w.profiles, rs);
          jobs[i].SetTargetState(if e.active then Running else Inactive);
        }
      }
    }

    /** The new workloads: a job for each of them whose cron specification parses. */
    method AddAll(toAdd: seq<Workload>, now: int) returns (ghost added: seq<Job>)
      requires Valid() && AreNew(toAdd, Jobs())
      modifies store, store.data
      ensures Valid() && Jobs() == old(Jobs()) + added
      ensures forall i :: 0 <= i < |added| ==>
                fresh(added[i]) && added[i].w in toAdd && CreateJob(p, added[i].w, now) == Some(added[i].View())
      ensures AddsAll(p, toAdd, added)
    {
      added := [];
      for n := 0 to |toAdd|
        invariant Valid() && (store.data == old(store.data) || fresh(store.data))
        invariant Jobs() == old(Jobs()) + added
        invariant forall i :: 0 <= i < |added| ==>
                    fresh(added[i]) && added[i].w in toAdd[..n] && CreateJob(p, added[i].w, now) == Some(added[i].View())
        invariant AddsAll(p, toAdd[..n], added)
      {
        assert toAdd[..n + 1] == toAdd[..n] + [toAdd[n]];
        var j := Job.Build(p, toAdd[n], now);
        if j.Some? {
          ghost var jobs := Jobs();
          NewIdIsNew(toAdd, old(Jobs()), added, n);
          store.Add(j.value);
          AddedIsDistinct(jobs, j.value);
          ghost var before := added;
          added := added + [j.value];
          AddsNext(p, toAdd[..n], before, toAdd[n], j.value);
        }
      }
      assert toAdd[..|toAdd|] == toAdd;
    }

    /** Marks for the jobs that are not desired. */
    static method MarkUndesired(jobs: seq<Job>, desired: seq<Workload>, toRemove: seq<Job>)
      requires DistinctJobIds(jobs) && IsDifference(jobs, JobKey, desired, WorkloadKey, toRemove)
      modifies toRemove
      ensures forall j | j in jobs ::
                j.View() == if LastKey(desired, WorkloadKey, j.w.id).Some? then old(j.View()) else Mark(old(j.View()))
    {
      assert forall i :: 0 <= i < |toRemove| ==> LastKey(jobs, JobKey, JobKey(toRemove[i])) == Some(toRemove[i]);
      MarkAll(toRemove);
      RemovedIffUndesired(jobs, desired, toRemove);
    }

    /** A configuration message: jobs for the new workloads, marks for the jobs no longer desired, and an
        evaluation of the profiles. */
    method ReceiveConfig(desired: seq<Workload>, now: int) returns (ghost added: seq<Job>)
      requires Valid()
      modifies this`pending, store, store.data, store.data[..store.len]
      ensures Valid() && pending && Jobs() == old(Jobs()) + added
      ensures forall j | j in old(Jobs()) ::
                j.View() == if LastKey(desired, WorkloadKey, j.w.id).Some? then old(j.View()) else Mark(old(j.View()))
      ensures forall i :: 0 <= i < |added| ==>
                fresh(added[i]) && CreateJob(p, added[i].w, now) == Some(added[i].View())
      ensures AddsExactly(p, desired, old(Jobs()), added)
    {
      var list, n := store.ToList();
      var jobs := list[..n];
      var toRemove := Substract(jobs, JobKey, desired, WorkloadKey);
      var toAdd := Substract(desired, WorkloadKey, jobs, JobKey);
      DifferenceIsNew(desired, jobs, toAdd);
      added := AddAll(toAdd, now);
      AddedIffWanted(p, desired, jobs, toAdd, added);
      pending := true;
      RemovedWereThere(jobs, desired, toRemove);
      MarkUndesired(jobs, desired, toRemove);
    }

    /** The future of the job: its state if it is resolved. */
    method PollJob(j: Job, polled: int)
      requires j.w.id in futures
      modifies this`futures, j
      ensures Polls(old(j.View()), old(Pending()), polled, j.View(), Pending())
      ensures j.target == old(j.target) && j.markedForDeletion == old(j.markedForDeletion)
    {
      var v, resolved := futures[j.w.id].Poll();
      if resolved {
        if v.Some? && v.value.Reached? {
          j.SetCurrentState(v.value.state, polled);
        }
        futures := futures - {j.w.id};
      }
    }

    /** One visit: poll the future if there is one, otherwise ask for the state and decide. */
    method VisitJob(j: Job, a: Answer) returns (removed: bool)
      modifies this`futures, j
      ensures VisitsJob(p, old(j.View()), old(Pending()), a, j.View(), Pending(), removed)
      ensures j.target == old(j.target) && j.markedForDeletion == old(j.markedForDeletion)
      ensures removed ==> j.markedForDeletion
    {
      removed := false;
      if j.w.id in futures {
        PollJob(j, a.polled);
        return;
      }
      if a.report.None? {
        return;
      }
      j.SetCurrentState(a.report.value, a.seen);
      var choice := j.Gate(p, a.decided);
      if choice.Remove? {
        futures := futures - {j.w.id};
        return true;
      }
      if choice.Launch? {
        var future := new Future();
        futures := futures[j.w.id := future];
      }
    }

    /** The visit of one of the jobs that were there at the start of the pass. */
    method VisitInPass(j: Job, a: Answer, ghost start: seq<Job>) returns (removed: bool)
      requires j in start
      modifies this`futures, j
      ensures VisitsJob(p, old(j.View()), old(Pending()), a, j.View(), Pending(), removed)
      ensures Views(start) == old(Views(start))[j := j.View()]
    {
      removed := VisitJob(j, a);
    }

    /** One iteration of the pass: the job is read from the shared array, visited, and perhaps deleted. */
    method PassStep(list: array<Job>, i: nat, n: nat, a: Answer, ghost start: seq<Job>, ghost f: Frame, ghost visited: set<Job>, ghost skipped: set<Job>, ghost gone: set<Job>)
      returns (ghost skipped': set<Job>)
      requires store.Valid() && store.data == list && i < n && f == Snapshot(start)
      requires LoopOk(list[..], store.len, i, n, start, visited, skipped, gone)
      modifies this`futures, store, list, list[i]
      ensures store.Valid() && store.data == list
      ensures VisitsAt(p, f, Snapshot(start), i, a)
      ensures LoopOk(list[..], store.len, i + 1, n, start, visited + {f.places[i]}, skipped',
                     if store.len < f.len then gone + {f.places[i]} else gone)
    {
      var j := list[i];
      var removed := VisitInPass(j, a, start);
      assert list[..] == f.places && store.len == f.len;
      ghost var views, pending := Views(start), Pending();
      assert views == f.views[j := views[j]] && VisitsJob(p, f.views[j], f.futures, a, views[j], pending, removed);
      skipped' := DropVisited(list, i, n, removed, start, visited, skipped, gone);
      VisitThenDelete(p, f, views, pending, Snapshot(start), i, a, removed);
    }

    /** Deleting a job from the store changes neither jobs nor futures. */
    method DeleteJob(id: string, ghost start: seq<Job>) returns (at: nat)
      requires store.Valid()
      modifies store, store.data
      ensures store.Valid() && store.data == old(store.data)
      ensures DeletedAt(old(store.data[..]), old(store.len), id, at, store.data[..], store.len)
      ensures Views(start) == old(Views(start)) && Pending() == old(Pending())
    {
      at := store.Delete(id);
    }

    /** If the visited job is to be removed it is deleted from the store, and so from the array under the loop. */
    method DropVisited(list: array<Job>, i: nat, n: nat, removed: bool, ghost start: seq<Job>, ghost visited: set<Job>, ghost skipped: set<Job>, ghost gone: set<Job>)
      returns (ghost skipped': set<Job>)
      requires store.Valid() && store.data == list && i < n
      requires LoopOk(list[..], store.len, i, n, start, visited, skipped, gone)
      modifies store, list
      ensures store.Valid() && store.data == list
      ensures if removed then Deleted(old(list[..]), old(store.len), old(list[i]).w.id, list[..], store.len)
              else list[..] == old(list[..]) && store.len == old(store.len)
      ensures Views(start) == old(Views(start)) && Pending() == old(Pending())
      ensures LoopOk(list[..], store.len, i + 1, n, start, visited + {old(list[i])}, skipped',
                     if store.len < old(store.len) then gone + {old(list[i])} else gone)
    {
      ghost var b, len := list[..], store.len;
      skipped' := skipped;
      if !removed {
        LoopVisits(b, len, i, n, start, visited, skipped, gone);
        return;
      }
      var at := DeleteJob(list[i].w.id, start);
      if at < len {
        LoopRemoves(b, len, i, n, start, visited, skipped, gone, at);
        skipped' := skipped + MovedPast(b, len, i, at);
      } else {
        LoopVisits(b, len, i, n, start, visited, skipped, gone);
      }
    }

    /** The loop of the pass over the slice `list[..n]`. */
    method VisitAll(list: array<Job>, n: nat, answers: Answers, ghost start: seq<Job>, ghost first: Frame) returns (ghost frames: seq<Frame>)
      requires store.Valid() && store.data == list && store.len == n && start == list[..n] && DistinctJobIds(start) && first == Snapshot(start)
      modifies this`futures, store, list, start
      ensures store.Valid() && store.data == list
      ensures IsPass(p, frames, n, answers) && frames[0] == first && frames[n] == Snapshot(start)
      ensures LoopDone(store.Contents(), start, VisitedOf(frames), GoneOf(frames))
    {
      ghost var skipped: set<Job> := {};
      frames := [first];
      LoopBegins(start, list[..]);
      for i := 0 to n
        invariant store.Valid() && store.data == list
        invariant PassAt(p, frames, i, n, answers, first, start, skipped) && frames[i] == Snapshot(start)
      {
        ghost var f := frames[i];
        skipped := PassStep(list, i, n, answers(i), start, f, VisitedOf(frames), skipped, GoneOf(frames));
        ghost var f' := Snapshot(start);
        PassGoesOn(p, frames, f', i, n, answers, first, start, skipped);
        frames := frames + [f'];
      }
      LoopEnds(list[..], store.len, n, start, VisitedOf(frames), skipped, GoneOf(frames));
    }

    /** The execution branch: a loop over a slice of the store's own array, from which the loop deletes.  The
        pass is a sequence of visits, one for each place of the slice, in which the executor and the clock
        say what `answers` says. */
    method ExecutionPass(answers: Answers) returns (ghost frames: seq<Frame>)
      requires Valid()
      modifies this`futures, store, store.data, store.data[..store.len]
      ensures Valid() && store.data == old(store.data)
      ensures IsPass(p, frames, |old(Jobs())|, answers)
      ensures frames[0] == old(Snapshot(Jobs())) && frames[|frames| - 1] == Snapshot(old(Jobs()))
      ensures Jobs() == Without(old(Jobs()), GoneOf(frames))
      ensures forall j | j in GoneOf(frames) :: j in old(Jobs()) && j.markedForDeletion
      ensures forall j | j in old(Jobs()) :: j.target == old(j.target) && j.markedForDeletion == old(j.markedForDeletion)
      ensures forall j | j in VisitedOf(frames) :: j in old(Jobs())
      ensures |set j | j in old(Jobs()) && j !in VisitedOf(frames)| <= |GoneOf(frames)|
    {
      ghost var start, first := Jobs(), Snapshot(Jobs());
      var list, n := store.ToList();
      frames := VisitAll(list, n, answers, start, first);
      PassFacts(p, frames, n, answers, start);
      ghost var last := Snapshot(start);
      assert last.views == Views(start) && first.views == old(Views(start));
    }
  }

  /** The pass is at iteration `i`. */
  ghost predicate PassAt(p: Platform, frames: seq<Frame>, i: nat, n: nat, answers: Answers, first: Frame, start: seq<Job>, skipped: set<Job>) {
    && IsPass(p, frames, i, answers) && frames[0] == first
    && LoopOk(frames[i].places, frames[i].len, i, n, start, VisitedOf(frames), skipped, GoneOf(frames))
  }

  lemma PassGoesOn(p: Platform, frames: seq<Frame>, f': Frame, i: nat, n: nat, answers: Answers, first: Frame, start: seq<Job>, skipped': set<Job>)
    requires IsPass(p, frames, i, answers) && frames[0] == first && VisitsAt(p, frames[i], f', i, answers(i))
    requires LoopOk(f'.places, f'.len, i + 1, n, start, VisitedOf(frames) + {frames[i].places[i]}, skipped',
                    if f'.len < frames[i].len then GoneOf(frames) + {frames[i].places[i]} else GoneOf(frames))
    ensures PassAt(p, frames + [f'], i + 1, n, answers, first, start, skipped')
  {
    OneMoreVisit(p, frames, f', answers);
  }

  /** The loop is over: what is left in the store, and how many jobs were not visited. */
  ghost predicate LoopDone(left: seq<Job>, start: seq<Job>, visited: set<Job>, gone: set<Job>) {
    && left == Without(start, gone) && DistinctJobIds(left)
    && (forall j | j in gone :: j in start)
    && (forall j | j in visited :: j in start)
    && |set j | j in start && j !in visited| <= |gone|
  }

  lemma VisitThenDelete(p: Platform, f: Frame, views: map<Job, JobView>, futures: map<string, FutureView>, f': Frame, i: nat, a: Answer, removed: bool)
    requires i < |f.places| && f.places[i] in f.views && f.places[i] in views && views == f.views[f.places[i] := views[f.places[i]]]
    requires VisitsJob(p, f.views[f.places[i]], f.futures, a, views[f.places[i]], futures, removed)
    requires f'.views == views && f'.futures == futures
    requires if removed then Deleted(f.places, f.len, f.places[i].w.id, f'.places, f'.len)
             else f'.places == f.places && f'.len == f.len
    ensures VisitsAt(p, f, f', i, a)
  {
    assert VisitsAndDeletes(p, f, f', f.places[i], a, removed);
  }

  /** A visit changes neither workloads nor targets nor marks, and takes only marked jobs out of the store. */
  lemma VisitKeeps(p: Platform, f: Frame, f': Frame, i: nat, a: Answer, j: Job)
    requires VisitsAt(p, f, f', i, a) && j in f.views
    ensures j in f'.views && f'.views[j].w == f.views[j].w && f'.views[j].target == f.views[j].target && f'.views[j].marked == f.views[j].marked
    ensures f'.len < f.len && j == f.places[i] ==> f.views[j].marked
  {
    if j == f.places[i] {
      var removed :| VisitsAndDeletes(p, f, f', j, a, removed);
      if j.w.id !in f.futures && removed {
        RemoveIff(Observe(f.views[j], a.report.value, a.seen), a.decided);
      }
    }
  }

  lemma {:induction false} PassKeeps(p: Platform, frames: seq<Frame>, n: nat, answers: Answers, j: Job)
    requires IsPass(p, frames, n, answers) && j in frames[0].views
    ensures j in frames[n].views
    ensures frames[n].views[j].w == frames[0].views[j].w
    ensures frames[n].views[j].target == frames[0].views[j].target && frames[n].views[j].marked == frames[0].views[j].marked
  {
    if n > 0 {
      PassKeeps(p, frames[..n], n - 1, answers, j);
      VisitKeeps(p, frames[n - 1], frames[n], n - 1, answers(n - 1), j);
    }
  }

  /** The jobs that leave the store in a pass are marked. */
  lemma {:induction false} GoneWasMarked(p: Platform, frames: seq<Frame>, n: nat, answers: Answers, j: Job)
    requires IsPass(p, frames, n, answers) && j in GoneOf(frames) && j in frames[0].views
    ensures frames[0].views[j].marked
  {
    if j in GoneOf(frames[..n]) {
      GoneWasMarked(p, frames[..n], n - 1, answers, j);
    } else {
      PassKeeps(p, frames[..n], n - 1, answers, j);
      VisitKeeps(p, frames[n - 1], frames[n], n - 1, answers(n - 1), j);
    }
  }

  lemma PassFacts(p: Platform, frames: seq<Frame>, n: nat, answers: Answers, start: seq<Job>)
    requires IsPass(p, frames, n, answers) && (forall j :: j in frames[0].views <==> j in start) && (forall j | j in GoneOf(frames) :: j in start)
    ensures forall j | j in start ::
              j in frames[n].views && frames[n].views[j].target == frames[0].views[j].target && frames[n].views[j].marked == frames[0].views[j].marked
    ensures forall j | j in GoneOf(frames) :: j in frames[n].views && frames[n].views[j].marked
  {
    forall j | j in start
      ensures j in frames[n].views && frames[n].views[j].target == frames[0].views[j].target && frames[n].views[j].marked == frames[0].views[j].marked
    {
      PassKeeps(p, frames, n, answers, j);
    }
    forall j | j in GoneOf(frames)
      ensures frames[0].views[j].marked
    {
      GoneWasMarked(p, frames, n, answers, j);
    }
  }

  lemma OneMoreVisit(p: Platform, frames: seq<Frame>, f: Frame, answers: Answers)
    requires |frames| > 0 && IsPass(p, frames, |frames| - 1, answers)
    requires VisitsAt(p, frames[|frames| - 1], f, |frames| - 1, answers(|frames| - 1))
    ensures IsPass(p, frames + [f], |frames|, answers)
    ensures var i, last := |frames| - 1, frames[|frames| - 1];
            && VisitedOf(frames + [f]) == VisitedOf(frames) + {last.places[i]}
            && GoneOf(frames + [f]) == if f.len < last.len then GoneOf(frames) + {last.places[i]} else GoneOf(frames)
  {
    assert (frames + [f])[..|frames|] == frames;
  }

  /** The state of the loop over the array `b`: its first `len` elements are the store. */
  ghost predicate LoopOk(b: seq<Job>, len: nat, i: nat, n: nat, start: seq<Job>, visited: set<Job>, skipped: set<Job>, gone: set<Job>) {
    && len <= n == |start| <= |b| && i <= n && DistinctJobIds(start)
    && (forall k :: 0 <= k < n ==> b[k] in start)
    && b[..len] == Without(start, gone) && DistinctJobIds(b[..len])
    && Accounted(b, i, n, start, visited, skipped) && |skipped| <= |gone|
    && (forall j | j in gone :: j in start)
    && (forall j | j in visited :: j in start)
  }

  lemma LoopBegins(start: seq<Job>, b: seq<Job>)
    requires |start| <= |b| && start == b[..|start|] && DistinctJobIds(start)
    ensures LoopOk(b, |start|, 0, |start|, start, {}, {}, {})
  {
    WithoutNothing(start);
    assert b[0..|start|] == start;
  }

  lemma LoopVisits(b: seq<Job>, len: nat, i: nat, n: nat, start: seq<Job>, visited: set<Job>, skipped: set<Job>, gone: set<Job>)
    requires LoopOk(b, len, i, n, start, visited, skipped, gone) && i < n
    ensures LoopOk(b, len, i + 1, n, start, visited + {b[i]}, skipped, gone)
  {}

  lemma LoopRemoves(b: seq<Job>, len: nat, i: nat, n: nat, start: seq<Job>, visited: set<Job>, skipped: set<Job>, gone: set<Job>, at: nat)
    requires LoopOk(b, len, i, n, start, visited, skipped, gone) && i < n && at < len
    requires b[at].w.id == b[i].w.id && forall k :: 0 <= k < at ==> b[k].w.id != b[i].w.id
    ensures LoopOk(ShiftDown(b, at, len), len - 1, i + 1, n, start, visited + {b[i]}, skipped + MovedPast(b, len, i, at), gone + {b[i]})
  {
    FirstIsVisited(start, b, len, i, at);
    DistinctJobs(b[..len]);
    RemovalKeepsOrder(b, len, start, gone, at);
    RemovalAccounts(b, len, i, n, start, visited, skipped, at);
    SkippedCounts(b, len, start, i, at, skipped, gone);
    ShiftKeepsIds(b, len, at);
  }

  lemma LoopEnds(b: seq<Job>, len: nat, n: nat, start: seq<Job>, visited: set<Job>, skipped: set<Job>, gone: set<Job>)
    requires LoopOk(b, len, n, n, start, visited, skipped, gone)
    ensures LoopDone(b[..len], start, visited, gone)
  {
    UnvisitedWereSkipped(b, n, start, visited, skipped, set j | j in start && j !in visited);
  }

  lemma DistinctJobs(jobs: seq<Job>)
    requires DistinctJobIds(jobs)
    ensures Distinct(jobs)
  {}

  lemma ShiftKeepsIds(b: seq<Job>, len: nat, at: nat)
    requires at < len <= |b| && DistinctJobIds(b[..len])
    ensures DistinctJobIds(ShiftDown(b, at, len)[..len - 1])
  {}

  /** The job with the visited ID that is found first is the visited one. */
  lemma FirstIsVisited(start: seq<Job>, b: seq<Job>, len: nat, i: nat, at: nat)
    requires DistinctJobIds(start) && at < len <= |b| && i < |b|
    requires (forall k :: 0 <= k < len ==> b[k] in start) && b[i] in start
    requires b[at].w.id == b[i].w.id && forall k :: 0 <= k < at ==> b[k].w.id != b[i].w.id
    ensures b[at] == b[i] && at <= i
  {}

  function JobKey(j: Job): (id: string) {
    j.w.id
  }

  /** The workloads have distinct IDs, and none is that of a job. */
  ghost predicate AreNew(toAdd: seq<Workload>, jobs: seq<Job>) {
    && (forall i, j :: 0 <= i < j < |toAdd| ==> toAdd[i].id != toAdd[j].id)
    && (forall i, j :: 0 <= i < |toAdd| && 0 <= j < |jobs| ==> toAdd[i].id != jobs[j].w.id)
  }

  lemma NewIdIsNew(toAdd: seq<Workload>, jobs: seq<Job>, added: seq<Job>, n: nat)
    requires AreNew(toAdd, jobs) && n < |toAdd| && forall i :: 0 <= i < |added| ==> added[i].w in toAdd[..n]
    ensures forall k :: 0 <= k < |jobs + added| ==> (jobs + added)[k].w.id != toAdd[n].id
  {}

  lemma AddedIsDistinct(jobs: seq<Job>, j: Job)
    requires DistinctJobIds(jobs) && forall k :: 0 <= k < |jobs| ==> jobs[k].w.id != j.w.id
    ensures DistinctJobIds(jobs + [j])
  {}

  lemma DifferenceIsNew(desired: seq<Workload>, jobs: seq<Job>, res: seq<Workload>)
    requires IsDifference(desired, WorkloadKey, jobs, JobKey, res)
    ensures AreNew(res, jobs)
  {}

  /** Every workload of the list whose cron specification parses has its job. */
  ghost predicate AddsAll(p: Platform, toAdd: seq<Workload>, added: seq<Job>) {
    forall w | w in toAdd && CronParses(p, w) :: exists i :: 0 <= i < |added| && added[i].w == w
  }

  lemma AddsNext(p: Platform, toAdd: seq<Workload>, added: seq<Job>, w: Workload, j: Job)
    requires AddsAll(p, toAdd, added) && j.w == w
    ensures AddsAll(p, toAdd + [w], added + [j])
  {
    forall x | x in toAdd + [w] && CronParses(p, x)
      ensures exists i :: 0 <= i < |added + [j]| && (added + [j])[i].w == x
    {
      if x in toAdd {
        var i :| 0 <= i < |added| && added[i].w == x;
        assert (added + [j])[i].w == x;
      } else {
        assert (added + [j])[|added|].w == x;
      }
    }
  }

  /** New jobs exactly for the workloads that are last of their ID, not there yet, and whose cron
      specification parses. */
  ghost predicate AddsExactly(p: Platform, desired: seq<Workload>, jobs: seq<Job>, added: seq<Job>) {
    forall w: Workload ::
      (exists i :: 0 <= i < |added| && added[i].w == w) <==>
        LastKey(desired, WorkloadKey, w.id) == Some(w) && CronParses(p, w) && LastKey(jobs, JobKey, w.id).None?
  }

  lemma RemovedWereThere(jobs: seq<Job>, desired: seq<Workload>, res: seq<Job>)
    requires IsDifference(jobs, JobKey, desired, WorkloadKey, res)
    ensures forall j | j in res :: j in jobs
  {
    assert forall i :: 0 <= i < |res| ==> LastKey(jobs, JobKey, JobKey(res[i])) == Some(res[i]);
  }

  lemma RemovedIffUndesired(jobs: seq<Job>, desired: seq<Workload>, res: seq<Job>)
    requires DistinctJobIds(jobs) && IsDifference(jobs, JobKey, desired, WorkloadKey, res)
    ensures forall j | j in jobs :: j in res <==> LastKey(desired, WorkloadKey, j.w.id).None?
  {}

  lemma AddedIffWanted(p: Platform, desired: seq<Workload>, jobs: seq<Job>, res: seq<Workload>, added: seq<Job>)
    requires IsDifference(desired, WorkloadKey, jobs, JobKey, res)
    requires forall i :: 0 <= i < |added| ==> added[i].w in res && CronParses(p, added[i].w)
    requires AddsAll(p, res, added)
    ensures AddsExactly(p, desired, jobs, added)
  {
    forall w: Workload
      ensures w in res <==> LastKey(desired, WorkloadKey, w.id) == Some(w) && LastKey(jobs, JobKey, w.id).None?
    {
      ListedIffNew(desired, jobs, res, w);
    }
  }

  lemma ListedIffNew(desired: seq<Workload>, jobs: seq<Job>, res: seq<Workload>, w: Workload)
    requires IsDifference(desired, WorkloadKey, jobs, JobKey, res)
    ensures w in res <==> LastKey(desired, WorkloadKey, w.id) == Some(w) && LastKey(jobs, JobKey, w.id).None?
  {
    if w in res {
      var i :| 0 <= i < |res| && res[i] == w;
      assert LastKey(desired, WorkloadKey, WorkloadKey(res[i])) == Some(res[i]);
    }
    if LastKey(desired, WorkloadKey, w.id) == Some(w) && LastKey(jobs, JobKey, w.id).None? {
      var k :| 0 <= k < |desired| && desired[k] == w;
      var i :| 0 <= i < |res| && WorkloadKey(res[i]) == WorkloadKey(desired[k]);
      assert LastKey(desired, WorkloadKey, WorkloadKey(res[i])) == Some(res[i]);
    }
  }
}
