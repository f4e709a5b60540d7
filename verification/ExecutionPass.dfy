/** The execution pass loops over a slice of the store's backing array while `Store.Delete` shifts that
    array under it: what a whole pass visits, removes and leaves out. */
module ExecutionPass {
  import opened Wrappers
  import opened Jobs
  import opened Slices
  import opened Machine
  import opened InFlight

  ghost predicate PassOk(objs: seq<JobView>, backing: seq<nat>, len: nat, pass: Pass) {
    && len <= pass.n == |pass.start| <= |backing| && pass.i <= pass.n
    && ValidRefs(objs, pass.start) && DistinctIds(objs, pass.start)
    && (forall k :: 0 <= k < pass.n ==> backing[k] in pass.start)
    && backing[..len] == Without(pass.start, pass.gone)
    && (forall x :: x in pass.visited ==> x in pass.start)
    && (forall x :: x in pass.gone ==> x in pass.start && objs[x].marked)
    && Accounted(backing, pass.i, pass.n, pass.start, pass.visited, pass.skipped)
    && |pass.skipped| <= |pass.gone|
  }

  ghost predicate PassInv(s: State) {
    && (s.control.Executing? ==> PassOk(s.objs, s.backing, s.len, s.control.pass))
    && (s.control.Awaiting? ==> PassOk(s.objs, s.backing, s.len, s.control.pass) && s.control.pass.i < s.control.pass.n)
  }

  lemma BeginKeepsPass(s: State)
    requires StoreInv(s)
    ensures PassOk(s.objs, s.backing, s.len, Pass(0, |Stored(s)|, Stored(s), {}, {}, {}))
  {
    WithoutNothing(Stored(s));
  }

  /** Objects change without losing their workload or a mark. */
  lemma PassFrame(objs: seq<JobView>, objs': seq<JobView>, backing: seq<nat>, len: nat, pass: Pass)
    requires PassOk(objs, backing, len, pass) && SameWorkloads(objs, objs')
    requires forall o :: 0 <= o < |objs| && objs[o].marked ==> objs'[o].marked
    ensures PassOk(objs', backing, len, pass)
  {}

  lemma AdvanceKeepsPass(objs: seq<JobView>, backing: seq<nat>, len: nat, pass: Pass)
    requires PassOk(objs, backing, len, pass) && pass.i < pass.n
    ensures PassOk(objs, backing, len, Advance(pass, backing[pass.i]))
  {
    VisitAccounts(backing, pass.i, pass.n, pass.start, pass.visited, pass.skipped);
  }

  // ----- removal -----

  lemma SameIdSameRef(objs: seq<JobView>, refs: seq<nat>, x: nat, y: nat)
    requires ValidRefs(objs, refs) && DistinctIds(objs, refs) && x in refs && y in refs && objs[x].w.id == objs[y].w.id
    ensures x == y
  {}

  lemma DistinctRefs(objs: seq<JobView>, refs: seq<nat>)
    requires ValidRefs(objs, refs) && DistinctIds(objs, refs)
    ensures Distinct(refs)
  {}

  lemma IndexIsVisited(s: State)
    requires s.control.Awaiting? && CanVisit(s, s.control.pass) && StoreInv(s) && PassInv(s)
    ensures var at := IndexOf(s.objs, Stored(s), VisitedId(s, s.control.pass));
            at < s.len ==> at <= s.control.pass.i && s.backing[at] == Visited(s, s.control.pass)
  {
    var pass := s.control.pass;
    var o := Visited(s, pass);
    var at := IndexOf(s.objs, Stored(s), VisitedId(s, pass));
    if at < s.len {
      assert s.backing[at] == Stored(s)[at];
      SameIdSameRef(s.objs, pass.start, o, s.backing[at]);
      assert pass.i < s.len ==> Stored(s)[pass.i] == o;
    }
  }

  lemma RemovedPassOk(objs: seq<JobView>, backing: seq<nat>, len: nat, pass: Pass, at: nat)
    requires PassOk(objs, backing, len, pass) && StoreOk(objs, backing, len)
    requires at < len && at <= pass.i < pass.n && objs[backing[at]].marked
    ensures PassOk(objs, ShiftDown(backing, at, len), len - 1,
                   Advance(pass, backing[pass.i]).(
                     skipped := pass.skipped + MovedPast(backing, len, pass.i, at), gone := pass.gone + {backing[at]}))
  {
    DistinctRefs(objs, backing[..len]);
    RemovedLoop(backing, len, pass, at);
    ShiftedInStart(backing, len, pass, at);
    assert backing[at] in pass.start && backing[pass.i] in pass.start;
  }

  /** The account of the loop after a removal. */
  lemma RemovedLoop(backing: seq<nat>, len: nat, pass: Pass, at: nat)
    requires at < len <= pass.n <= |backing| && at <= pass.i < pass.n && Distinct(backing[..len])
    requires backing[..len] == Without(pass.start, pass.gone) && |pass.skipped| <= |pass.gone|
    requires Accounted(backing, pass.i, pass.n, pass.start, pass.visited, pass.skipped)
    ensures var b, skipped, gone := ShiftDown(backing, at, len), pass.skipped + MovedPast(backing, len, pass.i, at), pass.gone + {backing[at]};
            && b[..len - 1] == Without(pass.start, gone) && |skipped| <= |gone|
            && Accounted(b, pass.i + 1, pass.n, pass.start, pass.visited + {backing[pass.i]}, skipped)
  {
    RemovalKeepsOrder(backing, len, pass.start, pass.gone, at);
    RemovalAccounts(backing, len, pass.i, pass.n, pass.start, pass.visited, pass.skipped, at);
    SkippedCounts(backing, len, pass.start, pass.i, at, pass.skipped, pass.gone);
  }

  lemma RemoveKeepsPass(s: State, decided: int)
    requires s.control.Awaiting? && CanVisit(s, s.control.pass) && StoreInv(s) && PassInv(s)
    requires s.objs[Visited(s, s.control.pass)].marked
    ensures PassInv(DoRemove(s, decided))
  {
    var pass := s.control.pass;
    var at := IndexOf(s.objs, Stored(s), VisitedId(s, pass));
    IndexIsVisited(s);
    if at < s.len {
      RemovedPassOk(s.objs, s.backing, s.len, pass, at);
    } else {
      AdvanceKeepsPass(s.objs, s.backing, s.len, pass);
    }
  }

  lemma ShiftedInStart(backing: seq<nat>, len: nat, pass: Pass, at: nat)
    requires len <= pass.n <= |backing| && at < len
    requires forall k :: 0 <= k < pass.n ==> backing[k] in pass.start
    ensures forall k :: 0 <= k < pass.n ==> ShiftDown(backing, at, len)[k] in pass.start
  {}

  // ----- every step -----

  lemma SeenKeepsPass(s: State, o: nat, report: JobState, at: int)
    requires PassInv(s) && o < |s.objs|
    ensures PassInv(Seen(s, o, report, at))
  {}

  lemma LeaveKeepsPass(s: State, decided: int)
    requires s.control.Awaiting? && CanVisit(s, s.control.pass) && PassInv(s)
    ensures PassInv(DoLeave(s, decided))
  {
    AdvanceKeepsPass(s.objs, s.backing, s.len, s.control.pass);
  }

  lemma LaunchKeepsPass(p: Platform, s: State, decided: int)
    requires s.control.Awaiting? && CanVisit(s, s.control.pass) && PassInv(s)
    ensures PassInv(DoLaunch(p, s, decided))
  {
    LeaveKeepsPass(s, decided);
    var s' := DoLeave(s, decided);
    PassFrame(s'.objs, DoLaunch(p, s, decided).objs, s'.backing, s'.len, s'.control.pass);
  }

  lemma ReportKeepsPass(p: Platform, s: State, report: Option<JobState>, seen: int, decided: int)
    requires CanReport(s, report, seen, decided) && StoreInv(s) && PassInv(s)
    ensures PassInv(DoReport(p, s, report, seen, decided))
  {
    if report.Some? {
      var o := Visited(s, s.control.pass);
      var s1 := Seen(s, o, report.value, seen);
      SeenKeepsPass(s, o, report.value, seen);
      StoreInvFrame(s, s1);
      match Choose(s1.objs[o], decided)
      case Leave => LeaveKeepsPass(s1, decided);
      case Remove => RemoveKeepsPass(s1, decided);
      case Launch => LaunchKeepsPass(p, s1, decided);
    } else {
      LeaveKeepsPass(s, decided);
    }
  }

  lemma PollKeepsPass(s: State)
    requires CanPoll(s) && PassInv(s)
    ensures PassInv(DoPoll(s))
  {
    var pass := s.control.pass;
    var o, id := Visited(s, pass), VisitedId(s, pass);
    var ro := s.routines[s.futures[id]];
    AdvanceKeepsPass(s.objs, s.backing, s.len, pass);
    if !Live(ro) && ro.value.Some? && ro.value.value.Reached? {
      SeenKeepsPass(s.(control := Executing(Advance(pass, o)), futures := s.futures - {id}), o, ro.value.value.state, s.clock);
    }
  }

  lemma PassKept(p: Platform, s: State, step: Step)
    requires Enabled(s, step) && StoreInv(s) && PassInv(s)
    ensures PassInv(Apply(p, s, step))
  {
    match step
    case BeginPass => BeginKeepsPass(s);
    case PollFuture => PollKeepsPass(s);
    case TakeReport(report, seen, decided) => ReportKeepsPass(p, s, report, seen, decided);
    case _ =>
  }

  // ----- main results -----

  /** The loop never reads outside the array, and what it reads is a job stored at its start. */
  lemma VisitsAreInBounds(s: State)
    requires StoreInv(s) && PassInv(s) && (s.control.Executing? || s.control.Awaiting?)
    requires s.control.pass.i < s.control.pass.n
    ensures CanVisit(s, s.control.pass) && Visited(s, s.control.pass) in s.control.pass.start
  {}

  ghost function Unvisited(pass: Pass): (u: set<nat>) {
    set x | x in pass.start && x !in pass.visited
  }

  /** When a pass ends, the store is what it was at the start without the removed jobs, in the same
      order; the removed ones are marked; and it has left unvisited at most as many jobs as it removed. */
  lemma EndOfPass(s: State)
    requires PassInv(s) && s.control.Executing? && s.control.pass.i >= s.control.pass.n && s.len <= |s.backing|
    ensures var pass := s.control.pass;
            && Stored(s) == Without(pass.start, pass.gone)
            && (forall x :: x in pass.gone ==> x < |s.objs| && s.objs[x].marked)
            && (forall x :: x in pass.visited ==> x in pass.start)
            && |Unvisited(pass)| <= |pass.gone|
  {
    var pass := s.control.pass;
    UnvisitedWereSkipped(s.backing, pass.n, pass.start, pass.visited, pass.skipped, Unvisited(pass));
  }

  lemma VisitedIsFound(s: State)
    requires s.control.Awaiting? && CanVisit(s, s.control.pass) && StoreInv(s) && PassInv(s) && s.control.pass.i < s.len
    ensures IndexOf(s.objs, Stored(s), VisitedId(s, s.control.pass)) <= s.control.pass.i
  {
    assert Stored(s)[s.control.pass.i] == Visited(s, s.control.pass);
  }

  lemma ShiftedNext<T>(backing: seq<T>, at: nat, len: nat, i: nat)
    requires at <= i && i + 1 < len <= |backing|
    ensures ShiftDown(backing, at, len)[i + 1] == backing[if i + 2 < len then i + 2 else i + 1]
  {}

  /** A removal makes the pass go past the next job in the store if another one is behind that; if not, the
      next job is still found in the last place of the array, which has become stale. */
  lemma RemovalPassesOver(s: State, decided: int)
    requires s.control.Awaiting? && CanVisit(s, s.control.pass) && StoreInv(s) && PassInv(s)
    requires s.control.pass.i + 1 < s.len
    ensures var s', i := DoRemove(s, decided), s.control.pass.i;
            s'.control.Executing? && CanVisit(s', s'.control.pass) &&
            Visited(s', s'.control.pass) == s.backing[if i + 2 < s.len then i + 2 else i + 1]
  {
    VisitedIsFound(s);
    ShiftedNext(s.backing, IndexOf(s.objs, Stored(s), VisitedId(s, s.control.pass)), s.len, s.control.pass.i);
  }
}
