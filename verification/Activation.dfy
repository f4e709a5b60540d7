/** The activation of a workload by the latest profile results: `evaluate` in
    internal/scheduler/scheduler.go, against a declarative description of what it decides. */
module Activation {
  import opened Wrappers
  import opened Profiles

  type int64 = x: int | -0x8000_0000_0000_0000 <= x < 0x8000_0000_0000_0000

  const CPU_PERIOD: int := 100000

  datatype WorkloadCondition = WorkloadCondition(name: string, cpu: Option<int64>)

  datatype WorkloadProfile = WorkloadProfile(name: string, conditions: seq<WorkloadCondition>)

  /** CPU quota and period. */
  datatype CpuResource = CpuResource(quota: nat, period: nat)

  datatype Decision = Decision(active: bool, resource: Option<CpuResource>)

  /** The conversion `uint64(cpu)`. */
  function ToUint64(x: int64): (u: nat)
    ensures u <= CPU_PERIOD <==> 0 <= x <= CPU_PERIOD
  {
    if x < 0 then x + 0x1_0000_0000_0000_0000 else x
  }

  // ----- what the decision depends on -----

  /** The conditions that the workload lists for the profile `p`; of several entries the last counts. */
  function Listed(ps: seq<WorkloadProfile>, p: string): (cs: Option<seq<WorkloadCondition>>) {
    if ps == [] then None
    else if ps[|ps| - 1].name == p then Some(ps[|ps| - 1].conditions)
    else Listed(ps[..|ps| - 1], p)
  }

  /** Of several entries with the name the last one counts. */
  lemma {:induction false} ListedIsLast(ps: seq<WorkloadProfile>, p: string, i: nat)
    requires i < |ps| && ps[i].name == p && forall j :: i < j < |ps| ==> ps[j].name != p
    ensures Listed(ps, p) == Some(ps[i].conditions)
  {
    if i < |ps| - 1 {
      ListedIsLast(ps[..|ps| - 1], p, i);
    }
  }

  lemma {:induction false} NotListed(ps: seq<WorkloadProfile>, p: string)
    requires forall j :: 0 <= j < |ps| ==> ps[j].name != p
    ensures Listed(ps, p) == None
  {
    if ps != [] {
      NotListed(ps[..|ps| - 1], p);
    }
  }

  /** Some result for the condition `c` of the device profile `p` is true, without error. */
  ghost predicate Holds(rs: seq<ProfileResult>, p: string, c: string) {
    exists i :: 0 <= i < |rs| && rs[i].name == p && HoldsIn(rs[i].conditions, c)
  }

  ghost predicate HoldsIn(cs: seq<ConditionResult>, c: string) {
    exists j :: 0 <= j < |cs| && cs[j].name == c && cs[j].value && cs[j].error.None?
  }

  /** A result counts if it is true and comes without an error; among several, one is enough. */
  lemma HoldsInOne(cs: seq<ConditionResult>, r: ConditionResult, c: string)
    ensures HoldsIn([r], c) <==> r.name == c && r.value && r.error.None?
    ensures HoldsIn([r] + cs, c) <==> HoldsIn([r], c) || HoldsIn(cs, c)
  {
    assert [r][0] == r && ([r] + cs)[0] == r;
    if HoldsIn(cs, c) {
      var j :| 0 <= j < |cs| && cs[j].name == c && cs[j].value && cs[j].error.None?;
      assert ([r] + cs)[j + 1] == cs[j];
    }
    if HoldsIn([r] + cs, c) && !HoldsIn([r], c) {
      var j :| 0 <= j < |cs| + 1 && ([r] + cs)[j].name == c && ([r] + cs)[j].value && ([r] + cs)[j].error.None?;
      assert j > 0 && cs[j - 1] == ([r] + cs)[j];
    }
  }

  /** The workload lists the profile `p` with a condition that holds. */
  ghost predicate Satisfied(ps: seq<WorkloadProfile>, rs: seq<ProfileResult>, p: string) {
    Listed(ps, p).Some? &&
    exists k :: 0 <= k < |Listed(ps, p).value| && Holds(rs, p, Listed(ps, p).value[k].name)
  }

  /** When `evaluate` answers "active". */
  ghost predicate IsActive(ps: seq<WorkloadProfile>, rs: seq<ProfileResult>) {
    ps == [] || rs == [] || (DistinctNames(rs) && forall i :: 0 <= i < |rs| ==> Satisfied(ps, rs, rs[i].name))
  }

  ghost predicate FirstOfName(cs: seq<WorkloadCondition>, k: nat)
    requires k < |cs|
  {
    forall j :: 0 <= j < k ==> cs[j].name != cs[k].name
  }

  /** `q` is the CPU of a listed condition that holds, within 0 and the period. */
  ghost predicate Offers(ps: seq<WorkloadProfile>, rs: seq<ProfileResult>, p: string, k: nat, q: nat) {
    && Listed(ps, p).Some? && k < |Listed(ps, p).value|
    && var c := Listed(ps, p).value[k];
       FirstOfName(Listed(ps, p).value, k) && Holds(rs, p, c.name) && c.cpu == Some(q) && q <= 100000
  }

  /** The resource of least quota on offer, if there is one. */
  ghost predicate IsCheapest(ps: seq<WorkloadProfile>, rs: seq<ProfileResult>, r: Option<CpuResource>) {
    match r
    case None => forall p, k: nat, q :: !Offers(ps, rs, p, k, q)
    case Some(c) =>
      && c.period == 100000
      && (exists p, k: nat :: Offers(ps, rs, p, k, c.quota))
      && (forall p, k: nat, q :: Offers(ps, rs, p, k, q) ==> c.quota <= q)
  }

  /** Whatever order the map of the source is iterated in, there is only one answer. */
  lemma CheapestIsUnique(ps: seq<WorkloadProfile>, rs: seq<ProfileResult>, r: Option<CpuResource>, r': Option<CpuResource>)
    requires IsCheapest(ps, rs, r) && IsCheapest(ps, rs, r')
    ensures r == r'
  {}

  // ----- the algorithm of the source -----

  /** An entry of `resultsMap`: a condition, whether it was found active, and its CPU quota. */
  datatype Entry = Entry(name: string, active: bool, quota: Option<nat>)

  type Table = map<string, seq<Entry>>

  function Blank(c: WorkloadCondition): (e: Entry) {
    Entry(c.name, false, if c.cpu.Some? then Some(ToUint64(c.cpu.value)) else None)
  }

  ghost predicate IsBlankTable(ps: seq<WorkloadProfile>, t: Table) {
    && (forall p :: p in t <==> Listed(ps, p).Some?)
    && (forall p :: p in t ==> BlankEntries(Listed(ps, p).value, t[p]))
  }

  ghost predicate BlankEntries(cs: seq<WorkloadCondition>, es: seq<Entry>) {
    |es| == |cs| && forall k :: 0 <= k < |cs| ==> es[k] == Blank(cs[k])
  }

  /** First loop: an inactive entry for every condition of every profile. */
  method Populate(ps: seq<WorkloadProfile>) returns (t: Table)
    ensures IsBlankTable(ps, t)
  {
    t := map[];
    for i := 0 to |ps|
      invariant IsBlankTable(ps[..i], t)
    {
      var entries: seq<Entry> := [];
      for k := 0 to |ps[i].conditions|
        invariant |entries| == k
        invariant forall j :: 0 <= j < k ==> entries[j] == Blank(ps[i].conditions[j])
      {
        entries := entries + [Blank(ps[i].conditions[k])];
      }
      t := t[ps[i].name := entries];
      assert ps[..i + 1][..i] == ps[..i];
    }
    assert ps[..|ps|] == ps;
  }

  /** The pointer search `findFn`: the first entry with the name. */
  method FindEntry(name: string, es: seq<Entry>) returns (k: nat)
    ensures k <= |es|
    ensures k < |es| ==> es[k].name == name
    ensures forall j :: 0 <= j < k ==> es[j].name != name
  {
    k := 0;
    while k < |es| && es[k].name != name
      invariant k <= |es|
      invariant forall j :: 0 <= j < k ==> es[j].name != name
    {
      k := k + 1;
    }
  }

  ghost predicate FirstEntry(es: seq<Entry>, k: nat)
    requires k < |es|
  {
    forall j :: 0 <= j < k ==> es[j].name != es[k].name
  }

  /** `es'` is `es` with the first entry of every name that `cs` reports true made active. */
  ghost predicate Activates(es: seq<Entry>, cs: seq<ConditionResult>, es': seq<Entry>) {
    && |es'| == |es|
    && forall k :: 0 <= k < |es| ==>
         es'[k] == es[k].(active := es[k].active || (FirstEntry(es, k) && HoldsIn(cs, es[k].name)))
  }

  lemma HoldsInSnoc(cs: seq<ConditionResult>, j: nat, c: string)
    requires j < |cs|
    ensures HoldsIn(cs[..j + 1], c) <==> HoldsIn(cs[..j], c) || (cs[j].name == c && cs[j].value && cs[j].error.None?)
  {}

  /** Second loop, for one device profile: a result without error that is true activates the entry
      found by its name. */
  method MarkEntries(es: seq<Entry>, cs: seq<ConditionResult>) returns (es': seq<Entry>)
    ensures Activates(es, cs, es')
  {
    es' := es;
    for j := 0 to |cs|
      invariant Activates(es, cs[..j], es')
    {
      forall k | 0 <= k < |es| {
        HoldsInSnoc(cs, j, es[k].name);
      }
      var k := FindEntry(cs[j].name, es');
      if cs[j].error.None? && cs[j].value && k < |es'| {
        es' := es'[k := es'[k].(active := true)];
      }
    }
    assert cs[..|cs|] == cs;
  }

  /** Entry `k` of the profile `p` is active exactly when its condition holds in `rs`. */
  ghost predicate Marked(ps: seq<WorkloadProfile>, rs: seq<ProfileResult>, t: Table) {
    && (forall p :: p in t <==> Listed(ps, p).Some?)
    && (forall p :: p in t ==> MarkedEntries(Listed(ps, p).value, rs, p, t[p]))
  }

  ghost predicate MarkedEntries(cs: seq<WorkloadCondition>, rs: seq<ProfileResult>, p: string, es: seq<Entry>) {
    && |es| == |cs|
    && forall k :: 0 <= k < |cs| ==>
         es[k] == Blank(cs[k]).(active := FirstOfName(cs, k) && Holds(rs, p, cs[k].name))
  }

  lemma MarkedStep(cs: seq<WorkloadCondition>, rs: seq<ProfileResult>, i: nat, p: string, es: seq<Entry>, es': seq<Entry>)
    requires i < |rs| && MarkedEntries(cs, rs[..i], p, es)
    requires if rs[i].name == p then Activates(es, rs[i].conditions, es') else es' == es
    ensures MarkedEntries(cs, rs[..i + 1], p, es')
  {}

  /** Second loop: all device profiles. */
  method MarkTable(ps: seq<WorkloadProfile>, rs: seq<ProfileResult>, blank: Table) returns (t: Table)
    requires IsBlankTable(ps, blank)
    ensures Marked(ps, rs, t)
  {
    t := blank;
    for i := 0 to |rs|
      invariant Marked(ps, rs[..i], t)
    {
      ghost var before := t;
      if rs[i].name in t {
        var es := MarkEntries(t[rs[i].name], rs[i].conditions);
        t := t[rs[i].name := es];
      }
      forall p | p in t
        ensures MarkedEntries(Listed(ps, p).value, rs[..i + 1], p, t[p])
      {
        MarkedStep(Listed(ps, p).value, rs, i, p, before[p], t[p]);
      }
    }
    assert rs[..|rs|] == rs;
  }

  // ----- third loop: counting and the cheapest resource -----

  ghost predicate HasActive(es: seq<Entry>) {
    exists k :: 0 <= k < |es| && es[k].active
  }

  /** Among the entries `es`, one offers the quota `q`. */
  ghost predicate EntryOffers(es: seq<Entry>, q: nat) {
    exists k :: 0 <= k < |es| && es[k].active && es[k].quota == Some(q) && q <= CPU_PERIOD
  }

  /** `best` is `none` below the bound `CPU_PERIOD`, or the least quota offered. */
  ghost predicate IsLeast(offered: iset<nat>, best: Option<CpuResource>) {
    match best
    case None => offered == iset{}
    case Some(c) => c.period == CPU_PERIOD && c.quota in offered && forall q :: q in offered ==> c.quota <= q
  }

  ghost function EntryOffer(es: seq<Entry>): (s: iset<nat>) {
    iset q: nat | EntryOffers(es, q)
  }

  function Bound(best: Option<CpuResource>): (b: nat) {
    if best.Some? then best.value.quota else CPU_PERIOD
  }

  lemma OffersSnoc(es: seq<Entry>, k: nat, q: nat)
    requires k < |es|
    ensures EntryOffers(es[..k + 1], q) <==>
              EntryOffers(es[..k], q) || (es[k].active && es[k].quota == Some(q) && q <= CPU_PERIOD)
  {}

  /** One profile of the third loop. */
  method Cheaper(es: seq<Entry>, best: Option<CpuResource>, ghost offered: iset<nat>)
    returns (found: bool, best': Option<CpuResource>)
    requires IsLeast(offered, best) && forall q :: q in offered ==> q <= CPU_PERIOD
    ensures found <==> HasActive(es)
    ensures IsLeast(offered + EntryOffer(es), best')
  {
    found, best' := false, best;
    for k := 0 to |es|
      invariant found <==> HasActive(es[..k])
      invariant IsLeast(offered + EntryOffer(es[..k]), best')
    {
      forall q: nat {
        OffersSnoc(es, k, q);
      }
      ghost var s, s' := offered + EntryOffer(es[..k]), offered + EntryOffer(es[..k + 1]);
      assert forall j :: 0 <= j < k ==> es[..k + 1][j] == es[..k][j];
      assert es[..k + 1][k] == es[k];
      if es[k].active {
        found := true;
        if es[k].quota.Some? && es[k].quota.value <= Bound(best') {
          assert s' == s + iset{es[k].quota.value};
          best' := Some(CpuResource(es[k].quota.value, CPU_PERIOD));
        } else {
          assert s' == s + if es[k].quota.Some? && es[k].quota.value <= CPU_PERIOD then iset{es[k].quota.value} else iset{};
        }
      } else {
        assert s' == s;
      }
    }
    assert es[..|es|] == es;
  }

  ghost function TableOffer(t: Table, keys: set<string>): (s: iset<nat>) {
    iset q: nat, p | p in keys && p in t && EntryOffers(t[p], q) :: q
  }

  ghost function ActiveNames(t: Table, keys: set<string>): (s: set<string>) {
    set p | p in keys && p in t && HasActive(t[p])
  }

  lemma OneMoreProfile(t: Table, seen: set<string>, p: string)
    requires p in t && p !in seen
    ensures TableOffer(t, seen + {p}) == TableOffer(t, seen) + EntryOffer(t[p])
    ensures |ActiveNames(t, seen + {p})| == |ActiveNames(t, seen)| + if HasActive(t[p]) then 1 else 0
  {
    assert ActiveNames(t, seen + {p}) == ActiveNames(t, seen) + if HasActive(t[p]) then {p} else {};
  }

  /** Third loop: the profiles with an active entry are counted and the least quota kept, in any order
      of the table. */
  method Summarise(t: Table) returns (sum: nat, best: Option<CpuResource>)
    ensures sum == |ActiveNames(t, t.Keys)|
    ensures IsLeast(TableOffer(t, t.Keys), best)
  {
    sum, best := 0, None;
    var left := t.Keys;
    while left != {}
      invariant left <= t.Keys
      invariant sum == |ActiveNames(t, t.Keys - left)|
      invariant IsLeast(TableOffer(t, t.Keys - left), best)
      decreases left
    {
      var p :| p in left;
      ghost var seen := t.Keys - left;
      var found;
      found, best := Cheaper(t[p], best, TableOffer(t, seen));
      left := left - {p};
      assert t.Keys - left == seen + {p};
      OneMoreProfile(t, seen, p);
      if found {
        sum := sum + 1;
      }
    }
    assert t.Keys - left == t.Keys;
  }

  // ----- from the table to the decision -----

  lemma {:induction false} FirstIndex(cs: seq<WorkloadCondition>, k: nat) returns (f: nat)
    requires k < |cs|
    ensures f <= k && cs[f].name == cs[k].name && FirstOfName(cs, f)
  {
    if FirstOfName(cs, k) {
      f := k;
    } else {
      var j :| 0 <= j < k && cs[j].name == cs[k].name;
      f := FirstIndex(cs, j);
    }
  }

  lemma ActiveIffSatisfied(ps: seq<WorkloadProfile>, rs: seq<ProfileResult>, t: Table, p: string)
    requires Marked(ps, rs, t)
    ensures p in ActiveNames(t, t.Keys) <==> Satisfied(ps, rs, p)
  {
    if Satisfied(ps, rs, p) {
      var cs := Listed(ps, p).value;
      var k :| 0 <= k < |cs| && Holds(rs, p, cs[k].name);
      var f := FirstIndex(cs, k);
      assert t[p][f].active;
    }
    if p in ActiveNames(t, t.Keys) {
      var k :| 0 <= k < |t[p]| && t[p][k].active;
      assert Holds(rs, p, Listed(ps, p).value[k].name);
    }
  }

  lemma LeastIsCheapest(ps: seq<WorkloadProfile>, rs: seq<ProfileResult>, t: Table, best: Option<CpuResource>)
    requires Marked(ps, rs, t) && IsLeast(TableOffer(t, t.Keys), best)
    ensures IsCheapest(ps, rs, best)
  {
    forall p, k: nat, q | Offers(ps, rs, p, k, q)
      ensures q in TableOffer(t, t.Keys)
    {
      assert t[p][k].active && t[p][k].quota == Some(q);
      assert EntryOffers(t[p], q);
    }
    if best.Some? {
      var p :| p in t && EntryOffers(t[p], best.value.quota);
      var k: nat :| k < |t[p]| && t[p][k].active && t[p][k].quota == Some(best.value.quota);
      assert Offers(ps, rs, p, k, best.value.quota);
    }
  }

  ghost function NamesOf(rs: seq<ProfileResult>): (s: set<string>) {
    set i | 0 <= i < |rs| :: rs[i].name
  }

  lemma NamesSnoc(front: seq<ProfileResult>, last: ProfileResult)
    ensures NamesOf(front + [last]) == NamesOf(front) + {last.name}
    ensures DistinctNames(front + [last]) <==> DistinctNames(front) && last.name !in NamesOf(front)
  {
    var rs := front + [last];
    assert rs[|front|] == last && forall i :: 0 <= i < |front| ==> rs[i] == front[i];
    assert rs[|front|].name in NamesOf(rs);
    if DistinctNames(front) && last.name !in NamesOf(front) {
      assert forall i :: 0 <= i < |front| ==> front[i].name in NamesOf(front);
    }
  }

  lemma {:induction false} NamesCount(rs: seq<ProfileResult>)
    ensures |NamesOf(rs)| <= |rs|
    ensures |NamesOf(rs)| == |rs| <==> DistinctNames(rs)
  {
    if rs == [] {
    } else {
      var front, last := rs[..|rs| - 1], rs[|rs| - 1];
      NamesCount(front);
      NamesSnoc(front, last);
      assert rs == front + [last];
      assert last.name in NamesOf(front) ==> NamesOf(front) + {last.name} == NamesOf(front);
    }
  }

  lemma SubsetCount<T>(a: set<T>, b: set<T>)
    requires a <= b
    ensures |a| <= |b|
    ensures |a| == |b| ==> a == b
  {
    assert b == a + (b - a);
  }

  /** Counting: as many active profiles as results means that all results are satisfied, and that no two
      results have the same name. */
  lemma CountingTheorem(ps: seq<WorkloadProfile>, rs: seq<ProfileResult>, active: set<string>)
    requires forall p :: p in active <==> Satisfied(ps, rs, p)
    ensures |active| >= |rs| <==> DistinctNames(rs) && forall i :: 0 <= i < |rs| ==> Satisfied(ps, rs, rs[i].name)
  {
    var names := NamesOf(rs);
    NamesCount(rs);
    forall p | p in active
      ensures p in names
    {
      var k :| 0 <= k < |Listed(ps, p).value| && Holds(rs, p, Listed(ps, p).value[k].name);
      var i :| 0 <= i < |rs| && rs[i].name == p && HoldsIn(rs[i].conditions, Listed(ps, p).value[k].name);
      assert rs[i].name in names;
    }
    SubsetCount(active, names);
    if |active| >= |rs| {
      assert forall i :: 0 <= i < |rs| ==> rs[i].name in names;
    }
    if DistinctNames(rs) && forall i :: 0 <= i < |rs| ==> Satisfied(ps, rs, rs[i].name) {
      assert names <= active;
      SubsetCount(names, active);
    }
  }

  /** `evaluate`: the three loops together. */
  method EvaluateWorkload(ps: seq<WorkloadProfile>, rs: seq<ProfileResult>) returns (e: Decision)
    ensures e.active <==> IsActive(ps, rs)
    ensures IsCheapest(ps, rs, e.resource)
  {
    if |ps| == 0 || |rs| == 0 {
      return Decision(true, None);
    }
    var blank := Populate(ps);
    var t := MarkTable(ps, rs, blank);
    var sum, best := Summarise(t);
    forall p {
      ActiveIffSatisfied(ps, rs, t, p);
    }
    CountingTheorem(ps, rs, ActiveNames(t, t.Keys));
    LeastIsCheapest(ps, rs, t, best);
    e := Decision(sum >= |rs|, best);
  }

  // ----- the promise of the source's comment, and when it is kept -----

  ghost function WorkloadNames(ps: seq<WorkloadProfile>): (s: set<string>) {
    set i | 0 <= i < |ps| :: ps[i].name
  }

  /** "At least one condition per profile" of the workload. */
  ghost predicate Promised(ps: seq<WorkloadProfile>, rs: seq<ProfileResult>) {
    forall p :: p in WorkloadNames(ps) ==> Satisfied(ps, rs, p)
  }

  lemma {:induction false} ListedIffNamed(ps: seq<WorkloadProfile>, p: string)
    ensures Listed(ps, p).Some? <==> p in WorkloadNames(ps)
  {
    if ps == [] {
    } else {
      var front := ps[..|ps| - 1];
      ListedIffNamed(front, p);
      if p in WorkloadNames(front) {
        var i :| 0 <= i < |front| && front[i].name == p;
        assert ps[i].name == p;
      }
      if p in WorkloadNames(ps) {
        var i :| 0 <= i < |ps| && ps[i].name == p;
        assert i < |front| ==> front[i].name == p;
      }
      assert ps[|ps| - 1].name in WorkloadNames(ps);
    }
  }

  lemma SatisfiedIsNamed(ps: seq<WorkloadProfile>, rs: seq<ProfileResult>, p: string)
    requires Satisfied(ps, rs, p)
    ensures p in WorkloadNames(ps) && p in NamesOf(rs)
  {
    ListedIffNamed(ps, p);
    var k :| 0 <= k < |Listed(ps, p).value| && Holds(rs, p, Listed(ps, p).value[k].name);
    var i :| 0 <= i < |rs| && rs[i].name == p && HoldsIn(rs[i].conditions, Listed(ps, p).value[k].name);
  }

  /** The decision is the promised one whenever the workload names exactly the profiles of the device. */
  lemma PromiseKept(ps: seq<WorkloadProfile>, rs: seq<ProfileResult>)
    requires DistinctNames(rs) && WorkloadNames(ps) == NamesOf(rs)
    ensures IsActive(ps, rs) <==> Promised(ps, rs)
  {
    PromiseBroken(ps, rs);
  }

  /** In general a workload that meets the promise is started exactly when it lists no profiles or the
      device has no profile besides those it names, and one that is started meets the promise exactly when
      it names no profile besides those of the device. */
  lemma PromiseBroken(ps: seq<WorkloadProfile>, rs: seq<ProfileResult>)
    ensures Promised(ps, rs) ==> (IsActive(ps, rs) <==> ps == [] || (DistinctNames(rs) && NamesOf(rs) <= WorkloadNames(ps)))
    ensures IsActive(ps, rs) ==> (Promised(ps, rs) <==> WorkloadNames(ps) <= NamesOf(rs))
  {
    forall p | Satisfied(ps, rs, p)
      ensures p in WorkloadNames(ps) && p in NamesOf(rs)
    {
      SatisfiedIsNamed(ps, rs, p);
    }
    assert forall i :: 0 <= i < |rs| ==> rs[i].name in NamesOf(rs);
    assert forall i :: 0 <= i < |ps| ==> ps[i].name in WorkloadNames(ps);
  }

  /** A device that has not evaluated its profiles yet: every workload is started, and none that lists a
      profile meets the promise. */
  lemma ActiveBeforeResults(ps: seq<WorkloadProfile>)
    ensures IsActive(ps, []) && (Promised(ps, []) <==> ps == [])
  {
    PromiseBroken(ps, []);
    if ps != [] {
      assert ps[0].name in WorkloadNames(ps);
    }
  }

  /** A device with two profiles: the workload names one of them, its condition holds, and yet it is not
      started. */
  lemma PromiseBrokenExample()
    ensures var ps := [WorkloadProfile("power", [WorkloadCondition("on", None)])];
            var rs := [ProfileResult("power", [ConditionResult("on", true, None)]), ProfileResult("load", [])];
            Promised(ps, rs) && !IsActive(ps, rs)
  {
    var ps := [WorkloadProfile("power", [WorkloadCondition("on", None)])];
    var rs := [ProfileResult("power", [ConditionResult("on", true, None)]), ProfileResult("load", [])];
    assert Listed(ps, "power") == Some(ps[0].conditions);
    assert rs[0].conditions[0].name == "on";
    assert HoldsIn(rs[0].conditions, "on");
    assert Holds(rs, "power", "on");
    assert Listed(ps, "power").value[0].name == "on";
    assert Satisfied(ps, rs, "power");
    assert Listed(ps[..0], "load") == None;
    assert !Satisfied(ps, rs, rs[1].name);
  }
}
