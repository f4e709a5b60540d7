/** From metrics to activation: device profiles are evaluated on the metrics, and their results decide
    whether a workload runs. */
module EndToEnd {
  import opened Wrappers
  import opened Evaluation
  import opened Profiles
  import opened Activation

  /** Every condition comes from a parsed expression without an `== nil` test. */
  ghost predicate Positive(profiles: map<string, seq<Condition>>) {
    forall p, k :: p in profiles && 0 <= k < |profiles[p]| ==>
      IsParsed(profiles[p][k].expression) && NoNilTest(profiles[p][k].expression)
  }

  lemma HoldsStays(profiles: map<string, seq<Condition>>, m: Metrics, m': Metrics,
                   rs: seq<ProfileResult>, rs': seq<ProfileResult>, p: string, c: string)
    requires Positive(profiles) && Numeric(m')
    requires m.Keys <= m'.Keys && forall x :: x in m ==> m'[x] == m[x]
    requires JudgesAll(profiles, m, rs) && JudgesAll(profiles, m', rs')
    requires Holds(rs, p, c)
    ensures Holds(rs', p, c)
  {
    var i :| 0 <= i < |rs| && rs[i].name == p && HoldsIn(rs[i].conditions, c);
    var j :| 0 <= j < |rs[i].conditions| && rs[i].conditions[j].name == c &&
      rs[i].conditions[j].value && rs[i].conditions[j].error.None?;
    var i' :| 0 <= i' < |rs'| && rs'[i'].name == p;
    assert Judges(ProfileEvaluator(p, profiles[p]), m, rs[i]);
    assert Judges(ProfileEvaluator(p, profiles[p]), m', rs'[i']);
    var e := profiles[p][j].expression;
    assert IsJudged(profiles[p][j], m, rs[i].conditions[j]);
    assert IsJudged(profiles[p][j], m', rs'[i'].conditions[j]);
    assert IsParsed(e) && NoNilTest(e);
    TrueStaysTrue(e, m, m');
    assert HoldsIn(rs'[i'].conditions, c);
  }

  lemma SatisfiedStays(profiles: map<string, seq<Condition>>, m: Metrics, m': Metrics,
                       rs: seq<ProfileResult>, rs': seq<ProfileResult>, ps: seq<WorkloadProfile>, p: string)
    requires Positive(profiles) && Numeric(m')
    requires m.Keys <= m'.Keys && forall x :: x in m ==> m'[x] == m[x]
    requires JudgesAll(profiles, m, rs) && JudgesAll(profiles, m', rs')
    requires Satisfied(ps, rs, p)
    ensures Satisfied(ps, rs', p)
  {
    var k :| 0 <= k < |Listed(ps, p).value| && Holds(rs, p, Listed(ps, p).value[k].name);
    HoldsStays(profiles, m, m', rs, rs', p, Listed(ps, p).value[k].name);
  }

  /** A workload that is active under some metrics stays active when metrics that were unknown become
      known, whatever their values and whatever the order in which the profiles are evaluated. */
  lemma KnowingMoreKeepsActive(profiles: map<string, seq<Condition>>, m: Metrics, m': Metrics,
                               rs: seq<ProfileResult>, rs': seq<ProfileResult>, ps: seq<WorkloadProfile>)
    requires Positive(profiles) && Numeric(m')
    requires m.Keys <= m'.Keys && forall x :: x in m ==> m'[x] == m[x]
    requires JudgesAll(profiles, m, rs) && JudgesAll(profiles, m', rs')
    requires IsActive(ps, rs)
    ensures IsActive(ps, rs')
  {
    if ps != [] && rs' != [] {
      forall i | 0 <= i < |rs'|
        ensures Satisfied(ps, rs', rs'[i].name)
      {
        var p := rs'[i].name;
        assert p in profiles;
        var j :| 0 <= j < |rs| && rs[j].name == p;
        assert Satisfied(ps, rs, rs[j].name);
        SatisfiedStays(profiles, m, m', rs, rs', ps, p);
      }
    }
  }

  /** The whole path as the program runs it: the verdict on a workload from the profile map, the metrics
      and the results that the scheduler has from before.  Without profiles the profile manager sends
      nothing, and the earlier results stand; otherwise the order of the map plays no part. */
  method Decide(profiles: map<string, seq<Condition>>, m: Metrics, earlier: seq<ProfileResult>, ps: seq<WorkloadProfile>)
    returns (e: Decision)
    ensures profiles == map[] ==> (e.active <==> IsActive(ps, earlier)) && IsCheapest(ps, earlier, e.resource)
    ensures profiles != map[] ==>
              forall rs: seq<ProfileResult> :: JudgesAll(profiles, m, rs) ==>
                (e.active <==> IsActive(ps, rs)) && IsCheapest(ps, rs, e.resource)
  {
    var ev := new SimpleEvaluator();
    ev.SetProfiles(profiles);
    var r := ev.Evaluate(m, profiles);
    var latest := if r.Some? then r.value else earlier;
    e := EvaluateWorkload(ps, latest);
    if r.Some? {
      forall rs: seq<ProfileResult> | JudgesAll(profiles, m, rs)
        ensures (e.active <==> IsActive(ps, rs)) && IsCheapest(ps, rs, e.resource)
      {
        OrderOfProfilesIsIrrelevant(profiles, m, latest, rs, ps, e.resource);
      }
    }
  }

  lemma HoldsForBoth(profiles: map<string, seq<Condition>>, m: Metrics,
                     rs: seq<ProfileResult>, rs': seq<ProfileResult>, p: string, c: string)
    requires JudgesAll(profiles, m, rs) && JudgesAll(profiles, m, rs') && Holds(rs, p, c)
    ensures Holds(rs', p, c)
  {
    var i :| 0 <= i < |rs| && rs[i].name == p && HoldsIn(rs[i].conditions, c);
    var i' :| 0 <= i' < |rs'| && rs'[i'].name == p;
    assert Judges(ProfileEvaluator(p, profiles[p]), m, rs[i]);
    assert Judges(ProfileEvaluator(p, profiles[p]), m, rs'[i']);
    SameJudgement(ProfileEvaluator(p, profiles[p]), m, rs[i], rs'[i']);
  }

  lemma SameJudgement(pe: ProfileEvaluator, m: Metrics, r: ProfileResult, r': ProfileResult)
    requires Judges(pe, m, r) && Judges(pe, m, r')
    ensures r.conditions == r'.conditions
  {
    forall k | 0 <= k < |r.conditions|
      ensures r.conditions[k] == r'.conditions[k]
    {
      assert IsJudged(pe.conditions[k], m, r.conditions[k]) && IsJudged(pe.conditions[k], m, r'.conditions[k]);
    }
  }

  lemma SameHolds(profiles: map<string, seq<Condition>>, m: Metrics, rs: seq<ProfileResult>, rs': seq<ProfileResult>)
    requires JudgesAll(profiles, m, rs) && JudgesAll(profiles, m, rs')
    ensures forall p, c :: Holds(rs, p, c) <==> Holds(rs', p, c)
  {
    forall p, c
      ensures Holds(rs, p, c) <==> Holds(rs', p, c)
    {
      if Holds(rs, p, c) {
        HoldsForBoth(profiles, m, rs, rs', p, c);
      } else if Holds(rs', p, c) {
        HoldsForBoth(profiles, m, rs', rs, p, c);
      }
    }
  }

  lemma SameNames(profiles: map<string, seq<Condition>>, m: Metrics, rs: seq<ProfileResult>, rs': seq<ProfileResult>, i: nat)
    requires JudgesAll(profiles, m, rs) && JudgesAll(profiles, m, rs') && i < |rs|
    ensures exists j :: 0 <= j < |rs'| && rs'[j].name == rs[i].name
  {
    assert rs[i].name in profiles;
  }

  lemma ActiveForBoth(profiles: map<string, seq<Condition>>, m: Metrics,
                      rs: seq<ProfileResult>, rs': seq<ProfileResult>, ps: seq<WorkloadProfile>)
    requires JudgesAll(profiles, m, rs) && JudgesAll(profiles, m, rs') && IsActive(ps, rs)
    ensures IsActive(ps, rs')
  {
    SameHolds(profiles, m, rs, rs');
    forall i | ps != [] && 0 <= i < |rs'|
      ensures Satisfied(ps, rs', rs'[i].name)
    {
      SameNames(profiles, m, rs', rs, i);
      var j :| 0 <= j < |rs| && rs[j].name == rs'[i].name;
      assert Satisfied(ps, rs, rs[j].name);
    }
  }

  lemma SameOffers(ps: seq<WorkloadProfile>, rs: seq<ProfileResult>, rs': seq<ProfileResult>, r: Option<CpuResource>)
    requires (forall p, c :: Holds(rs, p, c) <==> Holds(rs', p, c)) && IsCheapest(ps, rs, r)
    ensures IsCheapest(ps, rs', r)
  {
    assert forall p, k: nat, q :: Offers(ps, rs', p, k, q) <==> Offers(ps, rs, p, k, q);
    if r.Some? {
      var p, k: nat :| Offers(ps, rs, p, k, r.value.quota);
      assert Offers(ps, rs', p, k, r.value.quota);
    }
  }

  /** Two evaluations of the same profiles, in different orders, activate the same workloads with the same
      resource. */
  lemma OrderOfProfilesIsIrrelevant(profiles: map<string, seq<Condition>>, m: Metrics,
                                    rs: seq<ProfileResult>, rs': seq<ProfileResult>, ps: seq<WorkloadProfile>, r: Option<CpuResource>)
    requires JudgesAll(profiles, m, rs) && JudgesAll(profiles, m, rs') && IsCheapest(ps, rs, r)
    ensures (IsActive(ps, rs) <==> IsActive(ps, rs')) && IsCheapest(ps, rs', r)
  {
    if IsActive(ps, rs) {
      ActiveForBoth(profiles, m, rs, rs', ps);
    } else if IsActive(ps, rs') {
      ActiveForBoth(profiles, m, rs', rs, ps);
    }
    SameHolds(profiles, m, rs, rs');
    SameOffers(ps, rs, rs', r);
  }
}
