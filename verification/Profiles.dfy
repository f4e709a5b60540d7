/** Device profiles and the evaluation of their conditions (internal/profile/evaluator.go). */
module Profiles {
  import opened Wrappers
  import opened Syntax
  import opened Evaluation

  // ----- device profiles -----

  datatype Condition = Condition(name: string, expression: Expr)

  datatype ConditionResult = ConditionResult(name: string, value: bool, error: Option<Fault>)

  datatype ProfileResult = ProfileResult(name: string, conditions: seq<ConditionResult>)

  datatype ProfileEvaluator = ProfileEvaluator(name: string, conditions: seq<Condition>)

  /** One result per condition, in order: its name, and the value and the error of its expression. */
  ghost predicate Judges(pe: ProfileEvaluator, m: Metrics, r: ProfileResult) {
    && r.name == pe.name && |r.conditions| == |pe.conditions|
    && forall i :: 0 <= i < |pe.conditions| ==> IsJudged(pe.conditions[i], m, r.conditions[i])
  }

  ghost predicate IsJudged(c: Condition, m: Metrics, r: ConditionResult) {
    && r.name == c.name
    && r.value == Evaluate(c.expression, m).result
    && r.error == Evaluate(c.expression, m).error
  }

  method EvaluateProfile(pe: ProfileEvaluator, m: Metrics) returns (r: ProfileResult)
    ensures Judges(pe, m, r)
  {
    var results := [];
    for i := 0 to |pe.conditions|
      invariant |results| == i
      invariant forall k :: 0 <= k < i ==> IsJudged(pe.conditions[k], m, results[k])
    {
      var v := Evaluate(pe.conditions[i].expression, m);
      results := results + [ConditionResult(pe.conditions[i].name, v.result, v.error)];
    }
    r := ProfileResult(pe.name, results);
  }

  /** The evaluators list the entries of a profile map, each name once. */
  ghost predicate Lists(evaluators: seq<ProfileEvaluator>, profiles: map<string, seq<Condition>>) {
    && (forall i :: 0 <= i < |evaluators| ==>
          evaluators[i].name in profiles && profiles[evaluators[i].name] == evaluators[i].conditions)
    && (forall i, j :: 0 <= i < j < |evaluators| ==> evaluators[i].name != evaluators[j].name)
    && (forall p :: p in profiles ==> exists i :: 0 <= i < |evaluators| && evaluators[i].name == p)
  }

  /** The results of a whole evaluation: one per device profile, names distinct. */
  ghost predicate JudgesAll(profiles: map<string, seq<Condition>>, m: Metrics, rs: seq<ProfileResult>) {
    && (forall i :: 0 <= i < |rs| ==>
          rs[i].name in profiles && Judges(ProfileEvaluator(rs[i].name, profiles[rs[i].name]), m, rs[i]))
    && DistinctNames(rs)
    && (forall p :: p in profiles ==> exists i :: 0 <= i < |rs| && rs[i].name == p)
  }

  ghost predicate DistinctNames(rs: seq<ProfileResult>) {
    forall i, j :: 0 <= i < j < |rs| ==> rs[i].name != rs[j].name
  }

  class SimpleEvaluator {
    var evaluators: seq<ProfileEvaluator>

    constructor ()
      ensures evaluators == []
    {
      evaluators := [];
    }

    /** The order of the evaluators is the unspecified order of a map iteration. */
    method SetProfiles(profiles: map<string, seq<Condition>>)
      modifies this
      ensures Lists(evaluators, profiles)
    {
      evaluators := [];
      var keys := profiles.Keys;
      while keys != {}
        invariant keys <= profiles.Keys
        invariant forall i :: 0 <= i < |evaluators| ==>
                    evaluators[i].name in profiles && evaluators[i].name !in keys &&
                    profiles[evaluators[i].name] == evaluators[i].conditions
        invariant forall i, j :: 0 <= i < j < |evaluators| ==> evaluators[i].name != evaluators[j].name
        invariant forall p :: p in profiles && p !in keys ==>
                    exists i :: 0 <= i < |evaluators| && evaluators[i].name == p
        decreases keys
      {
        var k :| k in keys;
        ghost var before := evaluators;
        evaluators := evaluators + [ProfileEvaluator(k, profiles[k])];
        assert evaluators[|before|].name == k;
        assert forall i :: 0 <= i < |before| ==> evaluators[i] == before[i];
        keys := keys - {k};
      }
    }

    method Evaluate(m: Metrics, ghost profiles: map<string, seq<Condition>>) returns (r: Option<seq<ProfileResult>>)
      requires Lists(evaluators, profiles)
      ensures r.None? <==> profiles == map[]
      ensures r.Some? ==> JudgesAll(profiles, m, r.value)
    {
      var results: seq<ProfileResult> := [];
      for i := 0 to |evaluators|
        invariant |results| == i
        invariant forall k :: 0 <= k < i ==> Judges(evaluators[k], m, results[k])
      {
        var one := EvaluateProfile(evaluators[i], m);
        results := results + [one];
      }
      forall p | p in profiles
        ensures exists i :: 0 <= i < |results| && results[i].name == p
      {
        var i :| 0 <= i < |evaluators| && evaluators[i].name == p;
        assert results[i].name == p;
      }
      assert results == [] <==> profiles == map[] by {
        if results != [] {
          assert evaluators[0].name in profiles;
        }
      }
      r := if results == [] then None else Some(results);
    }
  }
}
