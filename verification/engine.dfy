/**
 * A Mamdani rule base: each rule's antecedent fires at some strength, its
 * consequent curve is clipped at that strength, and the clipped curves are
 * aggregated by pointwise max over the shared output universe.
 */
module Engine {
  import opened Outcomes
  import opened FuzzyOps
  import opened Curves
  import opened Rules

  datatype Rule = Rule(antecedent: Expr, consequent: seq<real>)

  /** Every rule reads only supplied degrees. */
  predicate AllCovered(rules: seq<Rule>, n: nat) {
    forall k :: 0 <= k < |rules| ==> Covered(rules[k].antecedent, n)
  }

  /** Every consequent is sampled on the output universe. */
  predicate AllOn(rules: seq<Rule>, universe: seq<int>) {
    forall k :: 0 <= k < |rules| ==> |rules[k].consequent| == |universe|
  }

  /** The rule's firing strength for the given degrees. */
  function Strength(rule: Rule, d: seq<real>): real
    requires Covered(rule.antecedent, |d|)
  {
    Eval(rule.antecedent, d)
  }

  /** The rule's consequent after min-implication. */
  function Implicate(rule: Rule, d: seq<real>): seq<real>
    requires Covered(rule.antecedent, |d|)
  {
    Clip(Strength(rule, d), rule.consequent)
  }

  /** The clipped consequent of each rule, in rule order. */
  function Activations(rules: seq<Rule>, d: seq<real>): seq<seq<real>>
    requires AllCovered(rules, |d|)
  {
    seq(|rules|, k requires 0 <= k < |rules| && AllCovered(rules, |d|) => Implicate(rules[k], d))
  }

  /**
   * One inference call: fire every rule, clip, aggregate. It fails on an
   * empty rule base, on a rule naming a degree that was not supplied, and on
   * a consequent not sampled on the output universe, in that order.
   * On success every sample is the strongest clipped consequent there.
   */
  function Infer(universe: seq<int>, rules: seq<Rule>, d: seq<real>): (r: Result<seq<real>>)
    ensures r == Failure(NoRules) <==> |rules| == 0
    ensures r == Failure(MissingInput) <==> |rules| > 0 && !AllCovered(rules, |d|)
    ensures r == Failure(UniverseMismatch) <==>
      |rules| > 0 && AllCovered(rules, |d|) && !AllOn(rules, universe)
    ensures r.Ok? <==> |rules| > 0 && AllCovered(rules, |d|) && AllOn(rules, universe)
    ensures r.Ok? ==> |r.value| == |universe|
    ensures r.Ok? ==> forall k, i :: 0 <= k < |rules| && 0 <= i < |universe| ==>
      Min(Eval(rules[k].antecedent, d), rules[k].consequent[i]) <= r.value[i]
    ensures r.Ok? ==> forall i :: 0 <= i < |universe| ==>
      exists k :: 0 <= k < |rules| && r.value[i] == Min(Eval(rules[k].antecedent, d), rules[k].consequent[i])
  {
    if |rules| == 0 then Failure(NoRules)
    else if !AllCovered(rules, |d|) then Failure(MissingInput)
    else if !AllOn(rules, universe) then Failure(UniverseMismatch)
    else
      var acts := Activations(rules, d);
      assert |acts| == |rules| && forall k :: 0 <= k < |rules| ==> acts[k] == Implicate(rules[k], d);
      assert SameLength(acts, |acts[0]|);
      Ok(MaxAll(acts))
  }

  /** Rules are evaluated independently: reordering the rule base does not change the result. */
  lemma InferPermutation(universe: seq<int>, rules: seq<Rule>, others: seq<Rule>, d: seq<real>)
    requires multiset(rules) == multiset(others)
    ensures Infer(universe, rules, d) == Infer(universe, others, d)
  {
    assert |rules| == |multiset(rules)| == |multiset(others)| == |others|;
    assert forall q :: q in rules <==> q in others by {
      forall q ensures q in rules <==> q in others {
        assert q in rules <==> q in multiset(rules);
        assert q in others <==> q in multiset(others);
      }
    }
    assert forall k :: 0 <= k < |rules| ==> rules[k] in others;
    assert forall k :: 0 <= k < |others| ==> others[k] in rules;
    assert AllCovered(rules, |d|) <==> AllCovered(others, |d|);
    assert AllOn(rules, universe) <==> AllOn(others, universe);
    if Infer(universe, rules, d).Ok? {
      var acts, acts' := Activations(rules, d), Activations(others, d);
      forall c
        ensures c in acts <==> c in acts'
      {
        if c in acts {
          var k :| 0 <= k < |acts| && acts[k] == c;
          var j :| 0 <= j < |others| && others[j] == rules[k];
          assert acts'[j] == c;
        }
        if c in acts' {
          var k :| 0 <= k < |acts'| && acts'[k] == c;
          var j :| 0 <= j < |rules| && rules[j] == others[k];
          assert acts[j] == c;
        }
      }
      MaxAllSameMembers(acts, acts');
    }
  }

  /** When no rule fires at all, the aggregated set is all zero (and no error is raised). */
  lemma InferSilent(universe: seq<int>, rules: seq<Rule>, d: seq<real>)
    requires |rules| > 0 && AllCovered(rules, |d|) && AllOn(rules, universe)
    requires forall k :: 0 <= k < |rules| ==> Eval(rules[k].antecedent, d) == 0.0
    requires forall k :: 0 <= k < |rules| ==> NonNegative(rules[k].consequent)
    ensures Infer(universe, rules, d).Ok?
    ensures AllZero(Infer(universe, rules, d).value)
  {
  }

  /**
   * A rule that does not fire contributes nothing: appending it to a rule
   * base leaves the aggregated set unchanged.
   */
  lemma InferIgnoresSilentRule(universe: seq<int>, rules: seq<Rule>, extra: Rule, d: seq<real>)
    requires |rules| > 0 && AllCovered(rules, |d|) && AllOn(rules, universe)
    requires Covered(extra.antecedent, |d|) && |extra.consequent| == |universe|
    requires Eval(extra.antecedent, d) == 0.0
    requires forall k :: 0 <= k < |d| ==> 0.0 <= d[k]
    requires forall k :: 0 <= k < |rules| ==> NonNegative(rules[k].consequent)
    ensures Infer(universe, rules + [extra], d) == Infer(universe, rules, d)
  {
    var acts, silent := Activations(rules, d), Implicate(extra, d);
    assert Activations(rules + [extra], d) == acts + [silent];
    assert SameLength(acts, |universe|);
    forall i | 0 <= i < |universe|
      ensures silent[i] <= acts[0][i]
    {
      assert 0.0 <= Eval(rules[0].antecedent, d);
    }
    MaxAllIgnoresLower(acts, silent);
  }

  /** No aggregated sample exceeds the strongest firing strength. */
  lemma InferBelowStrongest(universe: seq<int>, rules: seq<Rule>, d: seq<real>, bound: real)
    requires |rules| > 0 && AllCovered(rules, |d|) && AllOn(rules, universe)
    requires forall k :: 0 <= k < |rules| ==> Eval(rules[k].antecedent, d) <= bound
    ensures Infer(universe, rules, d).Ok?
    ensures Below(Infer(universe, rules, d).value, bound)
  {
  }

  /** Degrees in, degrees out: with input degrees and consequent curves in [0, 1] the aggregate is in [0, 1]. */
  lemma InferInUnit(universe: seq<int>, rules: seq<Rule>, d: seq<real>)
    requires |rules| > 0 && AllCovered(rules, |d|) && AllOn(rules, universe)
    requires forall k :: 0 <= k < |d| ==> IsDegree(d[k])
    requires forall k :: 0 <= k < |rules| ==> InUnit(rules[k].consequent)
    ensures Infer(universe, rules, d).Ok?
    ensures InUnit(Infer(universe, rules, d).value)
  {
  }
}
