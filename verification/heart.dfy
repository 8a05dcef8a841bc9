/**
 * The script's configuration: three input variables with low / medium / high
 * terms, three rules over them, and the body-condition output with low /
 * medium / high consequents on the 0..100 universe. The nine input degrees
 * (one per variable and term) and the three consequent curves are produced
 * by library code outside this model and enter as parameters.
 */
module HeartModel {
  import opened Outcomes
  import opened FuzzyOps
  import opened Curves
  import opened Rules
  import opened Engine
  import Universe

  datatype Variable = HeartRate | BloodPressure | OutsideTemperature

  datatype Level = Lo | Md | Hi

  /** Number of fuzzified input degrees: three variables, three terms each. */
  const Inputs: nat := 9

  /** Where the degree of `v` being at level `l` sits in the degree vector. */
  function Slot(v: Variable, l: Level): (k: nat)
    ensures k < Inputs
  {
    var row := match v
      case HeartRate => 0
      case BloodPressure => 1
      case OutsideTemperature => 2;
    var col := match l
      case Lo => 0
      case Md => 1
      case Hi => 2;
    3 * row + col
  }

  /** Distinct variable/term pairs read distinct degrees. */
  lemma SlotsDistinct(v: Variable, l: Level, v': Variable, l': Level)
    requires Slot(v, l) == Slot(v', l')
    ensures v == v' && l == l'
  {
  }

  function T(v: Variable, l: Level): Expr {
    Term(Slot(v, l))
  }

  /** Rule 1: (heart rate high AND blood pressure low) OR temperature low. */
  const Rule1: Expr := Or(And(T(HeartRate, Hi), T(BloodPressure, Lo)), T(OutsideTemperature, Lo))

  /** Rule 2: (heart rate low AND blood pressure medium) OR temperature medium. */
  const Rule2: Expr := Or(And(T(HeartRate, Lo), T(BloodPressure, Md)), T(OutsideTemperature, Md))

  /** Rule 3: (blood pressure medium AND temperature medium) AND heart rate medium. */
  const Rule3: Expr := And(And(T(BloodPressure, Md), T(OutsideTemperature, Md)), T(HeartRate, Md))

  /** The degree of `v` at level `l`. */
  function Degree(d: seq<real>, v: Variable, l: Level): real
    requires |d| == Inputs
  {
    d[Slot(v, l)]
  }

  /** Rule 1 fires at `fmax(fmin(HR_hi, BP_lo), T_lo)`, the script's two calls in that order. */
  lemma Rule1Strength(d: seq<real>)
    requires |d| == Inputs
    ensures Covered(Rule1, |d|)
    ensures Eval(Rule1, d) ==
      Max(Min(Degree(d, HeartRate, Hi), Degree(d, BloodPressure, Lo)), Degree(d, OutsideTemperature, Lo))
  {
  }

  /** Rule 2 fires at `fmax(fmin(HR_lo, BP_md), T_md)`. */
  lemma Rule2Strength(d: seq<real>)
    requires |d| == Inputs
    ensures Covered(Rule2, |d|)
    ensures Eval(Rule2, d) ==
      Max(Min(Degree(d, HeartRate, Lo), Degree(d, BloodPressure, Md)), Degree(d, OutsideTemperature, Md))
  {
  }

  /**
   * Rule 3 fires at `fmin(fmin(BP_md, T_md), HR_md)`: no stronger than any of
   * its three terms, and the same whatever order or grouping the mins take.
   */
  lemma Rule3Strength(d: seq<real>)
    requires |d| == Inputs
    ensures Covered(Rule3, |d|)
    ensures Eval(Rule3, d) ==
      Min(Min(Degree(d, BloodPressure, Md), Degree(d, OutsideTemperature, Md)), Degree(d, HeartRate, Md))
    ensures Eval(Rule3, d) <= Degree(d, BloodPressure, Md)
    ensures Eval(Rule3, d) <= Degree(d, OutsideTemperature, Md)
    ensures Eval(Rule3, d) <= Degree(d, HeartRate, Md)
    ensures forall e :: Covered(e, |d|) && Conjunctive(e) && Slots(e) == Slots(Rule3) ==> Eval(e, d) == Eval(Rule3, d)
  {
    forall e | Covered(e, |d|) && Conjunctive(e) && Slots(e) == Slots(Rule3)
      ensures Eval(e, d) == Eval(Rule3, d)
    {
      ConjunctionOrderIrrelevant(e, Rule3, d);
    }
  }

  /** With every input degree in [0, 1], every rule fires at a strength in [0, 1]. */
  lemma StrengthsAreDegrees(d: seq<real>)
    requires |d| == Inputs
    requires forall k :: 0 <= k < |d| ==> IsDegree(d[k])
    ensures IsDegree(Eval(Rule1, d)) && IsDegree(Eval(Rule2, d)) && IsDegree(Eval(Rule3, d))
  {
  }

  /** The script's rule base: rule 1 concludes low, rule 2 medium, rule 3 high body condition. */
  function RuleBase(lo: seq<real>, md: seq<real>, hi: seq<real>): seq<Rule> {
    [Rule(Rule1, lo), Rule(Rule2, md), Rule(Rule3, hi)]
  }

  /**
   * The script's aggregated output set, built as written: each consequent is
   * clipped at its rule's strength, then `fmax(lo', fmax(md', hi'))`. Each
   * sample is the largest of the three clipped samples there.
   */
  function Aggregated(d: seq<real>, lo: seq<real>, md: seq<real>, hi: seq<real>): (r: seq<real>)
    requires |d| == Inputs && |lo| == |md| == |hi|
    ensures |r| == |lo|
    ensures forall i :: 0 <= i < |r| ==>
      && Min(Eval(Rule1, d), lo[i]) <= r[i]
      && Min(Eval(Rule2, d), md[i]) <= r[i]
      && Min(Eval(Rule3, d), hi[i]) <= r[i]
    ensures forall i :: 0 <= i < |r| ==>
      || r[i] == Min(Eval(Rule1, d), lo[i])
      || r[i] == Min(Eval(Rule2, d), md[i])
      || r[i] == Min(Eval(Rule3, d), hi[i])
  {
    var activationLo := Clip(Eval(Rule1, d), lo);
    var activationMd := Clip(Eval(Rule2, d), md);
    var activationHi := Clip(Eval(Rule3, d), hi);
    PointwiseMax(activationLo, PointwiseMax(activationMd, activationHi))
  }

  /**
   * The script's pipeline is one instance of the generic engine: on the
   * output universe `arange(0, 101, 1)` it succeeds and yields the same set.
   */
  lemma AggregatedIsInference(d: seq<real>, lo: seq<real>, md: seq<real>, hi: seq<real>)
    requires |d| == Inputs && |lo| == |md| == |hi| == 101
    ensures Universe.Arange(0, 101, 1).Ok?
    ensures Infer(Universe.Arange(0, 101, 1).value, RuleBase(lo, md, hi), d) == Ok(Aggregated(d, lo, md, hi))
  {
    Universe.OutputUniverseShape();
    var rules := RuleBase(lo, md, hi);
    var acts := Activations(rules, d);
    assert acts == [acts[0], acts[1], acts[2]];
    MaxAllOfThree(acts[0], acts[1], acts[2]);
  }

  /**
   * Regrouping or reordering the two `fmax` calls leaves the aggregated set
   * unchanged: any arrangement of the three clipped curves, nested either way.
   */
  lemma {:induction false} AggregatedGrouping(d: seq<real>, lo: seq<real>, md: seq<real>, hi: seq<real>)
    requires |d| == Inputs && |lo| == |md| == |hi|
    ensures var a, b, c := Clip(Eval(Rule1, d), lo), Clip(Eval(Rule2, d), md), Clip(Eval(Rule3, d), hi);
      forall x, y, z | multiset{x, y, z} == multiset{a, b, c} ::
        && |x| == |y| == |z| == |lo|
        && PointwiseMax(x, PointwiseMax(y, z)) == Aggregated(d, lo, md, hi)
        && PointwiseMax(PointwiseMax(x, y), z) == Aggregated(d, lo, md, hi)
  {
    var a, b, c := Clip(Eval(Rule1, d), lo), Clip(Eval(Rule2, d), md), Clip(Eval(Rule3, d), hi);
    assert Aggregated(d, lo, md, hi) == PointwiseMax(a, PointwiseMax(b, c));
    PointwiseMaxAnyOrder(a, b, c);
  }

  /** No aggregated sample exceeds the strongest of the three rule strengths. */
  lemma AggregatedBelowStrongest(d: seq<real>, lo: seq<real>, md: seq<real>, hi: seq<real>)
    requires |d| == Inputs && |lo| == |md| == |hi|
    ensures Below(Aggregated(d, lo, md, hi), Max(Eval(Rule1, d), Max(Eval(Rule2, d), Eval(Rule3, d))))
  {
  }

  /** If none of the three rules fires, the aggregated set is all zero. */
  lemma AggregatedSilent(d: seq<real>, lo: seq<real>, md: seq<real>, hi: seq<real>)
    requires |d| == Inputs && |lo| == |md| == |hi|
    requires NonNegative(lo) && NonNegative(md) && NonNegative(hi)
    requires Eval(Rule1, d) == 0.0 && Eval(Rule2, d) == 0.0 && Eval(Rule3, d) == 0.0
    ensures AllZero(Aggregated(d, lo, md, hi))
  {
  }
}
