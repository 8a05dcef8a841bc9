/**
 * The verdict ladder applied to the defuzzified body condition `crisp` and
 * its membership `activation` in the aggregated set. The branches are tried
 * in order and the first that holds wins; if none holds, no verdict is given.
 * The `crisp <= 0.8` comparison is kept literally as the script writes it,
 * although `crisp` lies on the 0..100 output universe.
 */
module Classification {

  datatype Verdict = Critical | Stable | Healthy | NoVerdict

  /** The if/elif ladder, first match wins. */
  function Classify(crisp: real, activation: real): (v: Verdict)
    ensures v == Critical <==> activation < 0.5
    ensures v == Stable <==> 0.5 <= activation && crisp <= 0.8
    ensures v == Healthy <==> 0.8 < activation && 0.8 < crisp
    ensures v == NoVerdict <==> 0.5 <= activation <= 0.8 && 0.8 < crisp
  {
    if activation < 0.5 then Critical
    else if activation >= 0.5 && crisp <= 0.8 then Stable
    else if activation > 0.8 then Healthy
    else NoVerdict
  }

  /**
   * The later branches are shadowed by the earlier ones: a crisp value at or
   * below 0.8 is never "healthy", however strong its activation.
   */
  lemma HealthyNeedsLargeCrisp(crisp: real, activation: real)
    requires crisp <= 0.8
    ensures Classify(crisp, activation) != Healthy
    ensures activation >= 0.5 ==> Classify(crisp, activation) == Stable
  {
  }

  /** Concrete points on both sides of the gap where no branch fires. */
  lemma GapWitness()
    ensures Classify(50.0, 0.5) == NoVerdict
    ensures Classify(50.0, 0.8) == NoVerdict
    ensures Classify(0.8, 0.8) == Stable
    ensures Classify(50.0, 0.81) == Healthy
  {
  }
}
