/**
 * Fuzzy connectives on membership degrees. The script applies numpy's `fmin`
 * (fuzzy AND, and min-implication) and `fmax` (fuzzy OR, and aggregation);
 * on ordinary (non-NaN) numbers they return the smaller / larger operand.
 */
module FuzzyOps {

  /** A membership degree lies in [0, 1]. */
  predicate IsDegree(x: real) {
    0.0 <= x <= 1.0
  }

  /** `np.fmin` on two numbers: the greatest value below both, which is one of them. */
  function Min(a: real, b: real): (r: real)
    ensures r <= a && r <= b
    ensures r == a || r == b
  {
    if a <= b then a else b
  }

  /** `np.fmax` on two numbers: the least value above both, which is one of them. */
  function Max(a: real, b: real): (r: real)
    ensures a <= r && b <= r
    ensures r == a || r == b
  {
    if a <= b then b else a
  }

  /** Min and Max keep degrees degrees. */
  lemma ConnectivesKeepDegrees(a: real, b: real)
    requires IsDegree(a) && IsDegree(b)
    ensures IsDegree(Min(a, b)) && IsDegree(Max(a, b))
  {
  }

  /** Both connectives are commutative and associative, so nested calls may be regrouped and reordered. */
  lemma ConnectivesCommuteAndAssociate(a: real, b: real, c: real)
    ensures Min(a, b) == Min(b, a) && Max(a, b) == Max(b, a)
    ensures Min(a, Min(b, c)) == Min(Min(a, b), c)
    ensures Max(a, Max(b, c)) == Max(Max(a, b), c)
  {
  }
}
