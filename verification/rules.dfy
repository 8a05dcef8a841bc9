/**
 * Rule antecedents as expression trees over fuzzified inputs. A `Term` names
 * one membership degree by its slot in the vector of degrees; `And` is fuzzy
 * AND (`np.fmin`) and `Or` is fuzzy OR (`np.fmax`). Evaluation follows the
 * tree exactly as written, so `(A and B) or C` takes the min first.
 */
module Rules {
  import opened FuzzyOps

  datatype Expr =
    | Term(slot: nat)
    | And(left: Expr, right: Expr)
    | Or(left: Expr, right: Expr)

  /** The degree slots an expression reads. */
  function Slots(e: Expr): set<nat> {
    match e
    case Term(k) => {k}
    case And(l, r) => Slots(l) + Slots(r)
    case Or(l, r) => Slots(l) + Slots(r)
  }

  /** Every slot the expression reads is supplied by a vector of `n` degrees. */
  predicate Covered(e: Expr, n: nat) {
    forall k :: k in Slots(e) ==> k < n
  }

  /** An expression is covered exactly when its parts are. */
  lemma CoveredParts(e: Expr, n: nat)
    ensures e.Term? ==> (Covered(e, n) <==> e.slot < n)
    ensures !e.Term? ==> (Covered(e, n) <==> Covered(e.left, n) && Covered(e.right, n))
  {
    if e.Term? {
      assert Slots(e) == {e.slot};
    } else {
      assert Slots(e) == Slots(e.left) + Slots(e.right);
    }
  }

  /**
   * The firing strength of an antecedent. It is always one of the degrees the
   * expression reads, so it is a degree whenever those are.
   */
  function Eval(e: Expr, d: seq<real>): (r: real)
    requires Covered(e, |d|)
    ensures exists k :: k in Slots(e) && r == d[k]
    ensures (forall k :: k in Slots(e) ==> IsDegree(d[k])) ==> IsDegree(r)
  {
    match e
    case Term(k) => CoveredParts(e, |d|); d[k]
    case And(l, r) => CoveredParts(e, |d|); Min(Eval(l, d), Eval(r, d))
    case Or(l, r) => CoveredParts(e, |d|); Max(Eval(l, d), Eval(r, d))
  }

  /** Only AND connectives. */
  predicate Conjunctive(e: Expr) {
    match e
    case Term(_) => true
    case And(l, r) => Conjunctive(l) && Conjunctive(r)
    case Or(_, _) => false
  }

  /** Only OR connectives. */
  predicate Disjunctive(e: Expr) {
    match e
    case Term(_) => true
    case And(_, _) => false
    case Or(l, r) => Disjunctive(l) && Disjunctive(r)
  }

  /** A pure conjunction fires no stronger than any of its terms. */
  lemma {:induction false} ConjunctionBelowEach(e: Expr, d: seq<real>)
    requires Covered(e, |d|) && Conjunctive(e)
    ensures forall k :: k in Slots(e) ==> Eval(e, d) <= d[k]
  {
    CoveredParts(e, |d|);
    match e
    case Term(_) =>
    case And(l, r) => ConjunctionBelowEach(l, d); ConjunctionBelowEach(r, d);
  }

  /** A pure disjunction fires at least as strongly as each of its terms. */
  lemma {:induction false} DisjunctionAboveEach(e: Expr, d: seq<real>)
    requires Covered(e, |d|) && Disjunctive(e)
    ensures forall k :: k in Slots(e) ==> d[k] <= Eval(e, d)
  {
    CoveredParts(e, |d|);
    match e
    case Term(_) =>
    case Or(l, r) => DisjunctionAboveEach(l, d); DisjunctionAboveEach(r, d);
  }

  /**
   * A pure conjunction is the minimum of its terms: any two conjunctions of
   * the same terms, in whatever order and grouping, fire equally.
   */
  lemma {:induction false} ConjunctionOrderIrrelevant(e1: Expr, e2: Expr, d: seq<real>)
    requires Covered(e1, |d|) && Conjunctive(e1)
    requires Covered(e2, |d|) && Conjunctive(e2)
    requires Slots(e1) == Slots(e2)
    ensures Eval(e1, d) == Eval(e2, d)
  {
    ConjunctionBelowEach(e1, d);
    ConjunctionBelowEach(e2, d);
  }

  /** Any two disjunctions of the same terms fire equally. */
  lemma {:induction false} DisjunctionOrderIrrelevant(e1: Expr, e2: Expr, d: seq<real>)
    requires Covered(e1, |d|) && Disjunctive(e1)
    requires Covered(e2, |d|) && Disjunctive(e2)
    requires Slots(e1) == Slots(e2)
    ensures Eval(e1, d) == Eval(e2, d)
  {
    DisjunctionAboveEach(e1, d);
    DisjunctionAboveEach(e2, d);
  }

  /** Raising input degrees never lowers a firing strength: min and max are monotone. */
  lemma {:induction false} EvalMonotone(e: Expr, d1: seq<real>, d2: seq<real>)
    requires |d1| == |d2| && Covered(e, |d1|)
    requires forall k :: 0 <= k < |d1| ==> d1[k] <= d2[k]
    ensures Eval(e, d1) <= Eval(e, d2)
  {
    CoveredParts(e, |d1|);
    match e
    case Term(_) =>
    case And(l, r) => EvalMonotone(l, d1, d2); EvalMonotone(r, d1, d2);
    case Or(l, r) => EvalMonotone(l, d1, d2); EvalMonotone(r, d1, d2);
  }

  /** The firing strength depends only on the degrees the expression reads. */
  lemma {:induction false} EvalReadsOnlySlots(e: Expr, d1: seq<real>, d2: seq<real>)
    requires Covered(e, |d1|) && Covered(e, |d2|)
    requires forall k :: k in Slots(e) ==> d1[k] == d2[k]
    ensures Eval(e, d1) == Eval(e, d2)
  {
    CoveredParts(e, |d1|);
    CoveredParts(e, |d2|);
    match e
    case Term(_) =>
    case And(l, r) => EvalReadsOnlySlots(l, d1, d2); EvalReadsOnlySlots(r, d1, d2);
    case Or(l, r) => EvalReadsOnlySlots(l, d1, d2); EvalReadsOnlySlots(r, d1, d2);
  }
}
