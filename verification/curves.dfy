/**
 * Membership curves sampled on a universe, as sequences of reals, and the two
 * array-level steps of Mamdani inference in the script: implication (clipping
 * a consequent curve by a rule's firing strength with `np.fmin`) and
 * aggregation (combining clipped curves with `np.fmax`).
 */
module Curves {
  import opened FuzzyOps

  /** Every sample of the curve is a membership degree. */
  predicate InUnit(c: seq<real>) {
    forall i :: 0 <= i < |c| ==> IsDegree(c[i])
  }

  predicate NonNegative(c: seq<real>) {
    forall i :: 0 <= i < |c| ==> 0.0 <= c[i]
  }

  predicate AllZero(c: seq<real>) {
    forall i :: 0 <= i < |c| ==> c[i] == 0.0
  }

  /** Every sample of the curve is at most `bound`. */
  predicate Below(c: seq<real>, bound: real) {
    forall i :: 0 <= i < |c| ==> c[i] <= bound
  }

  /**
   * Min-implication `np.fmin(strength, curve)`: the scalar strength is
   * broadcast over the curve, so each sample is capped at the strength.
   */
  function Clip(strength: real, curve: seq<real>): (r: seq<real>)
    ensures |r| == |curve|
    ensures forall i :: 0 <= i < |r| ==> r[i] <= strength && r[i] <= curve[i]
    ensures forall i :: 0 <= i < |r| ==> r[i] == strength || r[i] == curve[i]
  {
    seq(|curve|, i requires 0 <= i < |curve| => Min(strength, curve[i]))
  }

  /** A rule that does not fire at all contributes an all-zero curve. */
  lemma ClipByZero(curve: seq<real>)
    requires NonNegative(curve)
    ensures AllZero(Clip(0.0, curve))
  {
  }

  /** A rule firing at full strength leaves a consequent made of degrees unchanged. */
  lemma ClipByFull(strength: real, curve: seq<real>)
    requires strength >= 1.0
    requires InUnit(curve)
    ensures Clip(strength, curve) == curve
  {
  }

  /** Clipping a curve of degrees by a degree gives a curve of degrees. */
  lemma ClipInUnit(strength: real, curve: seq<real>)
    requires IsDegree(strength) && InUnit(curve)
    ensures InUnit(Clip(strength, curve))
  {
  }

  /** A stronger rule never yields a lower clipped sample. */
  lemma ClipMonotone(a: real, b: real, curve: seq<real>)
    requires a <= b
    ensures forall i :: 0 <= i < |curve| ==> Clip(a, curve)[i] <= Clip(b, curve)[i]
  {
  }

  /** `np.fmax(a, b)` on two curves sampled on the same universe. */
  function PointwiseMax(a: seq<real>, b: seq<real>): (r: seq<real>)
    requires |a| == |b|
    ensures |r| == |a|
    ensures forall i :: 0 <= i < |r| ==> a[i] <= r[i] && b[i] <= r[i]
    ensures forall i :: 0 <= i < |r| ==> r[i] == a[i] || r[i] == b[i]
  {
    seq(|a|, i requires 0 <= i < |a| => Max(a[i], b[i]))
  }

  /** Pointwise max does not depend on operand order or on how nested calls are grouped. */
  lemma PointwiseMaxCommutesAndAssociates(a: seq<real>, b: seq<real>, c: seq<real>)
    requires |a| == |b| == |c|
    ensures PointwiseMax(a, b) == PointwiseMax(b, a)
    ensures PointwiseMax(a, PointwiseMax(b, c)) == PointwiseMax(PointwiseMax(a, b), c)
  {
  }

  /** All curves in the list have `n` samples. */
  predicate SameLength(cs: seq<seq<real>>, n: nat) {
    forall k :: 0 <= k < |cs| ==> |cs[k]| == n
  }

  /**
   * Aggregation of one or more curves by nested `np.fmax`, grouped to the
   * right as the script writes it: `fmax(c0, fmax(c1, ... fmax(cm-1, cm)))`.
   * Each sample is the largest of the curves' samples there: above every one
   * of them and equal to one of them.
   */
  function MaxAll(cs: seq<seq<real>>): (r: seq<real>)
    requires |cs| > 0 && SameLength(cs, |cs[0]|)
    ensures |r| == |cs[0]|
    ensures forall k, i :: 0 <= k < |cs| && 0 <= i < |r| ==> cs[k][i] <= r[i]
    ensures forall i :: 0 <= i < |r| ==> exists k :: 0 <= k < |cs| && r[i] == cs[k][i]
    decreases |cs|
  {
    if |cs| == 1 then cs[0]
    else
      var rest := MaxAll(cs[1..]);
      var r := PointwiseMax(cs[0], rest);
      assert forall k :: 1 <= k < |cs| ==> cs[k] == cs[1..][k - 1];
      r
  }

  /**
   * The aggregate depends only on which curves are supplied, not on their
   * order or repetition: two lists with the same members aggregate equally.
   */
  lemma {:induction false} MaxAllSameMembers(cs: seq<seq<real>>, ds: seq<seq<real>>)
    requires |cs| > 0 && SameLength(cs, |cs[0]|)
    requires |ds| > 0 && SameLength(ds, |ds[0]|)
    requires forall c :: c in cs <==> c in ds
    ensures MaxAll(cs) == MaxAll(ds)
  {
    var x, y := MaxAll(cs), MaxAll(ds);
    assert |cs[0]| == |ds[0]| by {
      assert cs[0] in ds;
    }
    forall i | 0 <= i < |x|
      ensures x[i] == y[i]
    {
      var k :| 0 <= k < |cs| && x[i] == cs[k][i];
      var j :| 0 <= j < |ds| && y[i] == ds[j][i];
      assert cs[k] in ds;
      var k' :| 0 <= k' < |ds| && ds[k'] == cs[k];
      assert ds[j] in cs;
      var j' :| 0 <= j' < |cs| && cs[j'] == ds[j];
      assert x[i] <= y[i] by { assert ds[k'][i] <= y[i]; }
      assert y[i] <= x[i] by { assert cs[j'][i] <= x[i]; }
    }
  }

  /** Aggregation is invariant under any permutation of the curves. */
  lemma {:induction false} MaxAllPermutation(cs: seq<seq<real>>, ds: seq<seq<real>>)
    requires |cs| > 0 && SameLength(cs, |cs[0]|)
    requires multiset(cs) == multiset(ds)
    ensures |ds| > 0 && SameLength(ds, |ds[0]|)
    ensures MaxAll(cs) == MaxAll(ds)
  {
    assert |ds| == |multiset(ds)| == |multiset(cs)| == |cs|;
    forall c | c in ds
      ensures |c| == |cs[0]|
    {
      assert c in multiset(cs);
    }
    assert forall k :: 0 <= k < |ds| ==> ds[k] in ds;
    forall c
      ensures c in cs <==> c in ds
    {
      assert c in cs <==> c in multiset(cs);
      assert c in ds <==> c in multiset(ds);
    }
    MaxAllSameMembers(cs, ds);
  }

  /** The script's three-way aggregation `fmax(a, fmax(b, c))` is MaxAll of the three curves. */
  lemma MaxAllOfThree(a: seq<real>, b: seq<real>, c: seq<real>)
    requires |a| == |b| == |c|
    ensures MaxAll([a, b, c]) == PointwiseMax(a, PointwiseMax(b, c))
  {
    assert [a, b, c][1..] == [b, c];
    assert [b, c][1..] == [c];
  }

  /**
   * Every order and grouping of a three-way pointwise max agrees with the
   * right-nested one: any arrangement x, y, z of a, b, c, nested either way.
   */
  lemma {:induction false} PointwiseMaxAnyOrder(a: seq<real>, b: seq<real>, c: seq<real>)
    requires |a| == |b| == |c|
    ensures forall x, y, z | multiset{x, y, z} == multiset{a, b, c} ::
      && |x| == |y| == |z| == |a|
      && PointwiseMax(x, PointwiseMax(y, z)) == PointwiseMax(a, PointwiseMax(b, c))
      && PointwiseMax(PointwiseMax(x, y), z) == PointwiseMax(a, PointwiseMax(b, c))
  {
    forall x, y, z | multiset{x, y, z} == multiset{a, b, c} {
      ArrangementAgrees(a, b, c, x, y, z);
    }
  }

  lemma ArrangementAgrees(a: seq<real>, b: seq<real>, c: seq<real>, x: seq<real>, y: seq<real>, z: seq<real>)
    requires |a| == |b| == |c|
    requires multiset{x, y, z} == multiset{a, b, c}
    ensures |x| == |y| == |z| == |a|
    ensures PointwiseMax(x, PointwiseMax(y, z)) == PointwiseMax(a, PointwiseMax(b, c))
    ensures PointwiseMax(PointwiseMax(x, y), z) == PointwiseMax(a, PointwiseMax(b, c))
  {
    var abc, xyz := [a, b, c], [x, y, z];
    forall q
      ensures q in abc <==> q in xyz
    {
      assert q in abc <==> q in multiset{a, b, c};
      assert q in xyz <==> q in multiset{x, y, z};
    }
    assert x in abc && y in abc && z in abc;
    assert SameLength(abc, |abc[0]|) && SameLength(xyz, |xyz[0]|);
    MaxAllSameMembers(abc, xyz);
    MaxAllOfThree(a, b, c);
    MaxAllOfThree(x, y, z);
    PointwiseMaxCommutesAndAssociates(x, y, z);
  }

  /** Appending a curve to the list is one more `fmax` with it, applied last. */
  lemma {:induction false} MaxAllAppend(cs: seq<seq<real>>, low: seq<real>)
    requires |cs| > 0 && SameLength(cs, |low|)
    ensures SameLength(cs + [low], |low|)
    ensures MaxAll(cs + [low]) == PointwiseMax(MaxAll(cs), low)
  {
    var more := cs + [low];
    assert more[0] == cs[0];
    assert more[1..] == cs[1..] + [low];
    if |cs| == 1 {
      assert more[1..] == [low];
    } else {
      assert SameLength(cs[1..], |low|);
      MaxAllAppend(cs[1..], low);
      PointwiseMaxCommutesAndAssociates(cs[0], MaxAll(cs[1..]), low);
    }
  }

  /** Appending a curve that lies below one already present does not change the aggregate. */
  lemma {:induction false} MaxAllIgnoresLower(cs: seq<seq<real>>, low: seq<real>)
    requires |cs| > 0 && SameLength(cs, |low|)
    requires forall i :: 0 <= i < |low| ==> low[i] <= cs[0][i]
    ensures SameLength(cs + [low], |low|)
    ensures MaxAll(cs + [low]) == MaxAll(cs)
  {
    MaxAllAppend(cs, low);
    var r := MaxAll(cs);
    assert forall i :: 0 <= i < |low| ==> low[i] <= r[i];
    assert PointwiseMax(r, low) == r;
  }

  /** If every curve is below a bound, so is their aggregate. */
  lemma MaxAllBelow(cs: seq<seq<real>>, bound: real)
    requires |cs| > 0 && SameLength(cs, |cs[0]|)
    requires forall k :: 0 <= k < |cs| ==> Below(cs[k], bound)
    ensures Below(MaxAll(cs), bound)
  {
  }

  /** If every curve is all zero, so is their aggregate. */
  lemma MaxAllOfZeros(cs: seq<seq<real>>)
    requires |cs| > 0 && SameLength(cs, |cs[0]|)
    requires forall k :: 0 <= k < |cs| ==> AllZero(cs[k])
    ensures AllZero(MaxAll(cs))
  {
  }

  /** The aggregate of curves of degrees is a curve of degrees. */
  lemma MaxAllInUnit(cs: seq<seq<real>>)
    requires |cs| > 0 && SameLength(cs, |cs[0]|)
    requires forall k :: 0 <= k < |cs| ==> InUnit(cs[k])
    ensures InUnit(MaxAll(cs))
  {
  }
}
