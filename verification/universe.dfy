/**
 * Sample grids ("universes") built the way numpy's `arange(start, stop, step)`
 * builds them on integers: the samples start, start + step, start + 2*step, ...
 * that lie strictly before `stop` in the direction of the step.
 */
module Universe {
  import opened Outcomes

  /** `x` lies in the half-open range from `start` towards `stop` and is a whole number of steps from `start`. */
  predicate OnGrid(x: int, start: int, stop: int, step: int)
    requires step != 0
  {
    if step > 0 then start <= x < stop && (x - start) % step == 0
    else stop < x <= start && (start - x) % (-step) == 0
  }

  predicate StrictlyIncreasing(s: seq<int>) {
    forall i, j :: 0 <= i < j < |s| ==> s[i] < s[j]
  }

  predicate StrictlyDecreasing(s: seq<int>) {
    forall i, j :: 0 <= i < j < |s| ==> s[i] > s[j]
  }

  /** ceil(span / size) for a positive span, 0 otherwise. */
  function Steps(span: int, size: int): nat
    requires size > 0
  {
    if span > 0 then (span + size - 1) / size else 0
  }

  /** An index is below the sample count exactly when that many whole steps stay inside the span. */
  lemma {:induction false} StepsBound(span: int, size: int, i: nat)
    requires size > 0
    ensures i < Steps(span, size) <==> i * size < span
  {
    if span > 0 {
      var q, m := (span + size - 1) / size, (span + size - 1) % size;
      assert span + size - 1 == q * size + m && 0 <= m < size;
      if i < q {
        assert i * size <= (q - 1) * size by { MulMonotone(i, q - 1, size); }
      } else {
        assert q * size <= i * size by { MulMonotone(q, i, size); }
      }
    } else {
      assert i * size >= 0;
    }
  }

  lemma MulMonotone(a: int, b: int, c: nat)
    requires a <= b
    ensures a * c <= b * c
  {
    assert b * c - a * c == (b - a) * c;
  }

  /** A multiple of `size` divides back exactly. */
  lemma {:induction false} MultipleOf(i: nat, size: int)
    requires size > 0
    ensures (i * size) % size == 0 && (i * size) / size == i
  {
    var q, m := (i * size) / size, (i * size) % size;
    assert i * size == q * size + m && 0 <= m < size;
    if q < i {
      MulMonotone(q + 1, i, size);
    } else if q > i {
      MulMonotone(i + 1, q, size);
    }
  }

  /** The grid point at index `i` from `start`. */
  function Sample(start: int, step: int, i: nat): int {
    start + i * step
  }

  /**
   * numpy's `arange(start, stop, step)` on integers. A zero step fails
   * (numpy raises a division error). Otherwise the samples are exactly the
   * grid points of the half-open range, listed in the direction of the step,
   * starting at `start`.
   */
  function Arange(start: int, stop: int, step: int): (r: Result<seq<int>>)
    ensures r.Failure? <==> step == 0
    ensures r.Failure? ==> r.error == ZeroStep
    ensures r.Ok? ==> forall x :: x in r.value <==> OnGrid(x, start, stop, step)
    ensures r.Ok? && step > 0 ==> StrictlyIncreasing(r.value)
    ensures r.Ok? && step < 0 ==> StrictlyDecreasing(r.value)
    ensures r.Ok? && |r.value| > 0 ==> r.value[0] == start
  {
    if step == 0 then Failure(ZeroStep)
    else
      var size := if step > 0 then step else -step;
      var span := if step > 0 then stop - start else start - stop;
      var n := Steps(span, size);
      var s := seq(n, i requires 0 <= i < n => Sample(start, step, i));
      GridMembers(start, stop, step, s);
      OrderOf(start, step, s);
      Ok(s)
  }

  lemma {:induction false} GridMembers(start: int, stop: int, step: int, s: seq<int>)
    requires step != 0
    requires |s| == Steps(if step > 0 then stop - start else start - stop, if step > 0 then step else -step)
    requires forall i :: 0 <= i < |s| ==> s[i] == Sample(start, step, i)
    ensures forall x :: x in s <==> OnGrid(x, start, stop, step)
  {
    var size := if step > 0 then step else -step;
    var span := if step > 0 then stop - start else start - stop;
    forall x
      ensures x in s <==> OnGrid(x, start, stop, step)
    {
      if x in s {
        var i :| 0 <= i < |s| && s[i] == x;
        StepsBound(span, size, i);
        MultipleOf(i, size);
        if step > 0 {
          assert x - start == i * size;
        } else {
          assert start - x == i * size;
        }
      }
      if OnGrid(x, start, stop, step) {
        var d := if step > 0 then x - start else start - x;
        var i := d / size;
        assert d == i * size;
        StepsBound(span, size, i);
        assert s[i] == x;
      }
    }
  }

  lemma OrderOf(start: int, step: int, s: seq<int>)
    requires step != 0
    requires forall i :: 0 <= i < |s| ==> s[i] == Sample(start, step, i)
    ensures step > 0 ==> StrictlyIncreasing(s)
    ensures step < 0 ==> StrictlyDecreasing(s)
  {
    forall i, j | 0 <= i < j < |s|
      ensures step > 0 ==> s[i] < s[j]
      ensures step < 0 ==> s[i] > s[j]
    {
      assert s[j] - s[i] == (j - i) * step;
      if step > 0 {
        MulMonotone(1, j - i, step);
      } else {
        MulMonotone(1, j - i, -step);
      }
    }
  }

  /** The three input universes, `arange(0, 11, 1)`: exactly the eleven samples 0..10 in order. */
  lemma InputUniverseShape()
    ensures Arange(0, 11, 1).Ok?
    ensures |Arange(0, 11, 1).value| == 11
    ensures forall i :: 0 <= i < 11 ==> Arange(0, 11, 1).value[i] == i
  {
    UnitGrid(11);
  }

  /** The output universe, `arange(0, 101, 1)`: exactly the 101 samples 0..100 in order. */
  lemma OutputUniverseShape()
    ensures Arange(0, 101, 1).Ok?
    ensures |Arange(0, 101, 1).value| == 101
    ensures forall i :: 0 <= i < 101 ==> Arange(0, 101, 1).value[i] == i
  {
    UnitGrid(101);
  }

  /** `arange(0, n, 1)` lists 0..n-1 in order. */
  lemma UnitGrid(n: nat)
    ensures Arange(0, n, 1).Ok?
    ensures |Arange(0, n, 1).value| == n
    ensures forall i :: 0 <= i < n ==> Arange(0, n, 1).value[i] == i
  {
    assert Steps(n, 1) == n;
  }
}
