# Fuzzy heart-condition analyzer: the Mamdani rule pipeline in Dafny

The original script rates a patient's body condition from three readings:
heart rate, blood pressure and outside temperature. It uses Mamdani fuzzy
inference:

- integer sample grids (universes) are built with numpy's `arange`;
- each reading is fuzzified into low / medium / high membership degrees;
- three rules combine those degrees with `fmin` (fuzzy AND) and `fmax` (fuzzy OR);
- each rule's output curve is clipped at the rule's firing strength;
- the three clipped curves are merged by pointwise `fmax`;
- the merged set is reduced to a crisp value, and the crisp value with its
  activation degree is mapped to a verdict by an if/elif ladder.

This project models every step of that pipeline that the script itself
computes. Values are Dafny `real`s and curves are `seq<real>`. All
operations are pure functions.

- `Outcomes` (`outcomes.dfy`): the error values (`ZeroStep`, `NoRules`,
  `MissingInput`, `UniverseMismatch`) and a `Result` type.
- `Universe` (`universe.dfy`): `Arange` on integers. The samples are exactly
  the grid points of the half-open range, in step order.
- `FuzzyOps` (`fuzzy_ops.dfy`): `Min` and `Max`, i.e. `np.fmin` and `np.fmax`
  on non-NaN numbers.
- `Curves` (`curves.dfy`): min-implication `Clip` (a scalar strength broadcast
  over a curve), pointwise `PointwiseMax`, and the right-nested aggregation
  `MaxAll`.
- `Rules` (`rules.dfy`): antecedent trees `Term(slot) | And | Or`, evaluated
  exactly as written.
- `Engine` (`engine.dfy`): a generic rule base with `Infer`
  (fire → clip → aggregate) and its error cases.
- `HeartModel` (`heart.dfy`): the script's nine input degrees, its three rules
  and its aggregated set, proved to be one instance of `Infer`.
- `Classification` (`classification.dfy`): the verdict ladder.

The verdict ladder compares the crisp value with the literal `0.8`, exactly as
the script does, even though the crisp value lies on the 0..100 output
universe. Read literally, "stable" needs a crisp value of at most 0.8. For
`0.5 <= activation <= 0.8` with `crisp > 0.8`, no branch fires and the model
returns `NoVerdict`.

The error cases of `Infer` (`NoRules`, `MissingInput`, `UniverseMismatch`) are
never reached by the script's fixed configuration. They are the checks the
generic engine needs once the rule base becomes a parameter.

## Model

| member | source | states |
|---|---|---|
| Universe.Arange | FuzzeCode_SanjaySekarSamuel_25036335.py:8-14 | A zero step fails. Otherwise the samples are exactly the integers in the half-open range from start towards stop that are a whole number of steps from start. They are strictly increasing for a positive step and strictly decreasing for a negative one, and the first sample is start. |
| Universe.InputUniverseShape | FuzzeCode_SanjaySekarSamuel_25036335.py:8-10 | `arange(0, 11, 1)` has exactly 11 samples, 0..10 in order. |
| Universe.OutputUniverseShape | FuzzeCode_SanjaySekarSamuel_25036335.py:14 | `arange(0, 101, 1)` has exactly 101 samples, 0..100 in order. |
| FuzzyOps.Min | FuzzeCode_SanjaySekarSamuel_25036335.py:118 | Fuzzy AND is at most each operand and equals one of them. |
| FuzzyOps.Max | FuzzeCode_SanjaySekarSamuel_25036335.py:119 | Fuzzy OR is at least each operand and equals one of them. |
| FuzzyOps.ConnectivesKeepDegrees | FuzzeCode_SanjaySekarSamuel_25036335.py:118-119 | AND and OR of two degrees in [0,1] stay in [0,1]. |
| FuzzyOps.ConnectivesCommuteAndAssociate | FuzzeCode_SanjaySekarSamuel_25036335.py:134-135 | AND and OR are commutative and associative. |
| Rules.Eval | FuzzeCode_SanjaySekarSamuel_25036335.py:118-135 | A rule's firing strength is one of the degrees its antecedent reads. It therefore lies in [0,1] whenever those degrees do. |
| Rules.ConjunctionBelowEach | FuzzeCode_SanjaySekarSamuel_25036335.py:134-135 | A pure-AND antecedent fires no stronger than any of its terms. |
| Rules.DisjunctionAboveEach | FuzzeCode_SanjaySekarSamuel_25036335.py:119 | A pure-OR antecedent fires at least as strongly as each of its terms. |
| Rules.ConjunctionOrderIrrelevant | FuzzeCode_SanjaySekarSamuel_25036335.py:134-135 | Two pure-AND antecedents over the same terms fire equally, whatever the order and grouping of the mins. |
| Rules.DisjunctionOrderIrrelevant | FuzzeCode_SanjaySekarSamuel_25036335.py:119 | Two pure-OR antecedents over the same terms fire equally. |
| Rules.EvalMonotone | FuzzeCode_SanjaySekarSamuel_25036335.py:118-135 | Raising the input degrees never lowers a firing strength. |
| Rules.EvalReadsOnlySlots | FuzzeCode_SanjaySekarSamuel_25036335.py:118-135 | A firing strength depends only on the degrees the antecedent names. |
| Curves.Clip | FuzzeCode_SanjaySekarSamuel_25036335.py:120 | Implication keeps the curve length. Each clipped sample is at most both the strength and the original sample, and equals one of the two. |
| Curves.ClipByZero | FuzzeCode_SanjaySekarSamuel_25036335.py:120 | A rule with strength 0 yields an all-zero curve from a non-negative consequent. |
| Curves.ClipByFull | FuzzeCode_SanjaySekarSamuel_25036335.py:120 | A strength of at least 1 leaves a consequent of [0,1] values unchanged. |
| Curves.ClipInUnit | FuzzeCode_SanjaySekarSamuel_25036335.py:120 | Clipping a [0,1] curve by a [0,1] strength gives a [0,1] curve. |
| Curves.ClipMonotone | FuzzeCode_SanjaySekarSamuel_25036335.py:128 | A stronger firing never yields a lower clipped sample. |
| Curves.PointwiseMax | FuzzeCode_SanjaySekarSamuel_25036335.py:169-170 | `fmax` of two equal-length curves keeps the length. Each sample is at least both inputs and equals one of them. |
| Curves.PointwiseMaxCommutesAndAssociates | FuzzeCode_SanjaySekarSamuel_25036335.py:169-170 | Pointwise max is commutative and associative. |
| Curves.PointwiseMaxAnyOrder | FuzzeCode_SanjaySekarSamuel_25036335.py:169-170 | For every arrangement x, y, z of a, b, c (same multiset), both `fmax(x, fmax(y, z))` and `fmax(fmax(x, y), z)` equal the right-nested `fmax(a, fmax(b, c))`. |
| Curves.MaxAll | FuzzeCode_SanjaySekarSamuel_25036335.py:169-170 | Right-nested aggregation has the curves' length. Each sample is at least every curve's sample and equals one of them. |
| Curves.MaxAllSameMembers | FuzzeCode_SanjaySekarSamuel_25036335.py:169-170 | Two lists with the same curves aggregate equally, regardless of order or repetition. |
| Curves.MaxAllPermutation | FuzzeCode_SanjaySekarSamuel_25036335.py:169-170 | Aggregation is invariant under permutation of the curves. |
| Curves.MaxAllAppend | FuzzeCode_SanjaySekarSamuel_25036335.py:169-170 | Aggregating a list with one more curve is one more pointwise max with that curve. |
| Curves.MaxAllIgnoresLower | FuzzeCode_SanjaySekarSamuel_25036335.py:169-170 | Adding a curve that lies below one already present leaves the aggregate unchanged. |
| Curves.MaxAllOfThree | FuzzeCode_SanjaySekarSamuel_25036335.py:169-170 | The script's `fmax(a, fmax(b, c))` is the aggregation of the list [a, b, c]. |
| Curves.MaxAllBelow | FuzzeCode_SanjaySekarSamuel_25036335.py:169-170 | If every curve is below a bound, so is the aggregate. |
| Curves.MaxAllOfZeros | FuzzeCode_SanjaySekarSamuel_25036335.py:169-170 | Aggregating all-zero curves gives an all-zero curve. |
| Curves.MaxAllInUnit | FuzzeCode_SanjaySekarSamuel_25036335.py:169-170 | Aggregating [0,1] curves gives a [0,1] curve. |
| Engine.Infer | FuzzeCode_SanjaySekarSamuel_25036335.py:118-170 | Fails exactly on an empty rule base, then on a missing degree, then on a consequent off the output universe. On success the result has the universe's length. Each sample is at least every rule's `min(strength, consequent[i])` and equals one of them. |
| Engine.InferPermutation | FuzzeCode_SanjaySekarSamuel_25036335.py:169-170 | Reordering the rule base does not change the inference result. |
| Engine.InferSilent | FuzzeCode_SanjaySekarSamuel_25036335.py:120-170 | If no rule fires and the consequents are non-negative, inference succeeds with an all-zero set. |
| Engine.InferIgnoresSilentRule | FuzzeCode_SanjaySekarSamuel_25036335.py:120-170 | A rule with strength 0 contributes nothing. With non-negative degrees and consequents, appending it to a non-empty rule base leaves the inference result unchanged. |
| Engine.InferBelowStrongest | FuzzeCode_SanjaySekarSamuel_25036335.py:120-170 | No aggregated sample exceeds a bound on all firing strengths. |
| Engine.InferInUnit | FuzzeCode_SanjaySekarSamuel_25036335.py:118-170 | With degrees and consequents in [0,1], the aggregated set is in [0,1]. |
| HeartModel.SlotsDistinct | FuzzeCode_SanjaySekarSamuel_25036335.py:96-106 | Each of the nine variable/term degrees has its own slot. |
| HeartModel.Rule1Strength | FuzzeCode_SanjaySekarSamuel_25036335.py:118-119 | Rule 1 fires at `fmax(fmin(HR_hi, BP_lo), T_lo)`. |
| HeartModel.Rule2Strength | FuzzeCode_SanjaySekarSamuel_25036335.py:126-127 | Rule 2 fires at `fmax(fmin(HR_lo, BP_md), T_md)`. |
| HeartModel.Rule3Strength | FuzzeCode_SanjaySekarSamuel_25036335.py:134-135 | Rule 3 fires at `fmin(fmin(BP_md, T_md), HR_md)`. This is at most each of the three degrees and equals every other pure-AND grouping of them. |
| HeartModel.StrengthsAreDegrees | FuzzeCode_SanjaySekarSamuel_25036335.py:118-135 | With all nine degrees in [0,1], all three strengths are in [0,1]. |
| HeartModel.Aggregated | FuzzeCode_SanjaySekarSamuel_25036335.py:120-170 | The aggregated set has the consequents' length. Each sample is at least each rule's clipped sample and equals one of them. |
| HeartModel.AggregatedIsInference | FuzzeCode_SanjaySekarSamuel_25036335.py:169-170 | On `arange(0, 101, 1)`, the generic engine succeeds on the three-rule base and yields the script's aggregated set. |
| HeartModel.AggregatedGrouping | FuzzeCode_SanjaySekarSamuel_25036335.py:169-170 | Every arrangement of the three clipped curves, nested to the left or to the right, gives the script's aggregated set. |
| HeartModel.AggregatedBelowStrongest | FuzzeCode_SanjaySekarSamuel_25036335.py:120-170 | No aggregated sample exceeds the largest of the three rule strengths. |
| HeartModel.AggregatedSilent | FuzzeCode_SanjaySekarSamuel_25036335.py:120-170 | If all three strengths are 0 and the consequents are non-negative, the aggregated set is all zero. |
| Classification.Classify | FuzzeCode_SanjaySekarSamuel_25036335.py:181-188 | Critical iff activation < 0.5. Stable iff activation >= 0.5 and crisp <= 0.8. Healthy iff activation > 0.8 and crisp > 0.8. No verdict iff 0.5 <= activation <= 0.8 and crisp > 0.8. The four cases are mutually exclusive. |
| Classification.HealthyNeedsLargeCrisp | FuzzeCode_SanjaySekarSamuel_25036335.py:184-187 | A crisp value at or below 0.8 is never healthy. With activation >= 0.5 it is stable. |
| Classification.GapWitness | FuzzeCode_SanjaySekarSamuel_25036335.py:181-188 | Crisp 50 with activation 0.5 or 0.8 gets no verdict. Crisp 0.8 with activation 0.8 is stable. Crisp 50 with activation 0.81 is healthy. |

## Left out

- Plotting: all matplotlib figure building and styling (lines 53-87, 143-163, 192-209) is UI with no computed result.
- Output: the `print` calls (lines 178-179, 182-188) are I/O. `Classify` returns the verdict that selects the message.
- `skfuzzy.trimf` (lines 23-49): library code whose source is not part of this model. Consequent curves enter `Infer` and `Aggregated` as parameters, with ranges stated as preconditions where a lemma needs them.
- `skfuzzy.interp_membership` (lines 96-106, 177): library code, not part of this model. The nine input degrees and the activation degree are parameters.
- `skfuzzy.defuzz` with the centroid method (line 175): library code, not part of this model. The crisp value is a parameter of `Classify`.
- The concrete readings 5, 5 and 8: their degrees come from the unmodelled library, so the model states every property for arbitrary degrees.
- Floating point: values are exact reals. NaN handling of `fmin`/`fmax` (they ignore a NaN operand) and rounding are not modelled. Min, max and comparisons are exact in IEEE arithmetic apart from NaN.
- Universe.Arange: the sample count is exact integer ceiling division. numpy computes it in floating point, which differs only for ranges beyond 2^53. Arrays of other dtypes (float starts or steps) are not modelled, because the script only uses integer grids.
- Curves.PointwiseMax: numpy broadcasting of a length-1 array against a longer one is not modelled. Both curves must have the same length, as they always do in the script.
