/** Grid search: sizing the grid to the budget, building its axes, and enumerating its points. */
module Grid {
  import opened Domain
  import opened History
  import opened Guard
  import opened Loop

  // ---------------------------------------------------------------- sizing

  function Pow(base: nat, exponent: nat): nat {
    if exponent == 0 then 1 else base * Pow(base, exponent - 1)
  }

  function NumericAxes(space: Space): nat {
    if space == [] then 0
    else NumericAxes(space[..|space| - 1]) + if space[|space| - 1].CategoricalParam? then 0 else 1
  }

  function CategoricalSize(space: Space): nat {
    if space == [] then 1
    else
      var last := space[|space| - 1];
      CategoricalSize(space[..|space| - 1]) * if last.CategoricalParam? then |last.choices| else 1
  }

  /** `points` on each of `axes` numeric axes, times the categorical size, fits the budget. */
  predicate Fits(points: nat, axes: nat, size: nat, budget: nat) {
    Pow(points, axes) * size <= budget
  }

  lemma {:induction false} MultiplyMonotone(small: nat, large: nat, factor: nat)
    requires small <= large
    ensures small * factor <= large * factor
  {
  }

  lemma {:induction false} ProductMonotone(a: nat, a': nat, b: nat, b': nat)
    requires a <= a' && b <= b'
    ensures a * b <= a' * b'
  {
    MultiplyMonotone(a, a', b);
    MultiplyMonotone(b, b', a');
  }

  lemma {:induction false} PowAtLeastBase(base: nat, exponent: nat)
    requires base >= 1
    ensures Pow(base, exponent) >= 1
    ensures exponent >= 1 ==> Pow(base, exponent) >= base
  {
    if exponent > 0 {
      PowAtLeastBase(base, exponent - 1);
      ProductMonotone(base, base, 1, Pow(base, exponent - 1));
    }
  }

  lemma {:induction false} PowMonotone(small: nat, large: nat, exponent: nat)
    requires small <= large
    ensures Pow(small, exponent) <= Pow(large, exponent)
  {
    if exponent > 0 {
      PowMonotone(small, large, exponent - 1);
      ProductMonotone(small, large, Pow(small, exponent - 1), Pow(large, exponent - 1));
    }
  }

  lemma {:induction false} FitsMonotone(small: nat, large: nat, axes: nat, size: nat, budget: nat)
    requires small <= large && Fits(large, axes, size, budget)
    ensures Fits(small, axes, size, budget)
  {
    PowMonotone(small, large, axes);
    MultiplyMonotone(Pow(small, axes), Pow(large, axes), size);
  }

  lemma {:induction false} FitsBounds(points: nat, axes: nat, size: nat, budget: nat)
    requires axes >= 1 && size >= 1 && Fits(points, axes, size, budget)
    ensures points <= budget
  {
    if points > 0 {
      PowAtLeastBase(points, axes);
      ProductMonotone(points, Pow(points, axes), 1, size);
    }
  }

  /** Stepping up from `points` while the larger grid still fits. */
  function SteppedUp(points: nat, axes: nat, size: nat, budget: nat): nat
    requires axes >= 1 && size >= 1
    decreases budget - points
  {
    if Fits(points + 1, axes, size, budget) then
      FitsBounds(points + 1, axes, size, budget);
      SteppedUp(points + 1, axes, size, budget)
    else points
  }

  function PointsFor(space: Space, budget: nat): nat
    requires forall i | 0 <= i < |space| :: space[i].Valid()
  {
    CategoricalSizePositive(space);
    if NumericAxes(space) == 0 || budget < CategoricalSize(space) then 1
    else SteppedUp(1, NumericAxes(space), CategoricalSize(space), budget)
  }

  lemma {:induction false} CategoricalSizePositive(space: Space)
    requires forall i | 0 <= i < |space| :: space[i].Valid()
    ensures CategoricalSize(space) >= 1
  {
    if space != [] {
      CategoricalSizePositive(space[..|space| - 1]);
      var last := space[|space| - 1];
      ProductMonotone(1, CategoricalSize(space[..|space| - 1]), 1, if last.CategoricalParam? then |last.choices| else 1);
    }
  }

  lemma {:induction false} SteppedUpIsGreatest(points: nat, axes: nat, size: nat, budget: nat)
    requires axes >= 1 && size >= 1 && Fits(points, axes, size, budget)
    ensures SteppedUp(points, axes, size, budget) >= points
    ensures forall j: nat :: Fits(j, axes, size, budget) <==> j <= SteppedUp(points, axes, size, budget)
    decreases budget - points
  {
    if Fits(points + 1, axes, size, budget) {
      FitsBounds(points + 1, axes, size, budget);
      SteppedUpIsGreatest(points + 1, axes, size, budget);
    } else {
      forall j: nat ensures Fits(j, axes, size, budget) <==> j <= points {
        if j <= points {
          FitsMonotone(j, points, axes, size, budget);
        } else if Fits(j, axes, size, budget) {
          FitsMonotone(points + 1, j, axes, size, budget);
        }
      }
    }
  }

  function Max(a: nat, b: nat): nat {
    if a < b then b else a
  }

  /** What the sizing loop comes to when it starts from `root`. */
  function SizedFrom(space: Space, budget: nat, root: nat): nat
    requires forall i | 0 <= i < |space| :: space[i].Valid()
  {
    CategoricalSizePositive(space);
    if NumericAxes(space) == 0 || budget < CategoricalSize(space) then 1
    else Max(1, SteppedUp(root, NumericAxes(space), CategoricalSize(space), budget))
  }

  /** The sizing loop, started from `root`, the truncated floating-point root.  The result is the
      greatest number of points that fits exactly when the root does not overshoot. */
  method PointsPerAxis(space: Space, budget: nat, root: nat) returns (points: nat)
    requires forall i | 0 <= i < |space| :: space[i].Valid()
    ensures points == SizedFrom(space, budget, root)
    ensures NumericAxes(space) == 0 || budget < CategoricalSize(space) ==> points == 1 == PointsFor(space, budget)
    ensures NumericAxes(space) > 0 && CategoricalSize(space) <= budget ==>
              ((forall j: nat :: Fits(j, NumericAxes(space), CategoricalSize(space), budget) <==> j <= points) <==>
                 Fits(root, NumericAxes(space), CategoricalSize(space), budget))
    ensures (NumericAxes(space) > 0 && CategoricalSize(space) <= budget &&
             Fits(root, NumericAxes(space), CategoricalSize(space), budget)) ==> points == PointsFor(space, budget)
  {
    var numeric, size := 0, 1;
    for i := 0 to |space|
      invariant numeric == NumericAxes(space[..i]) && size == CategoricalSize(space[..i])
    {
      assert space[..i + 1][..i] == space[..i];
      match space[i]
      case CategoricalParam(_, choices) => size := size * |choices|;
      case _ => numeric := numeric + 1;
    }
    assert space[..|space|] == space;
    CategoricalSizePositive(space);
    if numeric == 0 || budget < size {
      return 1;
    }
    assert Fits(1, numeric, size, budget) by {
      PowOfOne(numeric);
    }
    points := root;
    while Pow(points + 1, numeric) * size <= budget
      invariant points >= root
      invariant points == root || Fits(points, numeric, size, budget)
      invariant SteppedUp(points, numeric, size, budget) == SteppedUp(root, numeric, size, budget)
      decreases budget - points
    {
      FitsBounds(points + 1, numeric, size, budget);
      points := points + 1;
    }
    SteppedUpIsGreatest(1, numeric, size, budget);
    if Fits(root, numeric, size, budget) {
      SteppedUpIsGreatest(root, numeric, size, budget);
      assert Fits(points, numeric, size, budget);
      assert Fits(SteppedUp(1, numeric, size, budget), numeric, size, budget);
    } else {
      assert points == root && root > 1;
    }
    points := Max(1, points);
  }

  lemma {:induction false} PowOfOne(exponent: nat)
    ensures Pow(1, exponent) == 1
  {
    if exponent > 0 {
      PowOfOne(exponent - 1);
    }
  }

  // ---------------------------------------------------------------- axes

  function Deduped(values: seq<int>): seq<int> {
    if values == [] then []
    else
      var before := Deduped(values[..|values| - 1]);
      if values[|values| - 1] in before then before else before + [values[|values| - 1]]
  }

  function StepOf(low: real, high: real, points: nat): real
    requires points >= 2
  {
    (high - low) / (points - 1) as real
  }

  /** Evenly spaced positions including both bounds. */
  function Spaced(low: real, high: real, points: nat, i: nat): real
    requires points >= 2
  {
    Along(low, StepOf(low, high, points), i)
  }

  function Along(low: real, step: real, i: nat): real {
    low + step * i as real
  }

  function AxisFor(spec: ParamSpec, points: nat): seq<Value> {
    match spec
    case CategoricalParam(_, choices) => seq(|choices|, i requires 0 <= i < |choices| => Text(choices[i]))
    case FloatParam(_, low, high) =>
      if points < 2 then [Float((low + high) / 2.0)]
      else seq(points, i requires 0 <= i < points => Float(Spaced(low, high, points, i)))
    case IntParam(_, low, high) =>
      var integers := if points < 2 then [Round((low + high) / 2.0)]
                      else Deduped(seq(points, i requires 0 <= i < points => ClampInt(Round(Spaced(low, high, points, i)), low, high)));
      seq(|integers|, i requires 0 <= i < |integers| => Whole(integers[i]))
  }

  method AxisValues(spec: ParamSpec, points: nat) returns (values: seq<Value>)
    ensures values == AxisFor(spec, points)
  {
    match spec
    case CategoricalParam(_, choices) =>
      values := AxisFor(spec, points);
    case FloatParam(_, low, high) =>
      values := AxisFor(spec, points);
    case IntParam(_, low, high) =>
      if points < 2 {
        return [Whole(Round((low + high) / 2.0))];
      }
      var integers := seq(points, i requires 0 <= i < points => ClampInt(Round(Spaced(low, high, points, i)), low, high));
      var unique: seq<int> := [];
      for i := 0 to |integers|
        invariant unique == Deduped(integers[..i])
      {
        assert integers[..i + 1][..i] == integers[..i];
        if integers[i] !in unique {
          unique := unique + [integers[i]];
        }
      }
      assert integers[..|integers|] == integers;
      values := seq(|unique|, i requires 0 <= i < |unique| => Whole(unique[i]));
  }

  lemma {:induction false} DedupedMeaning(values: seq<int>)
    ensures forall v :: v in Deduped(values) <==> v in values
    ensures forall i, j | 0 <= i < j < |Deduped(values)| :: Deduped(values)[i] != Deduped(values)[j]
    ensures |Deduped(values)| <= |values|
    ensures values != [] ==> Deduped(values) != []
  {
    if values != [] {
      DedupedMeaning(values[..|values| - 1]);
      assert values == values[..|values| - 1] + [values[|values| - 1]];
    }
  }

  /** The middle of bounds that contain an integer rounds to an integer inside them. */
  lemma {:induction false} CentreRoundsInside(low: real, high: real)
    requires low < high && Ceil(low) <= high.Floor
    ensures low <= Round((low + high) / 2.0) as real <= high
  {
    var centre := (low + high) / 2.0;
    var n := high.Floor;
    FloorAndCeil(low, n);
    FloorAndCeil(high, n);
    RoundIsNearestEven(centre, n);
  }

  lemma {:induction false} AlongMonotone(low: real, step: real, a: nat, b: nat)
    requires step >= 0.0 && a <= b
    ensures Along(low, step, a) <= Along(low, step, b)
    ensures a < b ==> Along(low, step, b) - Along(low, step, a) >= step
  {
    if a < b {
      ScaleAtLeast(step, b as real - a as real);
    }
  }

  lemma {:induction false} ScaleAtLeast(step: real, factor: real)
    requires step >= 0.0 && factor >= 1.0
    ensures step * factor >= step
  {
  }

  lemma {:induction false} SpacedInside(low: real, high: real, points: nat, i: nat)
    requires low < high && points >= 2 && i < points
    ensures low <= Spaced(low, high, points, i) <= high
    ensures Spaced(low, high, points, 0) == low && Spaced(low, high, points, points - 1) == high
  {
    AlongMonotone(low, StepOf(low, high, points), 0, i);
    AlongMonotone(low, StepOf(low, high, points), i, points - 1);
  }

  lemma {:induction false} IntegerAxisInSpec(spec: ParamSpec, points: nat)
    requires spec.Valid() && spec.IntParam? && HasInteger(spec) && points >= 2
    ensures AxisFor(spec, points) != []
    ensures forall k | 0 <= k < |AxisFor(spec, points)| :: InSpec(spec, AxisFor(spec, points)[k])
  {
    var low, high := spec.low, spec.high;
    var integers := seq(points, i requires 0 <= i < points => ClampInt(Round(Spaced(low, high, points, i)), low, high));
    DedupedMeaning(integers);
    FloorAndCeil(low, high.Floor);
    forall n | n in integers ensures InSpec(spec, Whole(n)) {
      FloorAndCeil(low, n);
      FloorAndCeil(high, n);
    }
  }

  /** Every axis value is in kind and in bounds, given an integer inside integer bounds; no axis is empty. */
  lemma {:induction false} AxisInSpec(spec: ParamSpec, points: nat)
    requires spec.Valid() && HasInteger(spec)
    ensures AxisFor(spec, points) != []
    ensures forall k | 0 <= k < |AxisFor(spec, points)| :: InSpec(spec, AxisFor(spec, points)[k])
  {
    match spec
    case CategoricalParam(_, choices) =>
    case FloatParam(_, low, high) =>
      if points >= 2 {
        forall i | 0 <= i < points { SpacedInside(low, high, points, i); }
      }
    case IntParam(_, low, high) =>
      if points < 2 {
        CentreRoundsInside(low, high);
      } else {
        IntegerAxisInSpec(spec, points);
      }
  }

  /** A numeric axis goes up. */
  predicate Ascending(values: seq<Value>) {
    && (forall k | 0 <= k < |values| :: values[k].Float? || values[k].Whole?)
    && forall a, b | 0 <= a < b < |values| :: NumberOf(values[a]) < NumberOf(values[b])
  }

  predicate NonDecreasing(values: seq<int>) {
    forall a, b | 0 <= a < b < |values| :: values[a] <= values[b]
  }

  lemma {:induction false} DedupedAscends(values: seq<int>)
    requires NonDecreasing(values)
    ensures forall a, b | 0 <= a < b < |Deduped(values)| :: Deduped(values)[a] < Deduped(values)[b]
  {
    if values != [] {
      var n := |values| - 1;
      DedupedAscends(values[..n]);
      DedupedMeaning(values[..n]);
      var before := Deduped(values[..n]);
      forall a | 0 <= a < |before| && values[n] !in before ensures before[a] < values[n] {
        assert before[a] in before && before[a] in values[..n];
        var k :| 0 <= k < n && values[..n][k] == before[a];
      }
    }
  }

  lemma {:induction false} RoundMonotone(x: real, y: real)
    requires x <= y
    ensures Round(x) <= Round(y)
  {
  }

  lemma {:induction false} RoundedSpacing(low: real, high: real, points: nat)
    requires low < high && points >= 2
    ensures NonDecreasing(seq(points, i requires 0 <= i < points => ClampInt(Round(Spaced(low, high, points, i)), low, high)))
  {
    var integers := seq(points, i requires 0 <= i < points => ClampInt(Round(Spaced(low, high, points, i)), low, high));
    forall a, b | 0 <= a < b < points ensures integers[a] <= integers[b] {
      AlongMonotone(low, StepOf(low, high, points), a, b);
      RoundMonotone(Spaced(low, high, points, a), Spaced(low, high, points, b));
    }
  }

  /** A numeric axis ascends, and a categorical one is its choices in their order. */
  lemma {:induction false} AxisAscends(spec: ParamSpec, points: nat)
    requires spec.Valid()
    ensures !spec.CategoricalParam? ==> Ascending(AxisFor(spec, points))
    ensures spec.CategoricalParam? ==>
              |AxisFor(spec, points)| == |spec.choices| && forall k | 0 <= k < |spec.choices| :: AxisFor(spec, points)[k] == Text(spec.choices[k])
  {
    match spec
    case CategoricalParam(_, _) =>
    case FloatParam(_, low, high) =>
      if points >= 2 {
        forall a, b | 0 <= a < b < points { AlongMonotone(low, StepOf(low, high, points), a, b); }
      }
    case IntParam(_, low, high) =>
      if points >= 2 {
        RoundedSpacing(low, high, points);
        DedupedAscends(seq(points, i requires 0 <= i < points => ClampInt(Round(Spaced(low, high, points, i)), low, high)));
      }
  }

  /** A float axis of one point is the middle; of more, it runs from bound to bound in equal steps. */
  lemma {:induction false} FloatAxisIsEven(spec: ParamSpec, points: nat, i: nat)
    requires spec.Valid() && spec.FloatParam? && i + 1 < |AxisFor(spec, points)|
    ensures points >= 2
    ensures var axis := AxisFor(spec, points);
            && axis[0] == Float(spec.low) && axis[points - 1] == Float(spec.high)
            && NumberOf(axis[i + 1]) - NumberOf(axis[i]) == NumberOf(axis[1]) - NumberOf(axis[0])
  {
    var step := StepOf(spec.low, spec.high, points);
    SpacedInside(spec.low, spec.high, points, 0);
    OneStep(spec.low, step, i);
    OneStep(spec.low, step, 0);
  }

  lemma {:induction false} OneStep(low: real, step: real, i: nat)
    ensures Along(low, step, i + 1) - Along(low, step, i) == step
  {
    assert (i + 1) as real == i as real + 1.0;
  }

  /** An axis of one point is the middle of its bounds, for an integer axis the nearest integer to it. */
  lemma {:induction false} SinglePointIsTheMiddle(spec: ParamSpec, n: int)
    requires spec.Valid() && !spec.CategoricalParam?
    ensures |AxisFor(spec, 1)| == 1
    ensures spec.FloatParam? ==> AxisFor(spec, 1)[0].x - spec.low == spec.high - AxisFor(spec, 1)[0].x
    ensures spec.IntParam? ==>
              var centre := (spec.low + spec.high) / 2.0;
              Distance(AxisFor(spec, 1)[0].n as real, centre) <= Distance(n as real, centre)
  {
    RoundIsNearestEven((if spec.IntParam? then (spec.low + spec.high) / 2.0 else 0.0), n);
  }

  /** The values of an integer axis are exactly the evenly spaced positions, rounded and held inside the bounds,
      each once. */
  lemma {:induction false} IntegerAxisIsRounded(spec: ParamSpec, points: nat, n: int)
    requires spec.Valid() && spec.IntParam? && points >= 2
    ensures Whole(n) in AxisFor(spec, points) <==>
            exists i :: 0 <= i < points && n == ClampInt(Round(Spaced(spec.low, spec.high, points, i)), spec.low, spec.high)
  {
    var integers := seq(points, i requires 0 <= i < points => ClampInt(Round(Spaced(spec.low, spec.high, points, i)), spec.low, spec.high));
    var axis := AxisFor(spec, points);
    DedupedMeaning(integers);
    if Whole(n) in axis {
      var k :| 0 <= k < |axis| && axis[k] == Whole(n);
      assert Deduped(integers)[k] in integers;
      var i :| 0 <= i < points && integers[i] == n;
    }
    if i :| 0 <= i < points && n == ClampInt(Round(Spaced(spec.low, spec.high, points, i)), spec.low, spec.high) {
      assert integers[i] in Deduped(integers);
      var k :| 0 <= k < |Deduped(integers)| && Deduped(integers)[k] == n;
      assert axis[k] == Whole(n);
    }
  }

  /** No two values agree within the tolerance. */
  predicate Separated(values: seq<Value>, tolerance: real) {
    forall a, b | 0 <= a < b < |values| :: !SameValue(values[a], values[b], tolerance)
  }

  /** The choices of a categorical axis are distinct; the spacing of a float axis exceeds the tolerance. */
  predicate WellSpaced(spec: ParamSpec, points: nat, tolerance: real) {
    match spec
    case CategoricalParam(_, choices) => forall a, b | 0 <= a < b < |choices| :: choices[a] != choices[b]
    case FloatParam(_, low, high) => points >= 2 ==> StepOf(low, high, points) > tolerance
    case IntParam(_, _, _) => true
  }

  lemma {:induction false} SpacedApart(low: real, high: real, points: nat, a: nat, b: nat, tolerance: real)
    requires points >= 2 && a < b && StepOf(low, high, points) > tolerance >= 0.0
    ensures Spaced(low, high, points, b) - Spaced(low, high, points, a) > tolerance
  {
    AlongMonotone(low, StepOf(low, high, points), a, b);
  }

  lemma {:induction false} AxisSeparated(spec: ParamSpec, points: nat, tolerance: real)
    requires spec.Valid() && 0.0 <= tolerance < 1.0 && WellSpaced(spec, points, tolerance)
    ensures Separated(AxisFor(spec, points), tolerance)
  {
    match spec
    case CategoricalParam(_, choices) =>
    case FloatParam(_, low, high) =>
      if points >= 2 {
        forall a, b | 0 <= a < b < points { SpacedApart(low, high, points, a, b, tolerance); }
      }
    case IntParam(_, low, high) =>
      if points >= 2 {
        DedupedMeaning(seq(points, i requires 0 <= i < points => ClampInt(Round(Spaced(low, high, points, i)), low, high)));
      }
  }

  /** A numeric axis has at least one value and never more than asked for. */
  lemma {:induction false} AxisSize(spec: ParamSpec, points: nat)
    requires points >= 1
    ensures !spec.CategoricalParam? ==> |AxisFor(spec, points)| >= 1
    ensures |AxisFor(spec, points)| <= if spec.CategoricalParam? then |spec.choices| else points
    ensures spec.CategoricalParam? ==> |AxisFor(spec, points)| == |spec.choices|
    ensures spec.FloatParam? ==> |AxisFor(spec, points)| == points
  {
    if spec.IntParam? && points >= 2 {
      DedupedMeaning(seq(points, i requires 0 <= i < points => ClampInt(Round(Spaced(spec.low, spec.high, points, i)), spec.low, spec.high)));
    }
  }

  // ---------------------------------------------------------------- enumeration

  type Axes = seq<seq<Value>>

  function AxesWith(space: Space, points: nat): Axes {
    seq(|space|, i requires 0 <= i < |space| => AxisFor(space[i], points))
  }

  function AxesOf(space: Space, budget: nat): Axes
    requires forall i | 0 <= i < |space| :: space[i].Valid()
  {
    AxesWith(space, PointsFor(space, budget))
  }

  predicate NonEmpty(axes: Axes) {
    forall k | 0 <= k < |axes| :: axes[k] != []
  }

  function Total(axes: Axes): nat {
    if axes == [] then 1 else Total(axes[..|axes| - 1]) * |axes[|axes| - 1]|
  }

  /** The position on each axis of the `index`-th point: the last axis advances every step. */
  function Digits(axes: Axes, index: nat): seq<nat>
    requires NonEmpty(axes)
  {
    if axes == [] then []
    else
      var last := |axes[|axes| - 1]|;
      Digits(axes[..|axes| - 1], index / last) + [index % last]
  }

  function Encoded(axes: Axes, digits: seq<nat>): nat
    requires |digits| == |axes|
  {
    if axes == [] then 0
    else Encoded(axes[..|axes| - 1], digits[..|axes| - 1]) * |axes[|axes| - 1]| + digits[|axes| - 1]
  }

  predicate InRange(axes: Axes, digits: seq<nat>) {
    |digits| == |axes| && forall k | 0 <= k < |axes| :: digits[k] < |axes[k]|
  }

  lemma {:induction false} RowBound(row: nat, rows: nat, column: nat, columns: nat)
    requires row < rows && column < columns
    ensures row * columns + column < rows * columns
  {
    MultiplyMonotone(row + 1, rows, columns);
  }

  lemma {:induction false} DivisionIsUnique(q: nat, r: nat, q': nat, r': nat, divisor: nat)
    requires r < divisor && r' < divisor && q * divisor + r == q' * divisor + r'
    ensures q == q' && r == r'
  {
    if q < q' {
      MultiplyMonotone(q + 1, q', divisor);
    } else if q' < q {
      MultiplyMonotone(q' + 1, q, divisor);
    }
  }

  lemma {:induction false} DivideBack(quotient: nat, remainder: nat, divisor: nat)
    requires remainder < divisor
    ensures (quotient * divisor + remainder) / divisor == quotient
    ensures (quotient * divisor + remainder) % divisor == remainder
  {
    var n := quotient * divisor + remainder;
    DivisionIsUnique(quotient, remainder, n / divisor, n % divisor, divisor);
  }

  /** Decoding an index gives digits in range, and encoding them gives the index back. */
  lemma {:induction false} EncodeUndoesDigits(axes: Axes, index: nat)
    requires NonEmpty(axes) && index < Total(axes)
    ensures InRange(axes, Digits(axes, index)) && Encoded(axes, Digits(axes, index)) == index
  {
    if axes != [] {
      var init, last := axes[..|axes| - 1], |axes[|axes| - 1]|;
      assert index == index / last * last + index % last;
      if index / last >= Total(init) {
        MultiplyMonotone(Total(init), index / last, last);
      }
      EncodeUndoesDigits(init, index / last);
      assert Digits(axes, index)[..|init|] == Digits(init, index / last);
    }
  }

  /** Any digits in range encode an index of the grid, which decodes to them. */
  lemma {:induction false} DigitsUndoEncode(axes: Axes, digits: seq<nat>)
    requires NonEmpty(axes) && InRange(axes, digits)
    ensures Encoded(axes, digits) < Total(axes) && Digits(axes, Encoded(axes, digits)) == digits
  {
    if axes != [] {
      var n := |axes| - 1;
      var init, last := axes[..n], |axes[n]|;
      DigitsUndoEncode(init, digits[..n]);
      var high := Encoded(init, digits[..n]);
      RowBound(high, Total(init), digits[n], last);
      DivideBack(high, digits[n], last);
      assert digits == digits[..n] + [digits[n]];
    }
  }

  function PointValues(axes: Axes, index: nat): seq<Value>
    requires NonEmpty(axes)
  {
    if axes == [] then []
    else
      var last := axes[|axes| - 1];
      PointValues(axes[..|axes| - 1], index / |last|) + [last[index % |last|]]
  }

  lemma {:induction false} PointValuesFollowDigits(axes: Axes, index: nat)
    requires NonEmpty(axes)
    ensures |PointValues(axes, index)| == |axes| && InRange(axes, Digits(axes, index))
    ensures forall k | 0 <= k < |axes| :: PointValues(axes, index)[k] == axes[k][Digits(axes, index)[k]]
  {
    if axes != [] {
      var n := |axes| - 1;
      var quotient, remainder := index / |axes[n]|, index % |axes[n]|;
      PointValuesFollowDigits(axes[..n], quotient);
      assert remainder < |axes[n]|;
      assert Digits(axes, index) == Digits(axes[..n], quotient) + [remainder];
      assert PointValues(axes, index) == PointValues(axes[..n], quotient) + [axes[n][remainder]];
    }
  }

  /** One value from every axis. */
  predicate InProduct(axes: Axes, values: seq<Value>) {
    |values| == |axes| && forall k | 0 <= k < |axes| :: values[k] in axes[k]
  }

  /** Different indices of the grid are points that differ, beyond the tolerance, on some axis. */
  lemma {:induction false} DifferentPoints(axes: Axes, i: nat, j: nat, tolerance: real) returns (k: nat)
    requires NonEmpty(axes) && i < Total(axes) && j < Total(axes) && i != j
    requires forall m | 0 <= m < |axes| :: Separated(axes[m], tolerance)
    ensures k < |axes| && |PointValues(axes, i)| == |PointValues(axes, j)| == |axes|
    ensures !SameValue(PointValues(axes, i)[k], PointValues(axes, j)[k], tolerance)
  {
    EncodeUndoesDigits(axes, i);
    EncodeUndoesDigits(axes, j);
    PointValuesFollowDigits(axes, i);
    PointValuesFollowDigits(axes, j);
    k := DifferAt(Digits(axes, i), Digits(axes, j));
    SeparatedAt(axes[k], tolerance, Digits(axes, i)[k], Digits(axes, j)[k]);
  }

  lemma {:induction false} DifferAt(left: seq<nat>, right: seq<nat>) returns (k: nat)
    requires |left| == |right| && left != right
    ensures k < |left| && left[k] != right[k]
  {
    k :| 0 <= k < |left| && left[k] != right[k];
  }

  lemma {:induction false} SeparatedAt(values: seq<Value>, tolerance: real, a: nat, b: nat)
    requires Separated(values, tolerance) && a < |values| && b < |values| && a != b
    ensures !SameValue(values[a], values[b], tolerance)
  {
    if b < a {
      assert !SameValue(values[b], values[a], tolerance);
    }
  }

  /** The points of the grid are exactly the Cartesian product of its axes. */
  lemma {:induction false} PointsAreTheProduct(axes: Axes, values: seq<Value>)
    requires NonEmpty(axes)
    ensures InProduct(axes, values) <==> exists index: nat :: index < Total(axes) && PointValues(axes, index) == values
  {
    if InProduct(axes, values) {
      var digits := seq(|axes|, k requires 0 <= k < |axes| => Position(axes[k], values[k]));
      DigitsUndoEncode(axes, digits);
      PointValuesFollowDigits(axes, Encoded(axes, digits));
      assert PointValues(axes, Encoded(axes, digits)) == values;
    }
    if index: nat :| index < Total(axes) && PointValues(axes, index) == values {
      PointValuesFollowDigits(axes, index);
    }
  }

  ghost function Position(axis: seq<Value>, value: Value): nat
    requires value in axis
    ensures Position(axis, value) < |axis| && axis[Position(axis, value)] == value
  {
    var k: nat :| k < |axis| && axis[k] == value;
    k
  }

  function ToParams(space: Space, values: seq<Value>): Params
    requires |values| == |space|
  {
    if space == [] then map[] else ToParams(space[1..], values[1..])[space[0].name := values[0]]
  }

  lemma {:induction false} TailNames(space: Space)
    requires space != [] && DistinctNames(space)
    ensures Names(space) == Names(space[1..]) + {space[0].name} && DistinctNames(space[1..])
    ensures forall k | 1 <= k < |space| :: space[k].name != space[0].name
  {
    assert space == [space[0]] + space[1..];
  }

  lemma {:induction false} ToParamsKeys(space: Space, values: seq<Value>)
    requires |values| == |space| && DistinctNames(space)
    ensures ToParams(space, values).Keys == Names(space)
  {
    if space != [] {
      TailNames(space);
      ToParamsKeys(space[1..], values[1..]);
    }
  }

  lemma {:induction false} ToParamsAt(space: Space, values: seq<Value>, k: nat)
    requires |values| == |space| && k < |space| && DistinctNames(space)
    ensures space[k].name in ToParams(space, values) && ToParams(space, values)[space[k].name] == values[k]
  {
    if k > 0 {
      TailNames(space);
      ToParamsAt(space[1..], values[1..], k - 1);
    }
  }

  /** The parameters have exactly the declared names, each with its own value. */
  lemma {:induction false} ToParamsMeaning(space: Space, values: seq<Value>)
    requires |values| == |space| && DistinctNames(space)
    ensures ToParams(space, values).Keys == Names(space)
    ensures forall k | 0 <= k < |space| :: space[k].name in ToParams(space, values) && ToParams(space, values)[space[k].name] == values[k]
  {
    ToParamsKeys(space, values);
    forall k | 0 <= k < |space| {
      ToParamsAt(space, values, k);
    }
  }

  lemma {:induction false} OdometerStep(axes: Axes, remaining: nat, values: seq<Value>)
    requires axes != [] && NonEmpty(axes) && PointValues(axes, remaining) == values
    ensures var n := |axes| - 1;
            && |values| == |axes|
            && PointValues(axes[..n], remaining / |axes[n]|) == values[..n]
            && values[n] == axes[n][remaining % |axes[n]|]
  {
    var n := |axes| - 1;
    var before := PointValues(axes[..n], remaining / |axes[n]|);
    PointValuesFollowDigits(axes[..n], remaining / |axes[n]|);
    assert values == before + [axes[n][remaining % |axes[n]|]];
  }

  lemma {:induction false} PrefixOfPrefix<T>(items: seq<T>, i: nat)
    requires i < |items|
    ensures items[..i + 1][..i] == items[..i] && items[..i + 1][i] == items[i]
  {
  }

  lemma {:induction false} OdometerTurns(axes: Axes, remaining: nat, values: seq<Value>, i: nat)
    requires i < |axes| == |values| && NonEmpty(axes) && PointValues(axes[..i + 1], remaining) == values[..i + 1]
    ensures PointValues(axes[..i], remaining / |axes[i]|) == values[..i]
    ensures values[i] == axes[i][remaining % |axes[i]|]
  {
    OdometerStep(axes[..i + 1], remaining, values[..i + 1]);
    PrefixOfPrefix(axes, i);
    PrefixOfPrefix(values, i);
  }

  lemma {:induction false} ToParamsStep(space: Space, values: seq<Value>, i: nat)
    requires |values| == |space| && i < |space|
    ensures ToParams(space[i..], values[i..]) == ToParams(space[i + 1..], values[i + 1..])[space[i].name := values[i]]
  {
    assert space[i..][1..] == space[i + 1..] && values[i..][1..] == values[i + 1..];
  }

  /** The odometer of the source, walking the axes backwards. */
  method PointAt(space: Space, axes: Axes, index: nat) returns (params: Params)
    requires |axes| == |space| && NonEmpty(axes)
    ensures |PointValues(axes, index)| == |space| && params == ToParams(space, PointValues(axes, index))
  {
    ghost var values := PointValues(axes, index);
    PointValuesFollowDigits(axes, index);
    var remaining: nat := index;
    params := map[];
    var i := |space|;
    assert axes[..i] == axes && values[..i] == values;
    while i > 0
      invariant 0 <= i <= |space| == |values|
      invariant PointValues(axes[..i], remaining) == values[..i]
      invariant params == ToParams(space[i..], values[i..])
    {
      i := i - 1;
      OdometerTurns(axes, remaining, values, i);
      ToParamsStep(space, values, i);
      params := params[space[i].name := axes[i][remaining % |axes[i]|]];
      remaining := remaining / |axes[i]|;
    }
    assert space[0..] == space && values[0..] == values;
  }

  // ---------------------------------------------------------------- the grid fits the budget

  lemma {:induction false} ProductsRegroup(a: nat, b: nat, c: nat)
    ensures (a * b) * c == a * (b * c)
    ensures (b * a) * c == (c * b) * a
  {
  }

  lemma {:induction false} TotalBound(space: Space, axes: Axes, points: nat)
    requires |axes| == |space| && points >= 1
    requires forall i | 0 <= i < |space| :: axes[i] == AxisFor(space[i], points)
    ensures Total(axes) <= Pow(points, NumericAxes(space)) * CategoricalSize(space)
  {
    if space != [] {
      var n := |space| - 1;
      TotalBound(space[..n], axes[..n], points);
      AxisSize(space[n], points);
      var powers, size := Pow(points, NumericAxes(space[..n])), CategoricalSize(space[..n]);
      var most := if space[n].CategoricalParam? then |space[n].choices| else points;
      ProductMonotone(Total(axes[..n]), powers * size, |axes[n]|, most);
      if space[n].CategoricalParam? {
        ProductsRegroup(powers, size, most);
      } else {
        ProductsRegroup(size, powers, most);
        assert Pow(points, NumericAxes(space)) == points * powers;
      }
    }
  }

  lemma {:induction false} TotalAtLeastCategorical(space: Space, axes: Axes, points: nat)
    requires |axes| == |space| && points >= 1
    requires forall i | 0 <= i < |space| :: axes[i] == AxisFor(space[i], points)
    ensures Total(axes) >= CategoricalSize(space)
  {
    if space != [] {
      var n := |space| - 1;
      TotalAtLeastCategorical(space[..n], axes[..n], points);
      AxisSize(space[n], points);
      ProductMonotone(CategoricalSize(space[..n]), Total(axes[..n]),
                      if space[n].CategoricalParam? then |space[n].choices| else 1, |axes[n]|);
    }
  }

  /** The whole grid fits the budget exactly when the categorical product alone does. */
  lemma {:induction false} GridFitsBudgetExactlyWhen(space: Space, budget: nat)
    requires ValidSpace(space)
    ensures Total(AxesOf(space, budget)) <= budget <==> CategoricalSize(space) <= budget
  {
    var points := PointsFor(space, budget);
    CategoricalSizePositive(space);
    if CategoricalSize(space) <= budget {
      PowOfOne(NumericAxes(space));
      if NumericAxes(space) > 0 {
        SteppedUpIsGreatest(1, NumericAxes(space), CategoricalSize(space), budget);
        assert Fits(points, NumericAxes(space), CategoricalSize(space), budget);
      }
      TotalBound(space, AxesOf(space, budget), points);
    } else {
      TotalAtLeastCategorical(space, AxesOf(space, budget), points);
    }
  }

  predicate NoIntegerAxes(space: Space) {
    forall i | 0 <= i < |space| :: !space[i].IntParam?
  }

  /** Without integer axes no two points of an axis are merged, and the grid is exactly as large as sized. */
  lemma {:induction false} TotalWithoutIntegers(space: Space, axes: Axes, points: nat)
    requires |axes| == |space| && points >= 1 && NoIntegerAxes(space)
    requires forall i | 0 <= i < |space| :: axes[i] == AxisFor(space[i], points)
    ensures Total(axes) == Pow(points, NumericAxes(space)) * CategoricalSize(space)
  {
    if space != [] {
      var n := |space| - 1;
      TotalWithoutIntegers(space[..n], axes[..n], points);
      AxisSize(space[n], points);
      var powers, size := Pow(points, NumericAxes(space[..n])), CategoricalSize(space[..n]);
      ProductsRegroup(powers, size, |axes[n]|);
      ProductsRegroup(size, powers, |axes[n]|);
    }
  }

  lemma {:induction false} OvershootStays(root: nat, axes: nat, size: nat, budget: nat)
    requires axes >= 1 && size >= 1 && !Fits(root, axes, size, budget)
    ensures SteppedUp(root, axes, size, budget) == root
  {
    if Fits(root + 1, axes, size, budget) {
      FitsMonotone(root, root + 1, axes, size, budget);
    }
  }

  /** The seed does not overshoot, or there is nothing to size. */
  predicate SeedFits(space: Space, budget: nat, root: nat) {
    NumericAxes(space) == 0 || Fits(root, NumericAxes(space), CategoricalSize(space), budget)
  }

  /** The grid the code builds from a seed: it fits the budget if the categorical product does and the seed does
      not overshoot, and, unless rounding merges points of an integer axis, only then. */
  lemma {:induction false} SizedGridFitsBudget(space: Space, budget: nat, root: nat)
    requires ValidSpace(space)
    ensures var total := Total(AxesWith(space, SizedFrom(space, budget, root)));
            && (CategoricalSize(space) <= budget && SeedFits(space, budget, root) ==> total <= budget)
            && (total <= budget ==> CategoricalSize(space) <= budget)
            && (total <= budget && NoIntegerAxes(space) ==> SeedFits(space, budget, root))
  {
    var numeric, size := NumericAxes(space), CategoricalSize(space);
    var points := SizedFrom(space, budget, root);
    var axes := AxesWith(space, points);
    CategoricalSizePositive(space);
    TotalAtLeastCategorical(space, axes, points);
    if size <= budget {
      PowOfOne(numeric);
      if numeric > 0 && !Fits(root, numeric, size, budget) {
        OvershootStays(root, numeric, size, budget);
        if root <= 1 {
          FitsMonotone(root, 1, numeric, size, budget);
        }
        if NoIntegerAxes(space) {
          TotalWithoutIntegers(space, axes, points);
        }
      } else {
        if numeric > 0 {
          SteppedUpIsGreatest(root, numeric, size, budget);
          assert Fits(SteppedUp(root, numeric, size, budget), numeric, size, budget);
          assert Fits(points, numeric, size, budget);
        }
        TotalBound(space, axes, points);
      }
    }
  }

  // ---------------------------------------------------------------- the strategy

  function GridProposal(space: Space, budget: nat, history: seq<Episode>): Proposal
    requires ValidSpace(space) && HasIntegers(space)
  {
    var axes := AxesOf(space, budget);
    GridAxes(space, budget);
    var index := NextIndex(history);
    if index >= Total(axes) then NothingLeft
    else
      PointValuesFollowDigits(axes, index);
      Proposed(Candidate(ToParams(space, PointValues(axes, index)), Baseline))
  }

  lemma {:induction false} GridAxes(space: Space, budget: nat)
    requires ValidSpace(space) && HasIntegers(space)
    ensures NonEmpty(AxesOf(space, budget)) && |AxesOf(space, budget)| == |space|
    ensures forall i, k | 0 <= i < |space| && 0 <= k < |AxesOf(space, budget)[i]| ::
              InSpec(space[i], AxesOf(space, budget)[i][k])
  {
    forall i | 0 <= i < |space| {
      AxisInSpec(space[i], PointsFor(space, budget));
    }
  }
}
