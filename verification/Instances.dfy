/** Shifted and rotated benchmark instances, over the reals: the optimum is moved, its value is not. */
module Instances {
  import opened Domain
  import opened Guard

  // ---------------------------------------------------------------- linear algebra

  type Vector = seq<real>
  type Matrix = seq<Vector>

  function Dot(a: Vector, b: Vector): real
    requires |a| == |b|
  {
    if a == [] then 0.0
    else Dot(a[..|a| - 1], b[..|b| - 1]) + a[|a| - 1] * b[|b| - 1]
  }

  predicate Shape(m: Matrix, rows: nat, columns: nat) {
    |m| == rows && forall i | 0 <= i < rows :: |m[i]| == columns
  }

  function Column(m: Matrix, columns: nat, j: nat): Vector
    requires Shape(m, |m|, columns) && j < columns
    ensures |Column(m, columns, j)| == |m|
  {
    seq(|m|, i requires 0 <= i < |m| => m[i][j])
  }

  /** `m v`. */
  function Times(m: Matrix, v: Vector): Vector
    requires Shape(m, |m|, |v|)
    ensures |Times(m, v)| == |m|
  {
    seq(|m|, i requires 0 <= i < |m| => Dot(m[i], v))
  }

  /** The transpose of `m`, times `w`. */
  function TransposeTimes(m: Matrix, columns: nat, w: Vector): Vector
    requires Shape(m, |w|, columns)
    ensures |TransposeTimes(m, columns, w)| == columns
  {
    seq(columns, j requires 0 <= j < columns => Dot(Column(m, columns, j), w))
  }

  function Transpose(m: Matrix, columns: nat): Matrix
    requires Shape(m, |m|, columns)
  {
    seq(columns, j requires 0 <= j < columns => Column(m, columns, j))
  }

  function Delta(i: nat, j: nat): real {
    if i == j then 1.0 else 0.0
  }

  /** A square matrix whose rows, and whose columns, are orthonormal. */
  ghost predicate Orthogonal(m: Matrix, n: nat) {
    && Shape(m, n, n)
    && (forall i, j | 0 <= i < n && 0 <= j < n :: Dot(m[i], m[j]) == Delta(i, j))
    && (forall i, j | 0 <= i < n && 0 <= j < n :: Dot(Column(m, n, i), Column(m, n, j)) == Delta(i, j))
  }

  lemma {:induction false} DotSymmetric(a: Vector, b: Vector)
    requires |a| == |b|
    ensures Dot(a, b) == Dot(b, a)
  {
    if a != [] {
      DotSymmetric(a[..|a| - 1], b[..|b| - 1]);
    }
  }

  function MultiplyAdd(a: real, c: real, b: real): real {
    a + c * b
  }

  function PlusScaled(a: Vector, c: real, b: Vector): Vector
    requires |a| == |b|
  {
    seq(|a|, i requires 0 <= i < |a| => MultiplyAdd(a[i], c, b[i]))
  }

  lemma {:induction false} Distribute(a: real, x: real, c: real, y: real, q: real)
    ensures a * MultiplyAdd(x, c, y) == a * x + c * (a * y)
    ensures c * (q + a * y) == c * q + c * (a * y)
  {
  }

  lemma {:induction false} DotLinear(a: Vector, x: Vector, c: real, y: Vector)
    requires |a| == |x| == |y|
    ensures Dot(a, PlusScaled(x, c, y)) == Dot(a, x) + c * Dot(a, y)
  {
    if a != [] {
      var n := |a| - 1;
      DotLinear(a[..n], x[..n], c, y[..n]);
      assert PlusScaled(x, c, y)[..n] == PlusScaled(x[..n], c, y[..n]);
      var p, q := Dot(a[..n], x[..n]), Dot(a[..n], y[..n]);
      Distribute(a[n], x[n], c, y[n], q);
    }
  }

  lemma {:induction false} DotZero(a: Vector, zero: Vector)
    requires |a| == |zero| && forall i | 0 <= i < |zero| :: zero[i] == 0.0
    ensures Dot(a, zero) == 0.0
  {
    if a != [] {
      DotZero(a[..|a| - 1], zero[..|a| - 1]);
    }
  }

  lemma {:induction false} DotUnit(unit: Vector, w: Vector, i: nat)
    requires |unit| == |w| && i < |w|
    requires forall k | 0 <= k < |unit| :: unit[k] == Delta(k, i)
    ensures Dot(unit, w) == w[i]
  {
    var n := |w| - 1;
    if i < n {
      DotUnit(unit[..n], w[..n], i);
    } else {
      DotSymmetric(unit[..n], w[..n]);
      DotZero(w[..n], unit[..n]);
    }
  }

  lemma {:induction false} TransposeTimesSnoc(m: Matrix, columns: nat, w: Vector)
    requires w != [] && Shape(m, |w|, columns)
    ensures var n := |w| - 1;
            TransposeTimes(m, columns, w) == PlusScaled(TransposeTimes(m[..n], columns, w[..n]), w[n], m[n])
  {
    var n := |w| - 1;
    forall j | 0 <= j < columns
      ensures Dot(Column(m, columns, j), w) == MultiplyAdd(Dot(Column(m[..n], columns, j), w[..n]), w[n], m[n][j])
    {
      assert Column(m, columns, j)[..n] == Column(m[..n], columns, j);
    }
  }

  /** Moving a matrix across a dot product transposes it. */
  lemma {:induction false} Adjoint(m: Matrix, a: Vector, w: Vector)
    requires Shape(m, |w|, |a|)
    ensures Dot(a, TransposeTimes(m, |a|, w)) == Dot(Times(m, a), w)
  {
    if w == [] {
      var zero := TransposeTimes(m, |a|, w);
      DotZero(a, zero);
    } else {
      var n := |w| - 1;
      Adjoint(m[..n], a, w[..n]);
      TransposeTimesSnoc(m, |a|, w);
      DotLinear(a, TransposeTimes(m[..n], |a|, w[..n]), w[n], m[n]);
      DotSymmetric(a, m[n]);
      assert Times(m, a)[..n] == Times(m[..n], a);
    }
  }

  /** An orthogonal matrix undoes its transpose. */
  lemma {:induction false} RotationUndoesTranspose(m: Matrix, n: nat, w: Vector)
    requires Orthogonal(m, n) && |w| == n
    ensures Times(m, TransposeTimes(m, n, w)) == w
  {
    forall i | 0 <= i < n ensures Dot(m[i], TransposeTimes(m, n, w)) == w[i] {
      Adjoint(m, m[i], w);
      DotUnit(Times(m, m[i]), w, i);
    }
  }

  lemma {:induction false} TransposeIsOrthogonal(m: Matrix, n: nat)
    requires Orthogonal(m, n)
    ensures Orthogonal(Transpose(m, n), n)
    ensures forall i | 0 <= i < n :: Column(Transpose(m, n), n, i) == m[i]
  {
    forall i | 0 <= i < n ensures Column(Transpose(m, n), n, i) == m[i] {
    }
  }

  /** The transpose of an orthogonal matrix undoes it. */
  lemma {:induction false} TransposeUndoesRotation(m: Matrix, n: nat, v: Vector)
    requires Orthogonal(m, n) && |v| == n
    ensures TransposeTimes(m, n, Times(m, v)) == v
  {
    var t := Transpose(m, n);
    TransposeIsOrthogonal(m, n);
    RotationUndoesTranspose(t, n, v);
    assert TransposeTimes(t, n, v) == Times(m, v);
    assert Times(t, Times(m, v)) == TransposeTimes(m, n, Times(m, v));
  }

  // ---------------------------------------------------------------- building an instance

  function ToRange(w: real, low: real, high: real): real {
    low + w * (high - low)
  }

  function FromRange(x: real, low: real, high: real): real
    requires low < high
  {
    (x - low) / (high - low)
  }

  /** A transformed benchmark: the base objective behind a change of coordinates, on the unit cube. */
  datatype Instance = Instance(base: Benchmark, rotation: Matrix, shift: Vector, low: Vector, high: Vector,
                               knownOptimum: real, knownOptimisers: seq<Vector>)
  {
    function Dim(): nat {
      |shift|
    }

    ghost predicate Valid() {
      && Orthogonal(rotation, Dim())
      && |low| == |high| == Dim()
      && forall i | 0 <= i < Dim() :: low[i] < high[i]
    }

    function Centred(z: Vector): Vector
      requires |z| == Dim()
      ensures |Centred(z)| == Dim()
    {
      seq(Dim(), i requires 0 <= i < Dim() => z[i] - shift[i])
    }

    /** From instance coordinates to the coordinates of the base. */
    function Original(z: Vector): Vector
      requires Shape(rotation, Dim(), Dim()) && |low| == |high| == Dim() == |z|
      ensures |Original(z)| == Dim()
    {
      var rotated := Times(rotation, Centred(z));
      seq(Dim(), i requires 0 <= i < Dim() => ToRange(rotated[i], low[i], high[i]))
    }

    function Objective(z: Vector): real
      requires Shape(rotation, Dim(), Dim()) && |low| == |high| == Dim() == |z|
    {
      base.objective(Original(z))
    }
  }

  datatype Failure = HasConstraints | NonNumericParameter | NoPublishedOptimiser | NoClearLocation

  datatype Built = Made(instance: Instance) | Impossible(failure: Failure)

  predicate AllNumeric(space: Space) {
    forall i | 0 <= i < |space| :: !space[i].CategoricalParam?
  }

  function Lows(space: Space): Vector
    requires AllNumeric(space)
  {
    seq(|space|, i requires 0 <= i < |space| => space[i].low)
  }

  function Highs(space: Space): Vector
    requires AllNumeric(space)
  {
    seq(|space|, i requires 0 <= i < |space| => space[i].high)
  }

  function Normalised(x: Vector, low: Vector, high: Vector): Vector
    requires |x| == |low| == |high| && forall i | 0 <= i < |low| :: low[i] < high[i]
  {
    seq(|x|, i requires 0 <= i < |x| => FromRange(x[i], low[i], high[i]))
  }

  /** The instance whose optimum is to sit at `location`: the shift is solved for. */
  function MakeInstance(base: Benchmark, rotation: Matrix, location: Option<Vector>): Built
    requires ValidSpace(base.space) && Shape(rotation, |base.space|, |base.space|)
    requires location.Some? ==> |location.value| == |base.space|
    requires forall k | 0 <= k < |base.knownOptimisers| :: |base.knownOptimisers[k]| == |base.space|
  {
    if base.constrained then Impossible(HasConstraints)
    else if !AllNumeric(base.space) then Impossible(NonNumericParameter)
    else if location.None? then Impossible(NoClearLocation)
    else if base.knownOptimisers == [] then Impossible(NoPublishedOptimiser)
    else
      var low, high := Lows(base.space), Highs(base.space);
      var wStar := Normalised(base.knownOptimisers[0], low, high);
      var moved := TransposeTimes(rotation, |base.space|, wStar);
      var shift := seq(|base.space|, i requires 0 <= i < |base.space| => location.value[i] - moved[i]);
      Made(Instance(base, rotation, shift, low, high, base.knownOptimum, [location.value]))
  }

  /** An instance is refused for exactly these causes. */
  lemma {:induction false} MadeExactlyWhen(base: Benchmark, rotation: Matrix, location: Option<Vector>)
    requires ValidSpace(base.space) && Shape(rotation, |base.space|, |base.space|)
    requires location.Some? ==> |location.value| == |base.space|
    requires forall k | 0 <= k < |base.knownOptimisers| :: |base.knownOptimisers[k]| == |base.space|
    ensures MakeInstance(base, rotation, location).Made? <==>
            && !base.constrained && base.knownOptimisers != [] && location.Some?
            && forall i | 0 <= i < |base.space| :: !base.space[i].CategoricalParam?
    ensures base.constrained ==> MakeInstance(base, rotation, location) == Impossible(HasConstraints)
  {
  }

  lemma {:induction false} RangesAreInverse(x: real, low: real, high: real)
    requires low < high
    ensures ToRange(FromRange(x, low, high), low, high) == x
    ensures FromRange(ToRange(x, low, high), low, high) == x
  {
    var span := high - low;
    assert (x - low) / span * span == x - low;
    assert ToRange(x, low, high) - low == x * span;
    assert x * span / span == x;
  }

  /** The instance at its declared optimum location is the base at its published optimiser, so the
      inherited optimum value is attained exactly where the instance says. */
  lemma {:induction false} OptimumIsWhereDeclared(base: Benchmark, rotation: Matrix, location: Option<Vector>)
    requires ValidSpace(base.space) && Orthogonal(rotation, |base.space|)
    requires location.Some? ==> |location.value| == |base.space|
    requires forall k | 0 <= k < |base.knownOptimisers| :: |base.knownOptimisers[k]| == |base.space|
    requires MakeInstance(base, rotation, location).Made?
    ensures var instance := MakeInstance(base, rotation, location).instance;
            && instance.Valid() && instance.Dim() == |base.space|
            && instance.Original(instance.knownOptimisers[0]) == base.knownOptimisers[0]
            && instance.Objective(instance.knownOptimisers[0]) == base.objective(base.knownOptimisers[0])
            && instance.knownOptimum == base.knownOptimum
  {
    var instance := MakeInstance(base, rotation, location).instance;
    var n := |base.space|;
    var z := location.value;
    forall i | 0 <= i < n ensures instance.low[i] < instance.high[i] {
      assert base.space[i].Valid();
    }
    var wStar := Normalised(base.knownOptimisers[0], instance.low, instance.high);
    assert instance.Centred(z) == TransposeTimes(rotation, n, wStar);
    RotationUndoesTranspose(rotation, n, wStar);
    forall i | 0 <= i < n ensures instance.Original(z)[i] == base.knownOptimisers[0][i] {
      RangesAreInverse(base.knownOptimisers[0][i], instance.low[i], instance.high[i]);
    }
    assert instance.Original(z) == base.knownOptimisers[0];
  }

  /** The coordinates of a point before they are stretched onto the base's bounds. */
  function Rotated(instance: Instance, z: Vector): Vector
    requires Shape(instance.rotation, instance.Dim(), instance.Dim()) && |z| == instance.Dim()
    ensures |Rotated(instance, z)| == instance.Dim()
  {
    Times(instance.rotation, instance.Centred(z))
  }

  lemma {:induction false} StretchMeans(w: real, w': real, low: real, high: real)
    requires low < high
    ensures ToRange(0.0, low, high) == low && ToRange(1.0, low, high) == high
    ensures ToRange(w, low, high) - ToRange(w', low, high) == (w - w') * (high - low)
    ensures low <= ToRange(w, low, high) <= high <==> 0.0 <= w <= 1.0
  {
    var span := high - low;
    assert ToRange(w, low, high) - low == w * span;
    if w < 0.0 {
      Scaled(-w, span);
    } else if w > 1.0 {
      Scaled(w - 1.0, span);
      assert (w - 1.0) * span == w * span - span;
    } else {
      NotScaled(w, span);
      NotScaled(1.0 - w, span);
      assert (1.0 - w) * span == span - w * span;
    }
  }

  lemma {:induction false} Scaled(x: real, span: real)
    requires x > 0.0 && span > 0.0
    ensures x * span > 0.0 && -x * span < 0.0
  {
  }

  lemma {:induction false} NotScaled(x: real, span: real)
    requires x >= 0.0 && span > 0.0
    ensures x * span >= 0.0
  {
  }

  /** The unit interval of each rotated coordinate is stretched onto the declared bounds of the base: 0 goes to the
      lower bound, 1 to the upper, equal steps to equal steps, and a coordinate is in its bounds exactly when it
      comes from the unit interval. */
  lemma {:induction false} UnitCubeIsTheBasesDomain(
      base: Benchmark, rotation: Matrix, location: Option<Vector>, z: Vector, z': Vector, i: nat)
    requires ValidSpace(base.space) && Orthogonal(rotation, |base.space|)
    requires location.Some? ==> |location.value| == |base.space|
    requires forall k | 0 <= k < |base.knownOptimisers| :: |base.knownOptimisers[k]| == |base.space|
    requires MakeInstance(base, rotation, location).Made?
    requires |z| == |z'| == |base.space| && i < |base.space|
    ensures var instance := MakeInstance(base, rotation, location).instance;
            && instance.Valid() && instance.Dim() == |base.space| && !base.space[i].CategoricalParam?
            && var w, w' := Rotated(instance, z)[i], Rotated(instance, z')[i];
               var x, x' := instance.Original(z)[i], instance.Original(z')[i];
               && (w == 0.0 ==> x == base.space[i].low)
               && (w == 1.0 ==> x == base.space[i].high)
               && x - x' == (w - w') * (base.space[i].high - base.space[i].low)
               && (InSpec(FloatParam("x", base.space[i].low, base.space[i].high), Float(x)) <==> 0.0 <= w <= 1.0)
  {
    var instance := MakeInstance(base, rotation, location).instance;
    OptimumIsWhereDeclared(base, rotation, location);
    assert base.space[i].Valid();
    StretchMeans(Rotated(instance, z)[i], Rotated(instance, z')[i], base.space[i].low, base.space[i].high);
  }

  /** From base coordinates back to instance coordinates. */
  function Returned(instance: Instance, x: Vector): Vector
    requires Shape(instance.rotation, instance.Dim(), instance.Dim())
    requires |instance.low| == |instance.high| == instance.Dim() == |x|
    requires forall i | 0 <= i < instance.Dim() :: instance.low[i] < instance.high[i]
    ensures |Returned(instance, x)| == instance.Dim()
  {
    var moved := TransposeTimes(instance.rotation, instance.Dim(), Normalised(x, instance.low, instance.high));
    seq(instance.Dim(), i requires 0 <= i < instance.Dim() => instance.shift[i] + moved[i])
  }

  /** The change of coordinates is invertible, in both directions. */
  lemma {:induction false} CoordinatesAreInvertible(instance: Instance, v: Vector)
    requires instance.Valid() && |v| == instance.Dim()
    ensures instance.Original(Returned(instance, v)) == v
    ensures Returned(instance, instance.Original(v)) == v
  {
    OriginalOfReturned(instance, v);
    ReturnedOfOriginal(instance, v);
  }

  lemma {:induction false} OriginalOfReturned(instance: Instance, x: Vector)
    requires instance.Valid() && |x| == instance.Dim()
    ensures instance.Original(Returned(instance, x)) == x
  {
    var n := instance.Dim();
    var w := Normalised(x, instance.low, instance.high);
    var z := Returned(instance, x);
    assert instance.Centred(z) == TransposeTimes(instance.rotation, n, w);
    RotationUndoesTranspose(instance.rotation, n, w);
    forall i | 0 <= i < n ensures instance.Original(z)[i] == x[i] {
      RangesAreInverse(x[i], instance.low[i], instance.high[i]);
    }
  }

  lemma {:induction false} ReturnedOfOriginal(instance: Instance, z: Vector)
    requires instance.Valid() && |z| == instance.Dim()
    ensures Returned(instance, instance.Original(z)) == z
  {
    var n := instance.Dim();
    var centred := instance.Centred(z);
    var rotated := Times(instance.rotation, centred);
    var x := instance.Original(z);
    forall i | 0 <= i < n ensures Normalised(x, instance.low, instance.high)[i] == rotated[i] {
      RangesAreInverse(rotated[i], instance.low[i], instance.high[i]);
    }
    assert Normalised(x, instance.low, instance.high) == rotated;
    TransposeUndoesRotation(instance.rotation, n, centred);
    forall i | 0 <= i < n ensures Returned(instance, x)[i] == z[i] {
    }
  }

  ghost predicate AttainedByBase(base: Benchmark, dim: nat, value: real) {
    exists x: Vector :: |x| == dim && base.objective(x) == value
  }

  ghost predicate AttainedByInstance(instance: Instance, value: real)
    requires instance.Valid()
  {
    exists z: Vector :: Attains(instance, z, value)
  }

  predicate Attains(instance: Instance, z: Vector, value: real)
    requires Shape(instance.rotation, instance.Dim(), instance.Dim()) && |instance.low| == |instance.high| == instance.Dim()
  {
    |z| == instance.Dim() && instance.Objective(z) == value
  }

  /** No point of the whole space scores below `value`. */
  ghost predicate BoundsBase(base: Benchmark, dim: nat, value: real) {
    forall x: Vector | |x| == dim :: value <= base.objective(x)
  }

  ghost predicate BoundsInstance(instance: Instance, value: real)
    requires instance.Valid()
  {
    forall z: Vector, y: real | Attains(instance, z, y) :: value <= y
  }

  lemma {:induction false} ReturnedValue(instance: Instance, x: Vector)
    requires instance.Valid() && |x| == instance.Dim()
    ensures instance.Objective(Returned(instance, x)) == instance.base.objective(x)
  {
    OriginalOfReturned(instance, x);
  }

  /** The instance takes exactly the base's values over the whole space. */
  lemma {:induction false} InstanceTakesTheBasesValues(instance: Instance, value: real)
    requires instance.Valid()
    ensures AttainedByInstance(instance, value) <==> AttainedByBase(instance.base, instance.Dim(), value)
  {
    if AttainedByInstance(instance, value) {
      var z: Vector :| Attains(instance, z, value);
      assert instance.base.objective(instance.Original(z)) == value;
    }
    if AttainedByBase(instance.base, instance.Dim(), value) {
      var x: Vector :| |x| == instance.Dim() && instance.base.objective(x) == value;
      ReturnedValue(instance, x);
      assert Attains(instance, Returned(instance, x), value);
    }
  }

  /** So the inherited optimum bounds the instance exactly when it bounds the base on and off its domain. */
  lemma {:induction false} LowerBoundsAreShared(instance: Instance, value: real)
    requires instance.Valid()
    ensures BoundsInstance(instance, value) <==> BoundsBase(instance.base, instance.Dim(), value)
  {
    if BoundsInstance(instance, value) {
      forall x: Vector | |x| == instance.Dim() ensures value <= instance.base.objective(x) {
        ReturnedValue(instance, x);
        assert Attains(instance, Returned(instance, x), instance.base.objective(x));
      }
    }
    if BoundsBase(instance.base, instance.Dim(), value) {
      forall z: Vector, y: real | Attains(instance, z, y) ensures value <= y {
        assert value <= instance.base.objective(instance.Original(z));
      }
    }
  }

  // ---------------------------------------------------------------- placing the optimum

  const GRID_STEP := 0.05
  const GRID_CLEARANCE := 0.012
  const MAX_OPTIMUM_DRAWS: nat := 1000

  /** How far a coordinate sits from the nearest multiple of the grid step. */
  function DistanceToGrid(value: real): real {
    Distance(value, Round(value / GRID_STEP) as real * GRID_STEP)
  }

  predicate Clear(location: Vector) {
    forall i | 0 <= i < |location| :: DistanceToGrid(location[i]) >= GRID_CLEARANCE
  }

  /** Rejection sampling: the first draw with every coordinate clear of the grid, if one comes in time. */
  method DrawOptimumLocation(draws: nat -> Vector) returns (location: Option<Vector>)
    ensures location.None? ==> forall k: nat | k < 1000 :: !Clear(draws(k))
    ensures location.None? <==> forall k: nat | k < MAX_OPTIMUM_DRAWS :: !Clear(draws(k))
    ensures location.Some? ==>
              exists k: nat :: k < MAX_OPTIMUM_DRAWS && location.value == draws(k) && Clear(draws(k)) &&
                forall j: nat | j < k :: !Clear(draws(j))
  {
    for k: nat := 0 to MAX_OPTIMUM_DRAWS
      invariant forall j: nat | j < k :: !Clear(draws(j))
    {
      if Clear(draws(k)) {
        return Some(draws(k));
      }
    }
    location := None;
  }

  predicate AwayFrom(x: real, n: int) {
    Distance(x, n as real * GRID_STEP) >= GRID_CLEARANCE
  }

  lemma {:induction false} NearestRoundNumber(x: real, n: int)
    requires DistanceToGrid(x) >= GRID_CLEARANCE
    ensures AwayFrom(x, n)
  {
    var scaled := x / GRID_STEP;
    var near := Round(scaled);
    RoundIsNearestEven(scaled, n);
    assert Distance(x, near as real * GRID_STEP) == Distance(near as real, scaled) * GRID_STEP;
    assert Distance(x, n as real * GRID_STEP) == Distance(n as real, scaled) * GRID_STEP;
  }

  /** Clear of the grid means at least the clearance away from every round number, and no more than that. */
  lemma {:induction false} ClearExactlyWhenAwayFromRoundNumbers(location: Vector)
    ensures Clear(location) <==> forall i, n: int | 0 <= i < |location| :: AwayFrom(location[i], n)
  {
    if Clear(location) {
      forall i, n: int | 0 <= i < |location| ensures AwayFrom(location[i], n) {
        NearestRoundNumber(location[i], n);
      }
    }
    if forall i, n: int | 0 <= i < |location| :: AwayFrom(location[i], n) {
      forall i | 0 <= i < |location| ensures DistanceToGrid(location[i]) >= GRID_CLEARANCE {
        assert AwayFrom(location[i], Round(location[i] / GRID_STEP));
      }
    }
  }

  /** There is room for an optimum between two round numbers, and none on any twentieth. */
  lemma {:induction false} ThereIsRoom(n: int)
    ensures Clear([0.025]) && !Clear([n as real / 20.0])
  {
    assert n as real * GRID_STEP == n as real / 20.0;
    if Clear([n as real / 20.0]) {
      assert DistanceToGrid([n as real / 20.0][0]) >= GRID_CLEARANCE;
      NearestRoundNumber(n as real / 20.0, n);
    }
  }
}
