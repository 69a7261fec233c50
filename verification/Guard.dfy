/** The guard between a proposal and the simulator: cleaning, duplicate detection, perturbation. */
module Guard {
  import opened Domain

  /** What reading a piece of text as a float gives. */
  datatype Parsed = NotNumeric | NonFinite | Number(x: real)

  type Reader = string -> Parsed

  function Ceil(x: real): int {
    -((-x).Floor)
  }

  function Distance(a: real, b: real): real {
    if a < b then b - a else a - b
  }

  function Clamp(x: real, low: real, high: real): real {
    var raised := if x < low then low else x;
    if raised > high then high else raised
  }

  /** Clamping with the bounds rounded inward. */
  function ClampInt(n: int, low: real, high: real): int {
    var raised := if n < Ceil(low) then Ceil(low) else n;
    if raised > high.Floor then high.Floor else raised
  }

  /** Rounding to the nearest integer, ties to even. */
  function Round(x: real): int {
    var down := x.Floor;
    var rest := x - down as real;
    if rest < 0.5 then down
    else if rest > 0.5 then down + 1
    else if down % 2 == 0 then down else down + 1
  }

  /** Nothing is nearer than the rounded integer, and what is as near is even only if it is the rounded one. */
  lemma {:induction false} RoundIsNearestEven(x: real, n: int)
    ensures Distance(Round(x) as real, x) <= Distance(n as real, x)
    ensures n != Round(x) && Distance(n as real, x) == Distance(Round(x) as real, x) ==> Round(x) % 2 == 0
  {
    var down := x.Floor;
    assert down as real <= x < down as real + 1.0;
    assert Round(x) == down || Round(x) == down + 1;
    if n <= down {
      assert Distance(n as real, x) >= x - down as real;
    } else {
      assert n as real >= down as real + 1.0;
    }
  }

  // ---------------------------------------------------------------- cleaning one value

  datatype Cleaned = Accepted(value: Value, coerced: bool, clamped: bool) | Rejected

  /** A number read from a raw value, and whether it had to be parsed from text. */
  function AsNumber(raw: Value, read: Reader): Option<(Value, bool)>
    ensures AsNumber(raw, read).Some? ==> AsNumber(raw, read).value.0.Float? || AsNumber(raw, read).value.0.Whole?
  {
    match raw
    case Text(s) => (match read(s)
                     case Number(x) => Some((Float(x), true))
                     case _ => None)
    case NotFinite => None
    case _ => Some((raw, false))
  }

  function Clean(spec: ParamSpec, raw: Value, read: Reader): Cleaned {
    match spec
    case CategoricalParam(_, choices) =>
      if raw.Text? && raw.s in choices then Accepted(raw, false, false) else Rejected
    case FloatParam(_, low, high) =>
      (match AsNumber(raw, read)
       case None => Rejected
       case Some((value, parsed)) =>
         var number := if value.Float? then value.x else value.n as real;
         Accepted(Float(Clamp(number, low, high)), parsed, Clamp(number, low, high) != number))
    case IntParam(_, low, high) =>
      (match AsNumber(raw, read)
       case None => Rejected
       case Some((value, parsed)) =>
         if value.Float? && value.x.Floor as real != value.x then Rejected
         else
           var number := if value.Float? then value.x.Floor else value.n;
           Accepted(Whole(ClampInt(number, low, high)), parsed || value.Float?, ClampInt(number, low, high) != number))
  }

  // ---------------------------------------------------------------- cleaning a candidate

  datatype Refusal = UnknownParameters | MissingParameters | BadValue(name: string)

  datatype Guarded = Passed(candidate: Candidate, clamped: seq<string>, coerced: seq<string>) | Refused(cause: Refusal)

  datatype Sweep = Clear(cleaned: Params, clamped: seq<string>, coerced: seq<string>) | Stuck(name: string)

  /** Cleaning the parameters in declared order, stopping at the first that cannot be repaired. */
  function Swept(space: Space, params: Params, read: Reader): Sweep
    requires Names(space) <= params.Keys
  {
    if space == [] then Clear(map[], [], [])
    else
      var init, spec := space[..|space| - 1], space[|space| - 1];
      assert spec in space && Names(init) <= Names(space);
      match Swept(init, params, read)
      case Stuck(name) => Stuck(name)
      case Clear(cleaned, clamped, coerced) =>
        match Clean(spec, params[spec.name], read)
        case Rejected => Stuck(spec.name)
        case Accepted(value, wasCoerced, wasClamped) =>
          Clear(cleaned[spec.name := value],
                if wasClamped then clamped + [spec.name] else clamped,
                if wasCoerced then coerced + [spec.name] else coerced)
  }

  function Validated(candidate: Candidate, space: Space, read: Reader): Guarded {
    if !(candidate.params.Keys <= Names(space)) then Refused(UnknownParameters)
    else if !(Names(space) <= candidate.params.Keys) then Refused(MissingParameters)
    else
      match Swept(space, candidate.params, read)
      case Stuck(name) => Refused(BadValue(name))
      case Clear(cleaned, clamped, coerced) => Passed(Candidate(cleaned, candidate.source), clamped, coerced)
  }

  method Validate(candidate: Candidate, space: Space, read: Reader) returns (guarded: Guarded)
    ensures guarded == Validated(candidate, space, read)
  {
    if !(candidate.params.Keys <= Names(space)) {
      return Refused(UnknownParameters);
    }
    if !(Names(space) <= candidate.params.Keys) {
      return Refused(MissingParameters);
    }
    var cleaned: Params, clamped, coerced := map[], [], [];
    assert space[..0] == [];
    for i := 0 to |space|
      invariant Names(space[..i]) <= candidate.params.Keys
      invariant Swept(space[..i], candidate.params, read) == Clear(cleaned, clamped, coerced)
    {
      assert space[..i + 1][..i] == space[..i];
      NameDeclared(space, i);
      InitNames(space[..i + 1]);
      match Clean(space[i], candidate.params[space[i].name], read)
      case Rejected =>
        SweepStaysStuck(space, i + 1, candidate.params, read);
        return Refused(BadValue(space[i].name));
      case Accepted(value, wasCoerced, wasClamped) =>
        cleaned := cleaned[space[i].name := value];
        if wasCoerced { coerced := coerced + [space[i].name]; }
        if wasClamped { clamped := clamped + [space[i].name]; }
    }
    assert space[..|space|] == space;
    guarded := Passed(Candidate(cleaned, candidate.source), clamped, coerced);
  }

  lemma {:induction false} SweepStaysStuck(space: Space, i: nat, params: Params, read: Reader)
    requires i <= |space| && Names(space) <= params.Keys
    requires Names(space[..i]) <= params.Keys && Swept(space[..i], params, read).Stuck?
    ensures Swept(space, params, read) == Swept(space[..i], params, read)
  {
    if i == |space| {
      assert space[..i] == space;
    } else {
      var init := space[..|space| - 1];
      assert Names(init) <= Names(space) && init[..i] == space[..i];
      SweepStaysStuck(init, i, params, read);
    }
  }

  // ---------------------------------------------------------------- what passing means

  /** The bounds of an integer parameter contain an integer. */
  predicate HasInteger(spec: ParamSpec) {
    spec.IntParam? ==> Ceil(spec.low) <= spec.high.Floor
  }

  predicate HasIntegers(space: Space) {
    forall i | 0 <= i < |space| :: HasInteger(space[i])
  }

  predicate InSpec(spec: ParamSpec, value: Value) {
    match spec
    case FloatParam(_, low, high) => value.Float? && low <= value.x <= high
    case IntParam(_, low, high) => value.Whole? && low <= value.n as real <= high
    case CategoricalParam(_, choices) => value.Text? && value.s in choices
  }

  lemma {:induction false} FloorAndCeil(x: real, n: int)
    ensures n as real <= x <==> n <= x.Floor
    ensures x <= n as real <==> Ceil(x) <= n
  {
  }

  lemma {:induction false} HasIntegerMeans(spec: ParamSpec)
    requires spec.IntParam?
    ensures HasInteger(spec) <==> exists n: int :: InSpec(spec, Whole(n))
  {
    if n: int :| InSpec(spec, Whole(n)) {
      FloorAndCeil(spec.low, n);
      FloorAndCeil(spec.high, n);
    }
    if HasInteger(spec) {
      FloorAndCeil(spec.low, spec.high.Floor);
      assert InSpec(spec, Whole(spec.high.Floor));
    }
  }

  /** Exactly the declared names, every value in its kind and bounds. */
  predicate Conforms(params: Params, space: Space) {
    && params.Keys == Names(space)
    && forall i | 0 <= i < |space| :: space[i].name in params && InSpec(space[i], params[space[i].name])
  }

  /** The number a raw value stands for once text has been read. */
  function Numeric(raw: Value, read: Reader): Option<real> {
    match raw
    case Float(x) => Some(x)
    case Whole(n) => Some(n as real)
    case NotFinite => None
    case Text(s) => (match read(s) case Number(x) => Some(x) case _ => None)
  }

  lemma {:induction false} CleanMeaning(spec: ParamSpec, raw: Value, read: Reader)
    requires spec.Valid() && Clean(spec, raw, read).Accepted?
    ensures InSpec(spec, Clean(spec, raw, read).value) <==> HasInteger(spec)
    ensures Clean(spec, Clean(spec, raw, read).value, read) == Accepted(Clean(spec, raw, read).value, false, false)
    ensures Clean(spec, raw, read).clamped <==>
            !spec.CategoricalParam? && Numeric(raw, read) != Numeric(Clean(spec, raw, read).value, read)
    ensures spec.CategoricalParam? ==> Clean(spec, raw, read).value == raw
    ensures Clean(spec, raw, read).coerced <==>
            !spec.CategoricalParam? && (raw.Text? || (spec.IntParam? && raw.Float?))
  {
  }

  predicate IsInteger(n: int, x: real) {
    n as real == x
  }

  /** A value the guard can use: a finite number for a float, an integral one for an integer, a choice. */
  ghost predicate Readable(spec: ParamSpec, raw: Value, read: Reader) {
    match spec
    case CategoricalParam(_, choices) => raw.Text? && raw.s in choices
    case FloatParam(_, _, _) => Numeric(raw, read).Some?
    case IntParam(_, _, _) => Numeric(raw, read).Some? && exists n: int :: IsInteger(n, Numeric(raw, read).value)
  }

  lemma {:induction false} AcceptedExactlyWhen(spec: ParamSpec, raw: Value, read: Reader)
    ensures Clean(spec, raw, read).Accepted? <==> Readable(spec, raw, read)
  {
    if spec.IntParam? && Numeric(raw, read).Some? {
      var number := Numeric(raw, read).value;
      if number.Floor as real == number {
        assert IsInteger(number.Floor, number);
      }
    }
  }

  /** The number an accepted value is. */
  function NumberOf(value: Value): real
    requires value.Float? || value.Whole?
  {
    if value.Float? then value.x else value.n as real
  }

  /** An accepted number becomes the value of the declared bounds nearest to it. */
  lemma {:induction false} CleanedIsNearest(spec: ParamSpec, raw: Value, read: Reader, other: Value)
    requires spec.Valid() && !spec.CategoricalParam? && Clean(spec, raw, read).Accepted? && InSpec(spec, other)
    ensures Numeric(raw, read).Some?
    ensures InSpec(spec, Clean(spec, raw, read).value)
    ensures Distance(NumberOf(Clean(spec, raw, read).value), Numeric(raw, read).value) <= Distance(NumberOf(other), Numeric(raw, read).value)
  {
    if spec.IntParam? {
      FloorAndCeil(spec.low, other.n);
      FloorAndCeil(spec.high, other.n);
      CleanMeaning(spec, raw, read);
    }
  }

  predicate AllAccepted(space: Space, params: Params, read: Reader)
    requires Names(space) <= params.Keys
  {
    forall i | 0 <= i < |space| :: space[i].name in params && Clean(space[i], params[space[i].name], read).Accepted?
  }

  lemma {:induction false} InitNames(space: Space)
    requires space != []
    ensures Names(space) == Names(space[..|space| - 1]) + {space[|space| - 1].name}
  {
    assert space == space[..|space| - 1] + [space[|space| - 1]];
  }

  lemma {:induction false} NameDeclared(space: Space, i: nat)
    requires i < |space|
    ensures space[i].name in Names(space)
  {
    assert space[i] in space;
  }

  lemma {:induction false} SweptClears(space: Space, params: Params, read: Reader)
    requires Names(space) <= params.Keys
    ensures Swept(space, params, read).Clear? <==> AllAccepted(space, params, read)
    ensures Swept(space, params, read).Clear? ==>
              var Clear(cleaned, clamped, coerced) := Swept(space, params, read);
              && cleaned.Keys == Names(space)
              && (forall name | name in clamped + coerced :: name in Names(space))
  {
    if space != [] {
      var init, last := space[..|space| - 1], space[|space| - 1];
      InitNames(space);
      SweptClears(init, params, read);
      AllAcceptedInit(space, params, read);
    }
  }

  lemma {:induction false} AllAcceptedInit(space: Space, params: Params, read: Reader)
    requires space != [] && Names(space) <= params.Keys && Names(space[..|space| - 1]) <= params.Keys
    ensures var last := space[|space| - 1];
            AllAccepted(space, params, read) <==>
              AllAccepted(space[..|space| - 1], params, read) && last.name in params && Clean(last, params[last.name], read).Accepted?
  {
    var init := space[..|space| - 1];
    assert forall i | 0 <= i < |init| :: init[i] == space[i];
  }

  lemma {:induction false} SweptAt(space: Space, params: Params, read: Reader, i: nat)
    requires i < |space| && DistinctNames(space)
    requires Names(space) <= params.Keys && Swept(space, params, read).Clear?
    ensures var Clear(cleaned, clamped, coerced) := Swept(space, params, read);
            && space[i].name in params && space[i].name in cleaned
            && Clean(space[i], params[space[i].name], read).Accepted?
            && cleaned[space[i].name] == Clean(space[i], params[space[i].name], read).value
            && (space[i].name in clamped <==> Clean(space[i], params[space[i].name], read).clamped)
            && (space[i].name in coerced <==> Clean(space[i], params[space[i].name], read).coerced)
  {
    var init, last := space[..|space| - 1], space[|space| - 1];
    InitNames(space);
    if i < |init| {
      SweptAt(init, params, read, i);
    } else {
      SweptClears(init, params, read);
      forall spec | spec in init ensures spec.name != last.name {
        var j :| 0 <= j < |init| && init[j] == spec;
        assert space[j].name != last.name;
      }
    }
  }

  lemma {:induction false} SweptQuietly(space: Space, params: Params, read: Reader)
    requires Names(space) <= params.Keys
    requires forall i | 0 <= i < |space| ::
               space[i].name in params && Clean(space[i], params[space[i].name], read) == Accepted(params[space[i].name], false, false)
    ensures Swept(space, params, read) == Clear(map name | name in Names(space) :: params[name], [], [])
  {
    if space != [] {
      var init, last := space[..|space| - 1], space[|space| - 1];
      InitNames(space);
      assert forall i | 0 <= i < |init| :: space[i] == init[i];
      SweptQuietly(init, params, read);
    }
  }

  /** A candidate that passes is in kind and in bounds exactly when every integer axis holds an integer. */
  lemma {:induction false} ValidatedConforms(candidate: Candidate, space: Space, read: Reader)
    requires ValidSpace(space) && Validated(candidate, space, read).Passed?
    ensures Conforms(Validated(candidate, space, read).candidate.params, space) <==> HasIntegers(space)
    ensures Validated(candidate, space, read).candidate.params.Keys == Names(space) == candidate.params.Keys
    ensures Validated(candidate, space, read).candidate.source == candidate.source
  {
    SweptClears(space, candidate.params, read);
    forall i | 0 <= i < |space|
      ensures space[i].name in Validated(candidate, space, read).candidate.params
      ensures InSpec(space[i], Validated(candidate, space, read).candidate.params[space[i].name]) <==> HasInteger(space[i])
    {
      SweptAt(space, candidate.params, read, i);
      CleanMeaning(space[i], candidate.params[space[i].name], read);
    }
  }

  /** Refusal happens for exactly these causes: names that are not the declared ones, or a value that cannot be
      used. */
  lemma {:induction false} RefusedExactlyWhen(candidate: Candidate, space: Space, read: Reader)
    ensures Validated(candidate, space, read).Refused? <==>
            || candidate.params.Keys != Names(space)
            || exists i :: 0 <= i < |space| && !(space[i].name in candidate.params && Readable(space[i], candidate.params[space[i].name], read))
  {
    if candidate.params.Keys == Names(space) {
      SweptClears(space, candidate.params, read);
      forall i | 0 <= i < |space|
        ensures space[i].name in candidate.params
        ensures Clean(space[i], candidate.params[space[i].name], read).Accepted? <==> Readable(space[i], candidate.params[space[i].name], read)
      {
        NameDeclared(space, i);
        AcceptedExactlyWhen(space[i], candidate.params[space[i].name], read);
      }
    }
  }

  /** Every number that passes is the value of its bounds nearest to the number proposed, and every choice is
      the one proposed. */
  lemma {:induction false} PassedIsNearest(candidate: Candidate, space: Space, read: Reader, i: nat, other: Value)
    requires ValidSpace(space) && Validated(candidate, space, read).Passed? && i < |space| && InSpec(space[i], other)
    ensures space[i].name in candidate.params && space[i].name in Validated(candidate, space, read).candidate.params
    ensures var raw, passed := candidate.params[space[i].name], Validated(candidate, space, read).candidate.params[space[i].name];
            && InSpec(space[i], passed)
            && (space[i].CategoricalParam? ==> passed == raw)
            && (!space[i].CategoricalParam? ==>
                  && Numeric(raw, read).Some?
                  && Distance(NumberOf(passed), Numeric(raw, read).value) <= Distance(NumberOf(other), Numeric(raw, read).value))
  {
    var raw := candidate.params[space[i].name];
    SweptClears(space, candidate.params, read);
    SweptAt(space, candidate.params, read, i);
    CleanMeaning(space[i], raw, read);
    if !space[i].CategoricalParam? {
      CleanedIsNearest(space[i], raw, read, other);
    }
  }

  /** A conforming candidate passes unchanged, with nothing reported. */
  lemma {:induction false} ConformingPassesUnchanged(candidate: Candidate, space: Space, read: Reader)
    requires ValidSpace(space) && Conforms(candidate.params, space)
    ensures Validated(candidate, space, read) == Passed(candidate, [], [])
  {
    SweptQuietly(space, candidate.params, read);
  }

  /** Cleaning twice changes nothing more, and the second pass reports nothing. */
  lemma {:induction false} ValidateIsIdempotent(candidate: Candidate, space: Space, read: Reader)
    requires ValidSpace(space) && Validated(candidate, space, read).Passed?
    ensures Validated(Validated(candidate, space, read).candidate, space, read)
         == Passed(Validated(candidate, space, read).candidate, [], [])
  {
    var once := Validated(candidate, space, read).candidate;
    SweptClears(space, candidate.params, read);
    forall i | 0 <= i < |space|
      ensures space[i].name in once.params
      ensures Clean(space[i], once.params[space[i].name], read) == Accepted(once.params[space[i].name], false, false)
    {
      SweptAt(space, candidate.params, read, i);
      CleanMeaning(space[i], candidate.params[space[i].name], read);
    }
    SweptQuietly(space, once.params, read);
    assert (map name | name in Names(space) :: once.params[name]) == once.params;
  }

  /** `clamped` names exactly the parameters whose number changed; `coerced` exactly the numeric ones given as
      text and the integer ones given as a float. */
  lemma {:induction false} ReportNamesWhatChanged(candidate: Candidate, space: Space, read: Reader, i: nat)
    requires ValidSpace(space) && Validated(candidate, space, read).Passed? && i < |space|
    ensures space[i].name in candidate.params && space[i].name in Validated(candidate, space, read).candidate.params
    ensures var Passed(cleaned, clamped, coerced) := Validated(candidate, space, read);
            var spec, raw := space[i], candidate.params[space[i].name];
            && (spec.name in clamped <==>
                  !spec.CategoricalParam? && Numeric(raw, read) != Numeric(cleaned.params[spec.name], read))
            && (spec.name in coerced <==>
                  !spec.CategoricalParam? && (raw.Text? || (spec.IntParam? && raw.Float?)))
            && (forall name | name in clamped + coerced :: name in Names(space))
  {
    SweptClears(space, candidate.params, read);
    SweptAt(space, candidate.params, read, i);
    CleanMeaning(space[i], candidate.params[space[i].name], read);
  }

  // ---------------------------------------------------------------- duplicates

  const TOLERANCE := 0.000000001

  /** Two finite numbers agree within the tolerance; anything else agrees only with itself. */
  predicate SameValue(left: Value, right: Value, tolerance: real) {
    match (left, right)
    case (Float(a), Float(b)) => Distance(a, b) <= tolerance
    case (Float(a), Whole(b)) => Distance(a, b as real) <= tolerance
    case (Whole(a), Float(b)) => Distance(a as real, b) <= tolerance
    case (Whole(a), Whole(b)) => Distance(a as real, b as real) <= tolerance
    case _ => left == right
  }

  predicate SameParams(left: Params, right: Params, tolerance: real) {
    left.Keys == right.Keys && forall name | name in left :: SameValue(left[name], right[name], tolerance)
  }

  /** Some evaluated episode already has these parameters. */
  predicate Duplicates(candidate: Candidate, history: seq<Episode>) {
    exists i :: 0 <= i < |history| && history[i].outcome.Measured? &&
                SameParams(candidate.params, history[i].candidate.params, TOLERANCE)
  }

  /** Numbers are the same when no further apart than a billionth, of whatever kind; 3.14159265 and 3.1415926535
      are further apart. */
  lemma {:induction false} SameToABillionth(a: real, b: real, n: int)
    ensures !SameValue(Float(3.14159265), Float(3.1415926535), TOLERANCE)
    ensures Distance(a, b) * 1000000000.0 > 1.0 ==> !SameValue(Float(a), Float(b), TOLERANCE)
    ensures Distance(a, b) * 1000000000.0 <= 1.0 ==> SameValue(Float(a), Float(b), TOLERANCE)
    ensures SameValue(Float(n as real), Whole(n), TOLERANCE) && SameValue(Whole(n), Float(n as real), TOLERANCE)
  {
  }

  method IsDuplicate(candidate: Candidate, history: seq<Episode>) returns (found: bool)
    ensures found == Duplicates(candidate, history)
  {
    for i := 0 to |history|
      invariant forall j | 0 <= j < i && history[j].outcome.Measured? ::
                  !SameParams(candidate.params, history[j].candidate.params, TOLERANCE)
    {
      if history[i].outcome.Measured? {
        if SameParams(candidate.params, history[i].candidate.params, TOLERANCE) {
          return true;
        }
      }
    }
    found := false;
  }

  // ---------------------------------------------------------------- perturbation

  /** The random draws one parameter may consume: a Gaussian step, a choice of sign, a choice of name. */
  datatype Nudge = Nudge(step: real, up: bool, pick: nat)

  function Without(choices: seq<string>, value: Value): seq<string> {
    if choices == [] then []
    else
      var rest := Without(choices[..|choices| - 1], value);
      var last := choices[|choices| - 1];
      if value == Text(last) then rest else rest + [last]
  }

  lemma {:induction false} WithoutMeaning(choices: seq<string>, value: Value)
    ensures forall c :: c in Without(choices, value) <==> c in choices && value != Text(c)
  {
    if choices != [] {
      WithoutMeaning(choices[..|choices| - 1], value);
      assert choices == choices[..|choices| - 1] + [choices[|choices| - 1]];
    }
  }

  /** Where one parameter is moved; `value` is None when the candidate does not mention it. */
  function Moved(spec: ParamSpec, value: Option<Value>, nudge: Nudge): Value
    requires spec.Valid()
  {
    match spec
    case CategoricalParam(_, choices) =>
      var alternatives := if value.Some? then Without(choices, value.value) else choices;
      if alternatives != [] then Text(alternatives[nudge.pick % |alternatives|])
      else if value.Some? then value.value else assert false; Text("")
    case FloatParam(_, low, high) =>
      Float(Clamp(Current(value, low, high) + nudge.step, low, high))
    case IntParam(_, low, high) =>
      var integer := ClampInt(Round(Current(value, low, high) + nudge.step), low, high);
      if value == Some(Whole(integer)) || value == Some(Float(integer as real))
      then Whole(ClampInt(if nudge.up then integer + 1 else integer - 1, low, high))
      else Whole(integer)
  }

  function Current(value: Option<Value>, low: real, high: real): real {
    match value
    case Some(Float(x)) => x
    case Some(Whole(n)) => n as real
    case _ => (low + high) / 2.0
  }

  function Lookup(params: Params, name: string): Option<Value> {
    if name in params then Some(params[name]) else None
  }

  function MovedAll(space: Space, params: Params, nudges: nat -> Nudge): Params
    requires forall i | 0 <= i < |space| :: space[i].Valid()
  {
    if space == [] then map[]
    else
      var n := |space| - 1;
      MovedAll(space[..n], params, nudges)[space[n].name := Moved(space[n], Lookup(params, space[n].name), nudges(n))]
  }

  method PerturbCandidate(candidate: Candidate, space: Space, nudges: nat -> Nudge) returns (moved: Candidate)
    requires ValidSpace(space)
    ensures moved == Candidate(MovedAll(space, candidate.params, nudges), Perturb)
  {
    var params: Params := map[];
    for i := 0 to |space|
      invariant params == MovedAll(space[..i], candidate.params, nudges)
    {
      assert space[..i + 1][..i] == space[..i];
      var value := Lookup(candidate.params, space[i].name);
      params := params[space[i].name := Moved(space[i], value, nudges(i))];
    }
    assert space[..|space|] == space;
    moved := Candidate(params, Perturb);
  }

  lemma {:induction false} MovedInSpec(spec: ParamSpec, value: Option<Value>, nudge: Nudge)
    requires spec.Valid()
    ensures InSpec(spec, Moved(spec, value, nudge)) <==> HasInteger(spec)
  {
    if spec.CategoricalParam? && value.Some? {
      WithoutMeaning(spec.choices, value.value);
      assert spec.choices[0] in spec.choices;
    }
  }

  lemma {:induction false} MovedAt(space: Space, params: Params, nudges: nat -> Nudge, i: nat)
    requires i < |space| && DistinctNames(space)
    requires forall j | 0 <= j < |space| :: space[j].Valid()
    ensures space[i].name in MovedAll(space, params, nudges)
    ensures MovedAll(space, params, nudges)[space[i].name] == Moved(space[i], Lookup(params, space[i].name), nudges(i))
  {
    var init := space[..|space| - 1];
    if i < |init| {
      assert space[i].name != space[|init|].name;
      MovedAt(init, params, nudges, i);
    }
  }

  lemma {:induction false} MovedKeys(space: Space, params: Params, nudges: nat -> Nudge)
    requires forall j | 0 <= j < |space| :: space[j].Valid()
    ensures MovedAll(space, params, nudges).Keys == Names(space)
  {
    if space != [] {
      InitNames(space);
      MovedKeys(space[..|space| - 1], params, nudges);
    }
  }

  /** Whatever the draws, a perturbed candidate conforms exactly when every integer axis holds an integer. */
  lemma {:induction false} MovedConforms(space: Space, params: Params, nudges: nat -> Nudge)
    requires ValidSpace(space)
    ensures Conforms(MovedAll(space, params, nudges), space) <==> HasIntegers(space)
  {
    MovedKeys(space, params, nudges);
    forall i | 0 <= i < |space|
      ensures space[i].name in MovedAll(space, params, nudges)
      ensures InSpec(space[i], MovedAll(space, params, nudges)[space[i].name]) <==> HasInteger(space[i])
    {
      MovedAt(space, params, nudges, i);
      MovedInSpec(space[i], Lookup(params, space[i].name), nudges(i));
    }
  }

  /** A float goes to the value of its bounds nearest to where the step leads. */
  lemma {:induction false} FloatMovesBy(spec: ParamSpec, x: real, nudge: Nudge, other: real)
    requires spec.Valid() && spec.FloatParam? && InSpec(spec, Float(x)) && InSpec(spec, Float(other))
    ensures var moved := Moved(spec, Some(Float(x)), nudge);
            InSpec(spec, moved) && Distance(moved.x, x + nudge.step) <= Distance(other, x + nudge.step)
  {
  }

  /** A parameter the candidate does not mention moves from the middle of its bounds. */
  lemma {:induction false} MissingMovesFromTheMiddle(spec: ParamSpec, nudge: Nudge)
    requires spec.Valid() && !spec.CategoricalParam?
    ensures var middle := spec.low + (spec.high - spec.low) / 2.0;
            && (spec.FloatParam? ==> Moved(spec, None, nudge) == Moved(spec, Some(Float(middle)), nudge))
            && (spec.IntParam? && nudge.step == 0.0 && Ceil(spec.low) <= Round(middle) <= spec.high.Floor ==>
                  Moved(spec, None, nudge) == Whole(Round(middle)))
  {
  }

  /** An integer goes to the integer of its bounds nearest to where the rounded step leads, or if that is where
      it was, nearest to its neighbour. */
  lemma {:induction false} IntegerMovesBy(spec: ParamSpec, n: int, nudge: Nudge, other: int)
    requires spec.Valid() && spec.IntParam? && InSpec(spec, Whole(n)) && InSpec(spec, Whole(other))
    ensures var moved := Moved(spec, Some(Whole(n)), nudge);
            var led := Round(n as real + nudge.step);
            var held := led == n || (led > n && n as real + 1.0 > spec.high) || (led < n && n as real - 1.0 < spec.low);
            var aim := if !held then led else if nudge.up then n + 1 else n - 1;
            InSpec(spec, moved) && Distance(moved.n as real, aim as real) <= Distance(other as real, aim as real)
  {
    FloorAndCeil(spec.low, n);
    FloorAndCeil(spec.high, n);
    FloorAndCeil(spec.low, other);
    FloorAndCeil(spec.high, other);
    MovedInSpec(spec, Some(Whole(n)), nudge);
  }

  /** A categorical goes to another choice, if there is one. */
  lemma {:induction false} ChoiceMoves(spec: ParamSpec, value: Value, nudge: Nudge, other: Value)
    requires spec.Valid() && spec.CategoricalParam? && InSpec(spec, value) && InSpec(spec, other) && other != value
    ensures InSpec(spec, Moved(spec, Some(value), nudge)) && Moved(spec, Some(value), nudge) != value
  {
    WithoutMeaning(spec.choices, value);
    var alternatives := Without(spec.choices, value);
    assert other.s in alternatives;
    assert alternatives[nudge.pick % |alternatives|] in alternatives;
  }

  /** And any other choice can be picked. */
  lemma {:induction false} AnyChoiceCanBePicked(spec: ParamSpec, value: Value, other: Value) returns (nudge: Nudge)
    requires spec.Valid() && spec.CategoricalParam? && InSpec(spec, value) && InSpec(spec, other) && other != value
    ensures Moved(spec, Some(value), nudge) == other
  {
    WithoutMeaning(spec.choices, value);
    var alternatives := Without(spec.choices, value);
    var pick: nat :| pick < |alternatives| && alternatives[pick] == other.s;
    Remains(pick, |alternatives|);
    nudge := Nudge(0.0, true, pick);
  }

  lemma {:induction false} Remains(pick: nat, count: nat)
    requires pick < count
    ensures pick % count == pick
  {
  }

  /** A step that leaves a number within the tolerance of where it was, once clamped. */
  predicate StepStays(x: real, low: real, high: real, step: real) {
    || Distance(step, 0.0) <= TOLERANCE
    || (step > 0.0 && high - x <= TOLERANCE)
    || (step < 0.0 && x - low <= TOLERANCE)
  }

  /** The draw leaves the parameter where it was: a float hardly steps, or steps out of the bound it is on;
      an integer lands back on itself and is pushed out of the range; there is no other choice. */
  predicate Stays(spec: ParamSpec, value: Value, nudge: Nudge)
    requires InSpec(spec, value)
  {
    match spec
    case FloatParam(_, low, high) => StepStays(value.x, low, high, nudge.step)
    case IntParam(_, low, high) =>
      var top, bottom := value.n as real + 1.0 > high, value.n as real - 1.0 < low;
      var rounded := Round(value.n as real + nudge.step);
      if nudge.up then top && (rounded >= value.n || bottom) else bottom && (rounded <= value.n || top)
    case CategoricalParam(_, choices) => forall c | c in choices :: Text(c) == value
  }

  /** An integer parameter stays where it was exactly when the step lands back on it and the
      one-unit correction points out of the range. */
  lemma {:induction false} IntegerStaysExactlyWhen(spec: ParamSpec, n: int, nudge: Nudge)
    requires spec.Valid() && spec.IntParam? && InSpec(spec, Whole(n))
    ensures Moved(spec, Some(Whole(n)), nudge) == Whole(n) <==> Stays(spec, Whole(n), nudge)
  {
  }

  lemma {:induction false} FloatStaysExactlyWhen(spec: ParamSpec, x: real, nudge: Nudge)
    requires spec.Valid() && spec.FloatParam? && InSpec(spec, Float(x))
    ensures SameValue(Moved(spec, Some(Float(x)), nudge), Float(x), TOLERANCE) <==> Stays(spec, Float(x), nudge)
  {
  }

  lemma {:induction false} ChoiceStaysExactlyWhen(spec: ParamSpec, value: Value, nudge: Nudge)
    requires spec.Valid() && spec.CategoricalParam? && InSpec(spec, value)
    ensures SameValue(Moved(spec, Some(value), nudge), value, TOLERANCE) <==> Stays(spec, value, nudge)
  {
    WithoutMeaning(spec.choices, value);
    var alternatives := Without(spec.choices, value);
    if alternatives != [] {
      assert alternatives[0] in alternatives;
      assert alternatives[nudge.pick % |alternatives|] in alternatives;
    } else {
      forall c | c in spec.choices ensures Text(c) == value {
        assert c !in alternatives;
      }
    }
  }

  lemma {:induction false} ParameterStaysExactlyWhen(spec: ParamSpec, value: Value, nudge: Nudge)
    requires spec.Valid() && InSpec(spec, value)
    ensures SameValue(Moved(spec, Some(value), nudge), value, TOLERANCE) <==> Stays(spec, value, nudge)
  {
    match spec
    case FloatParam(_, _, _) => FloatStaysExactlyWhen(spec, value.x, nudge);
    case IntParam(_, _, _) =>
      IntegerStaysExactlyWhen(spec, value.n, nudge);
      MovedInSpec(spec, Some(value), nudge);
      FloorAndCeil(spec.low, value.n);
      FloorAndCeil(spec.high, value.n);
    case CategoricalParam(_, _) => ChoiceStaysExactlyWhen(spec, value, nudge);
  }

  /** Perturbation leaves the duplicate in place, to the duplicate test, exactly when every parameter stays. */
  lemma {:induction false} DuplicateStaysExactlyWhen(space: Space, params: Params, nudges: nat -> Nudge)
    requires ValidSpace(space) && Conforms(params, space)
    ensures SameParams(MovedAll(space, params, nudges), params, TOLERANCE) <==>
            forall i | 0 <= i < |space| :: Stays(space[i], params[space[i].name], nudges(i))
  {
    var moved := MovedAll(space, params, nudges);
    MovedKeys(space, params, nudges);
    forall i | 0 <= i < |space|
      ensures space[i].name in moved
      ensures SameValue(moved[space[i].name], params[space[i].name], TOLERANCE) <==> Stays(space[i], params[space[i].name], nudges(i))
    {
      MovedAt(space, params, nudges, i);
      ParameterStaysExactlyWhen(space[i], params[space[i].name], nudges(i));
    }
    forall name | name in moved ensures exists i :: 0 <= i < |space| && space[i].name == name {
      var spec :| spec in space && spec.name == name;
    }
    if forall i | 0 <= i < |space| :: Stays(space[i], params[space[i].name], nudges(i)) {
      forall name | name in moved ensures SameValue(moved[name], params[name], TOLERANCE) {
        var i :| 0 <= i < |space| && space[i].name == name;
      }
    }
  }
}
