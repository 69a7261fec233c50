/** Retrying one provider call with jittered exponential backoff. */
module Retry {
  import opened Domain

  datatype Policy = Policy(maxAttempts: nat, baseDelay: real, maxDelay: real, maxRetryAfter: real) {
    predicate Valid() {
      maxAttempts >= 1 && baseDelay >= 0.0 && maxDelay >= 0.0 && maxRetryAfter >= 0.0
    }
  }

  /** How one attempt goes. */
  datatype Attempt<T> = Returned(value: T) | Transient(retryAfter: Option<real>) | Permanent

  datatype Outcome<T> = Succeeded(value: T) | PermanentError | RetriesExhausted

  function Power2(n: nat): nat {
    if n == 0 then 1 else 2 * Power2(n - 1)
  }

  function Product(x: real, n: nat): real {
    x * n as real
  }

  /** `base` doubled `n` times. */
  function Doubled(base: real, n: nat): real {
    if n == 0 then base else Doubled(base, n - 1) + Doubled(base, n - 1)
  }

  function Least(a: real, b: real): real {
    if a < b then a else b
  }

  /** The most the computed delay before a retry can be. */
  function Ceiling(policy: Policy, attempt: nat): real
    requires attempt >= 1
  {
    Least(Doubled(policy.baseDelay, attempt - 1), policy.maxDelay)
  }

  /** The most any delay can be, given what the server asked for. */
  function Limit(policy: Policy, attempt: nat, retryAfter: Option<real>): real
    requires attempt >= 1
  {
    match retryAfter
    case None => Ceiling(policy, attempt)
    case Some(asked) => Least(if asked < 0.0 then 0.0 else asked, policy.maxRetryAfter)
  }

  /** The server's own instruction, capped; otherwise full jitter: `draw` of the ceiling. */
  function DelayFor(policy: Policy, attempt: nat, retryAfter: Option<real>, draw: real): real
    requires attempt >= 1
  {
    if retryAfter.Some? then Limit(policy, attempt, retryAfter) else draw * Ceiling(policy, attempt)
  }

  function Sum(values: seq<real>): real {
    if values == [] then 0.0 else Sum(values[..|values| - 1]) + values[|values| - 1]
  }

  lemma {:induction false} DoubledMeaning(base: real, n: nat)
    ensures Doubled(base, n) == Product(base, Power2(n))
    ensures base >= 0.0 ==> Doubled(base, n) >= 0.0
  {
    if n > 0 {
      DoubledMeaning(base, n - 1);
      Twice(base, Power2(n - 1), Power2(n));
    }
  }

  lemma {:induction false} Twice(base: real, power: nat, double: nat)
    requires double == 2 * power
    ensures Product(base, power) + Product(base, power) == Product(base, double)
  {
    assert double as real == power as real + power as real;
  }

  lemma {:induction false} DelayWithinLimit(policy: Policy, attempt: nat, retryAfter: Option<real>, draw: real)
    requires policy.Valid() && attempt >= 1 && 0.0 <= draw <= 1.0
    ensures 0.0 <= DelayFor(policy, attempt, retryAfter, draw) <= Limit(policy, attempt, retryAfter)
  {
    DoubledMeaning(policy.baseDelay, attempt - 1);
    ScaledDown(Ceiling(policy, attempt), 1.0, draw);
  }

  lemma {:induction false} ScaledDown(x: real, more: real, less: real)
    requires x >= 0.0 && less <= more
    ensures x * less <= x * more
  {
  }

  /** The attempt at which the retrying stops: the first that is not transient, or the last allowed. */
  ghost predicate SettlesAt<T(!new)>(operation: nat -> Attempt<T>, maxAttempts: nat, attempt: nat) {
    && 1 <= attempt <= maxAttempts
    && (forall k | 1 <= k < attempt :: operation(k).Transient?)
    && (operation(attempt).Transient? ==> attempt == maxAttempts)
  }

  function Settling<T>(operation: nat -> Attempt<T>, last: nat, attempt: nat): nat
    requires attempt <= last
    decreases last - attempt
  {
    if attempt < last && operation(attempt).Transient? then Settling(operation, last, attempt + 1) else attempt
  }

  /** What the retrying comes to. */
  function OutcomeOf<T>(operation: nat -> Attempt<T>, maxAttempts: nat): Outcome<T>
    requires maxAttempts >= 1
  {
    match operation(Settling(operation, maxAttempts, 1))
    case Returned(value) => Succeeded(value)
    case Permanent => PermanentError
    case Transient(_) => RetriesExhausted
  }

  lemma {:induction false} SettlingSettles<T(!new)>(operation: nat -> Attempt<T>, last: nat, attempt: nat)
    requires 1 <= attempt <= last && forall k | 1 <= k < attempt :: operation(k).Transient?
    ensures SettlesAt(operation, last, Settling(operation, last, attempt))
    decreases last - attempt
  {
    if attempt < last && operation(attempt).Transient? {
      SettlingSettles(operation, last, attempt + 1);
    }
  }

  /** There is exactly one attempt at which the retrying settles, so exactly one outcome. */
  lemma {:induction false} SettlesOnce<T(!new)>(operation: nat -> Attempt<T>, last: nat, attempt: nat)
    requires last >= 1
    ensures SettlesAt(operation, last, attempt) <==> attempt == Settling(operation, last, 1)
  {
    SettlingSettles(operation, last, 1);
  }

  /** The sleep after attempt `attempt` failed. */
  predicate WaitedAfter<T>(policy: Policy, operation: nat -> Attempt<T>, draws: nat -> real, attempt: nat, wait: real)
    requires attempt >= 1
  {
    && operation(attempt).Transient?
    && wait == DelayFor(policy, attempt, operation(attempt).retryAfter, draws(attempt))
    && 0.0 <= wait <= Limit(policy, attempt, operation(attempt).retryAfter)
  }

  /** What the server asked for is waited in full, up to the cap. */
  lemma {:induction false} InstructionIsFollowed(policy: Policy, attempt: nat, asked: real, draw: real)
    requires policy.Valid() && attempt >= 1
    ensures 0.0 <= asked <= policy.maxRetryAfter ==> DelayFor(policy, attempt, Some(asked), draw) == asked
    ensures asked > policy.maxRetryAfter ==> DelayFor(policy, attempt, Some(asked), draw) == policy.maxRetryAfter
    ensures asked < 0.0 ==> DelayFor(policy, attempt, Some(asked), draw) == 0.0
  {
  }

  /** Without instructions the jitter is full: a draw is that part of the base doubled once per attempt before,
      or of the cap, from nothing up to all of it. */
  lemma {:induction false} JitterIsFull(policy: Policy, attempt: nat, draw: real)
    requires policy.Valid() && attempt >= 1
    ensures var backoff := Product(policy.baseDelay, Power2(attempt - 1));
            && (backoff <= policy.maxDelay ==> DelayFor(policy, attempt, None, 1.0) == backoff)
            && (backoff >= policy.maxDelay ==> DelayFor(policy, attempt, None, 1.0) == policy.maxDelay)
            && DelayFor(policy, attempt, None, 0.0) == 0.0
            && DelayFor(policy, attempt, None, draw) == draw * DelayFor(policy, attempt, None, 1.0)
  {
    DoubledMeaning(policy.baseDelay, attempt - 1);
  }

  /** The most that can be waited after attempt `attempt`. */
  function LimitAfter<T>(policy: Policy, operation: nat -> Attempt<T>, attempt: nat): real
    requires attempt >= 1
  {
    if operation(attempt).Transient? then Limit(policy, attempt, operation(attempt).retryAfter) else 0.0
  }

  /** And after the first `n` attempts together. */
  function LimitsUpTo<T>(policy: Policy, operation: nat -> Attempt<T>, n: nat): real {
    if n == 0 then 0.0 else LimitsUpTo(policy, operation, n - 1) + LimitAfter(policy, operation, n)
  }

  lemma {:induction false} WaitsWithinLimits<T>(policy: Policy, operation: nat -> Attempt<T>, draws: nat -> real, waits: seq<real>)
    requires forall k | 0 <= k < |waits| :: WaitedAfter(policy, operation, draws, k + 1, waits[k])
    ensures 0.0 <= Sum(waits) <= LimitsUpTo(policy, operation, |waits|)
  {
    if waits != [] {
      var n := |waits| - 1;
      WaitsWithinLimits(policy, operation, draws, waits[..n]);
      assert WaitedAfter(policy, operation, draws, n + 1, waits[n]);
    }
  }

  predicate NoInstructions<T>(operation: nat -> Attempt<T>, n: nat) {
    forall k | 1 <= k <= n :: operation(k).Transient? ==> operation(k).retryAfter.None?
  }

  /** Without instructions from the server, the limits add up to no more than the geometric sum. */
  lemma {:induction false} LimitsAreGeometric<T>(policy: Policy, operation: nat -> Attempt<T>, n: nat)
    requires policy.Valid() && NoInstructions(operation, n)
    ensures LimitsUpTo(policy, operation, n) <= Doubled(policy.baseDelay, n) - policy.baseDelay
  {
    if n > 0 {
      LimitsAreGeometric(policy, operation, n - 1);
      DoubledMeaning(policy.baseDelay, n - 1);
    }
  }

  lemma {:induction false} GeometricInClosedForm<T>(policy: Policy, operation: nat -> Attempt<T>, n: nat)
    requires policy.Valid() && NoInstructions(operation, n)
    ensures LimitsUpTo(policy, operation, n) <= Product(policy.baseDelay, Power2(n)) - policy.baseDelay
  {
    LimitsAreGeometric(policy, operation, n);
    DoubledMeaning(policy.baseDelay, n);
  }

  function Greatest(a: real, b: real): real {
    if a < b then b else a
  }

  /** In any case they add up to no more than the larger cap for each attempt. */
  lemma {:induction false} LimitsAreCapped<T>(policy: Policy, operation: nat -> Attempt<T>, n: nat)
    requires policy.Valid()
    ensures LimitsUpTo(policy, operation, n) <= Product(Greatest(policy.maxDelay, policy.maxRetryAfter), n)
    ensures NoInstructions(operation, n) ==> LimitsUpTo(policy, operation, n) <= Product(policy.maxDelay, n)
  {
    if n > 0 {
      LimitsAreCapped(policy, operation, n - 1);
      CapStep(Greatest(policy.maxDelay, policy.maxRetryAfter), n - 1, n);
      CapStep(policy.maxDelay, n - 1, n);
    }
  }

  lemma {:induction false} CapStep(cap: real, n: nat, next: nat)
    requires next == n + 1
    ensures Product(cap, n) + cap == Product(cap, next)
  {
    assert next as real == n as real + 1.0;
  }

  /** What a call waits in `sleeps` sleeps: no more than the limits in force; no more than the larger cap each
      time; and, when the server sent no instructions, no more than the geometric sum and the cap. */
  ghost predicate BoundedWait<T>(policy: Policy, operation: nat -> Attempt<T>, sleeps: nat, total: real) {
    && 0.0 <= total <= LimitsUpTo(policy, operation, sleeps)
    && total <= Product(Greatest(policy.maxDelay, policy.maxRetryAfter), sleeps)
    && (NoInstructions(operation, sleeps) ==>
          && total <= Product(policy.baseDelay, Power2(sleeps)) - policy.baseDelay
          && total <= Product(policy.maxDelay, sleeps))
  }

  lemma {:induction false} WaitIsBounded<T>(policy: Policy, operation: nat -> Attempt<T>, draws: nat -> real, waits: seq<real>)
    requires policy.Valid()
    requires forall k | 0 <= k < |waits| :: WaitedAfter(policy, operation, draws, k + 1, waits[k])
    ensures BoundedWait(policy, operation, |waits|, Sum(waits))
  {
    WaitsWithinLimits(policy, operation, draws, waits);
    LimitsAreCapped(policy, operation, |waits|);
    if NoInstructions(operation, |waits|) {
      GeometricInClosedForm(policy, operation, |waits|);
    }
  }

  /** Call until something other than a transient failure comes back or the attempts run out.
      Attempts are numbered from 1; `waits` are the sleeps between them. */
  method CallWithBackoff<T(!new)>(policy: Policy, operation: nat -> Attempt<T>, draws: nat -> real)
    returns (outcome: Outcome<T>, attempts: nat, waits: seq<real>, totalWait: real, rateLimited: bool)
    requires policy.Valid()
    requires forall k :: 0.0 <= draws(k) <= 1.0
    ensures SettlesAt(operation, policy.maxAttempts, attempts) && |waits| == attempts - 1
    ensures outcome == OutcomeOf(operation, policy.maxAttempts)
    ensures forall k | 0 <= k < |waits| :: WaitedAfter(policy, operation, draws, k + 1, waits[k])
    ensures totalWait == Sum(waits) && BoundedWait(policy, operation, attempts - 1, totalWait)
    ensures rateLimited <==> exists k :: 1 <= k <= attempts && operation(k).Transient? && operation(k).retryAfter.Some?
  {
    totalWait, rateLimited, waits, attempts := 0.0, false, [], 1;
    while true
      invariant 1 <= attempts <= policy.maxAttempts && |waits| == attempts - 1
      invariant forall k | 1 <= k < attempts :: operation(k).Transient?
      invariant forall k | 0 <= k < |waits| :: WaitedAfter(policy, operation, draws, k + 1, waits[k])
      invariant totalWait == Sum(waits)
      invariant rateLimited <==> exists k :: 1 <= k < attempts && operation(k).Transient? && operation(k).retryAfter.Some?
      decreases policy.maxAttempts - attempts
    {
      WaitIsBounded(policy, operation, draws, waits);
      match operation(attempts) {
        case Returned(value) =>
          SettlesOnce(operation, policy.maxAttempts, attempts);
          outcome := Succeeded(value);
          return;
        case Permanent =>
          SettlesOnce(operation, policy.maxAttempts, attempts);
          outcome := PermanentError;
          return;
        case Transient(retryAfter) =>
          if retryAfter.Some? {
            rateLimited := true;
          }
          if attempts == policy.maxAttempts {
            SettlesOnce(operation, policy.maxAttempts, attempts);
            outcome := RetriesExhausted;
            return;
          }
          var delay := DelayFor(policy, attempts, retryAfter, draws(attempts));
          DelayWithinLimit(policy, attempts, retryAfter, draws(attempts));
          totalWait := totalWait + delay;
          assert WaitedAfter(policy, operation, draws, attempts, delay);
          assert (waits + [delay])[..|waits|] == waits;
          waits := waits + [delay];
      }
      attempts := attempts + 1;
    }
  }
}
