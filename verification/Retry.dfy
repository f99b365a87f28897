/** Exponential backoff in 64-bit arithmetic and the two retry loops (s2/retry.go). */
module Backoff {
  const TWO_63: int := 0x8000_0000_0000_0000
  const TWO_64: int := 0x1_0000_0000_0000_0000
  const DEFAULT_MIN_BASE_DELAY: int := 100_000_000
  const DEFAULT_MAX_BASE_DELAY: int := 1_000_000_000

  function Pow2(k: nat): (r: nat)
    ensures r >= 1
  {
    if k == 0 then 1 else 2 * Pow2(k - 1)
  }

  /** The value an int64 holds after keeping the low 64 bits of `v`. */
  function Signed64(v: int): (r: int)
    ensures -TWO_63 <= r < TWO_63
    ensures -TWO_63 <= v < TWO_63 ==> r == v
  {
    var u := v % TWO_64;
    if u >= TWO_63 then u - TWO_64 else u
  }

  /** Go's `x << k` on int64: a shift count of 64 or more gives 0. */
  function ShiftLeft64(x: int, k: nat): int {
    if k >= 64 then 0 else Signed64(x * Pow2(k))
  }

  function OrDefault(x: int, default: int): int {
    if x <= 0 then default else x
  }

  /** The base delay as the code computes it, with its overflow check. */
  function BaseDelay(minDelay: int, maxDelay: int, attempt: int): (r: int)
    requires attempt >= 1
    ensures minDelay > 0 && maxDelay > 0 ==> 0 < r <= maxDelay
  {
    var base := ShiftLeft64(minDelay, attempt - 1);
    if base > maxDelay || base < minDelay then maxDelay else base
  }

  function Minimum(a: int, b: int): int { if a <= b then a else b }

  lemma {:induction false} Pow2Monotone(j: nat, k: nat)
    requires j <= k
    ensures Pow2(j) <= Pow2(k)
    decreases k
  {
    if j < k { Pow2Monotone(j, k - 1); }
  }

  lemma {:induction false} Pow2Splits(j: nat, k: nat)
    ensures Pow2(j + k) == Pow2(j) * Pow2(k)
    decreases k
  {
    if k == 0 {
      assert Pow2(j + 0) == Pow2(j);
    } else {
      Pow2Splits(j, k - 1);
      assert Pow2(j + k) == 2 * Pow2(j + k - 1);
      assert Pow2(j) * (2 * Pow2(k - 1)) == 2 * (Pow2(j) * Pow2(k - 1));
    }
  }

  lemma Pow2Of64()
    ensures Pow2(64) == TWO_64
  {
    assert Pow2(8) == 256;
    Pow2Splits(8, 8);
    assert Pow2(16) == 65536;
    Pow2Splits(16, 16);
    Pow2Splits(32, 32);
  }

  /** Reducing a multiple of `p` modulo `p * q` leaves a multiple of `p`. */
  lemma ModKeepsFactor(x: int, p: int, q: int) returns (m: int)
    requires p >= 1 && q >= 1 && p * q >= 1
    ensures (x * p) % (p * q) == m * p
  {
    var t := p * q;
    var d := (x * p) / t;
    m := x - d * q;
    calc {
      (x * p) % t;
      x * p - d * t;
      { assert d * t == (d * q) * p; }
      x * p - (d * q) * p;
      m * p;
    }
  }

  lemma NonPositiveFactor(m: int, p: int)
    requires p >= 1
    ensures m <= 0 ==> m * p <= 0
  {
  }

  lemma MultipleOfPositive(m: int, p: int)
    requires p >= 1 && m * p > 0
    ensures m * p >= p
  {
    NonPositiveFactor(m, p);
    assert (m - 1) * p >= 0;
  }

  /** A positive wrapped product keeps the factor 2^k, so it is at least 2^k. */
  lemma WrappedMultiple(x: int, k: nat)
    requires k < 64
    ensures ShiftLeft64(x, k) > 0 ==> ShiftLeft64(x, k) >= Pow2(k)
  {
    Pow2Of64();
    Pow2Splits(k, 64 - k);
    var m := ModKeepsFactor(x, Pow2(k), Pow2(64 - k));
    if ShiftLeft64(x, k) > 0 {
      MultipleOfPositive(m, Pow2(k));
    }
  }

  lemma TimesAtLeast(a: int, b: int, c: int)
    requires a >= 0 && b <= c
    ensures a * b <= a * c
  {
  }

  /** With Min*Max below 2^63 the wrapping shift plus overflow check is the saturating
      min(Min * 2^(n-1), Max), for every attempt number. */
  lemma BackoffSaturates(minDelay: int, maxDelay: int, attempt: int)
    requires 0 < minDelay < TWO_63 && 0 < maxDelay < TWO_63
    requires minDelay * maxDelay < TWO_63
    requires attempt >= 1
    ensures BaseDelay(minDelay, maxDelay, attempt) == Minimum(minDelay * Pow2(attempt - 1), maxDelay)
  {
    var k := attempt - 1;
    var p := Pow2(k);
    TimesAtLeast(minDelay, 1, p);
    TimesAtLeast(p, 1, minDelay);
    if k >= 64 {
      Pow2Of64();
      Pow2Monotone(64, k);
    } else if minDelay * p >= TWO_63 {
      if p <= maxDelay {
        TimesAtLeast(minDelay, p, maxDelay);
      }
      WrappedMultiple(minDelay, k);
    }
  }

  /** For any delays the result is the saturating minimum if and only if the shift does not overflow
      into the range that the overflow check lets through. */
  lemma BackoffSaturatesIff(minDelay: int, maxDelay: int, attempt: int)
    requires 0 < minDelay < TWO_63 && 0 < maxDelay < TWO_63 && attempt >= 1
    ensures BaseDelay(minDelay, maxDelay, attempt) == Minimum(minDelay * Pow2(attempt - 1), maxDelay) <==>
            !(minDelay * Pow2(attempt - 1) >= TWO_63 && minDelay <= ShiftLeft64(minDelay, attempt - 1) < maxDelay)
  {
    var k := attempt - 1;
    TimesAtLeast(minDelay, 1, Pow2(k));
    if k >= 64 {
      Pow2Of64();
      Pow2Monotone(64, k);
      TimesAtLeast(Pow2(k), 1, minDelay);
    }
  }

  /** Without that bound the shift can wrap into the accepted range: (2^32 + 1) << 33
      keeps only 2^33, which passes the overflow check although the true product does not. */
  lemma BackoffCanWrap()
    ensures BaseDelay(0x1_0000_0001, 0x100_0000_0000, 34) == 0x2_0000_0000
    ensures Minimum(0x1_0000_0001 * Pow2(33), 0x100_0000_0000) == 0x100_0000_0000
  {
    assert Pow2(8) == 256;
    Pow2Splits(8, 8);
    Pow2Splits(16, 16);
    assert Pow2(33) == 0x2_0000_0000;
  }

  /** The delay before retry number `attempt`; `random` is the draw behind `rand.Int63n`. */
  function RetryBackoff(minBase: int, maxBase: int, attempt: int, random: nat): int {
    if attempt < 1 then 0 else
    var base := BaseDelay(OrDefault(minBase, DEFAULT_MIN_BASE_DELAY),
                          OrDefault(maxBase, DEFAULT_MAX_BASE_DELAY), attempt);
    Signed64(base + random % base)
  }
}

module Retry {
  import opened Options
  import opened Errors
  import opened Backoff

  /** `maxAttempts` and the base delays are the caller's raw values; non-positive ones default. */
  datatype RetryConfig = RetryConfig(maxAttempts: int, minBase: int, maxBase: int, onlyNoSideEffects: bool)

  datatype Attempt = Success(value: nat) | Failure(err: Err)

  datatype Outcome = Returned(value: nat) | GaveUp(err: Err) | ContextDone

  function Budget(config: RetryConfig): (n: int)
    ensures n >= 1
  {
    if config.maxAttempts < 1 then 1 else config.maxAttempts
  }

  /** What `time.NewTimer` waits for a possibly wrapped, hence negative, duration. */
  function Waited(delay: int): nat { if delay < 0 then 0 else delay }

  function EffectiveMax(config: RetryConfig): (m: int)
    ensures m > 0
  {
    OrDefault(config.maxBase, DEFAULT_MAX_BASE_DELAY)
  }

  lemma DelayBounded(config: RetryConfig, attempt: int, random: nat)
    requires attempt >= 1
    ensures Waited(RetryBackoff(config.minBase, config.maxBase, attempt, random)) <= 2 * EffectiveMax(config) - 1
  {
    var base := BaseDelay(OrDefault(config.minBase, DEFAULT_MIN_BASE_DELAY), EffectiveMax(config), attempt);
    assert base + random % base <= 2 * EffectiveMax(config) - 1;
    SignedAtMost(base + random % base);
  }

  /** With delays far from the 64-bit limit the wait is the base delay plus less than as much again. */
  lemma DelayJitters(config: RetryConfig, attempt: int, random: nat)
    requires attempt >= 1 && 2 * EffectiveMax(config) <= TWO_63
    ensures var base := BaseDelay(OrDefault(config.minBase, DEFAULT_MIN_BASE_DELAY), EffectiveMax(config), attempt);
            base <= Waited(RetryBackoff(config.minBase, config.maxBase, attempt, random)) < 2 * base
  {
  }

  lemma SignedAtMost(v: int)
    requires v >= 0
    ensures Signed64(v) <= v
  {
  }

  /** `n` waits of `w` each. */
  function Copies(n: nat, w: nat): nat {
    if n == 0 then 0 else w + Copies(n - 1, w)
  }

  lemma {:induction false} WaitBound(n: nat, m: int)
    requires m > 0
    ensures n >= 1 ==> Copies(n, 2 * m - 1) < 2 * m * n
    ensures n == 0 ==> Copies(n, 2 * m - 1) == 0
  {
    if n > 1 {
      WaitBound(n - 1, m);
      assert 2 * m * n == 2 * m * (n - 1) + 2 * m;
    }
  }

  /** Whether `withRetries` tries again after this error, budget permitting. */
  predicate RetriesAfter(e: Err) {
    e.Network? || IsRetryableErr(e)
  }

  /** Whether `withAppendRetries` tries again after this error, budget permitting. */
  predicate AppendRetriesAfter(config: RetryConfig, e: Err) {
    if e.Network? then !config.onlyNoSideEffects
    else IsRetryableErr(e) && (config.onlyNoSideEffects ==> IsNoSideEffectsError(e))
  }

  /** The waits before the attempts after the first `n`, one after each. */
  function TotalWait(config: RetryConfig, random: nat -> nat, n: nat): nat {
    if n == 0 then 0 else TotalWait(config, random, n - 1) + Waited(RetryBackoff(config.minBase, config.maxBase, n, random(n)))
  }

  predicate AllFailed(attempt: nat -> Attempt, n: nat) {
    forall i: nat | i < n :: attempt(i).Failure?
  }

  /** The general retry loop. The environment supplies each attempt's result, the random draws
      and the index of the first context check that sees a cancellation (checks are made before
      an attempt, after it and during the wait). */
  method WithRetries(config: RetryConfig, attempt: nat -> Attempt, random: nat -> nat, cancelAt: nat)
    returns (r: Outcome, made: nat, waited: nat)
    ensures made <= Budget(config)
    ensures r.Returned? ==> made >= 1 && attempt(made - 1) == Success(r.value) && AllFailed(attempt, made - 1)
    ensures r.GaveUp? ==> made >= 1 && AllFailed(attempt, made) && AsS2(r.err) == AsS2(attempt(made - 1).err)
    ensures r.GaveUp? ==> made == Budget(config) || !RetriesAfter(attempt(made - 1).err)
    ensures forall i: nat | i + 1 < made :: attempt(i).Failure? && RetriesAfter(attempt(i).err)
    ensures r.ContextDone? ==> cancelAt <= 3 * made
    ensures !r.ContextDone? ==> made >= 1 && waited == TotalWait(config, random, made - 1)
    ensures r.ContextDone? ==> waited == TotalWait(config, random, made) || (made >= 1 && waited == TotalWait(config, random, made - 1))
    ensures Budget(config) > 1 ==> waited < 2 * EffectiveMax(config) * (Budget(config) - 1)
  {
    hide RetryBackoff, IsRetryable, EffectiveMax, Waited;
    var maxAttempts := Budget(config);
    var attemptNo, checks := 1, 0;
    made, waited := 0, 0;
    r := ContextDone;
    ghost var w := 2 * EffectiveMax(config) - 1;
    WaitBound(maxAttempts - 1, EffectiveMax(config));
    while attemptNo <= maxAttempts
      invariant 1 <= attemptNo <= maxAttempts && made == attemptNo - 1
      invariant checks == 3 * made && waited == TotalWait(config, random, made)
      invariant waited + Copies(maxAttempts - attemptNo, w) <= Copies(maxAttempts - 1, w)
      invariant forall i: nat | i < made :: attempt(i).Failure? && RetriesAfter(attempt(i).err)
      decreases maxAttempts - attemptNo
    {
      if cancelAt <= checks { return ContextDone, made, waited; }
      var result := attempt(made);
      made := made + 1;
      if result.Success? { return Returned(result.value), made, waited; }
      if cancelAt <= checks + 1 { return ContextDone, made, waited; }
      if result.err.Network? {
        if attemptNo == maxAttempts { return GaveUp(result.err), made, waited; }
      } else {
        if AsS2(result.err).None? { return GaveUp(result.err), made, waited; }
        if attemptNo == maxAttempts {
          if cancelAt <= checks + 2 { return ContextDone, made, waited; }
          return GaveUp(result.err), made, waited;
        }
        if !IsRetryableErr(result.err) { return GaveUp(Api(AsS2(result.err).value)), made, waited; }
      }
      var delay := RetryBackoff(config.minBase, config.maxBase, attemptNo, random(attemptNo));
      DelayBounded(config, attemptNo, random(attemptNo));
      if cancelAt <= checks + 2 { return ContextDone, made, waited; }
      waited := waited + Waited(delay);
      attemptNo, checks := attemptNo + 1, checks + 3;
    }
  }

  /** The unary append loop: a reported failure claims "no side effects" exactly when every
      attempt that was made failed without side effects. */
  method WithAppendRetries(config: RetryConfig, attempt: nat -> Attempt, random: nat -> nat, cancelAt: nat)
    returns (r: Outcome, made: nat, waited: nat)
    ensures made <= Budget(config)
    ensures r.Returned? ==> made >= 1 && attempt(made - 1) == Success(r.value) && AllFailed(attempt, made - 1)
    ensures r.GaveUp? ==> made >= 1 && AllFailed(attempt, made) && AsS2(r.err) == AsS2(attempt(made - 1).err)
    ensures r.GaveUp? ==> made == Budget(config) || !AppendRetriesAfter(config, attempt(made - 1).err)
    ensures r.GaveUp? && (forall i: nat | i < made :: !IsIndefinite(attempt(i).err)) ==>
              (HasNoSideEffects(r.err) <==> forall i: nat | i < made :: HasNoSideEffects(attempt(i).err))
    ensures forall i: nat | i + 1 < made :: attempt(i).Failure? && AppendRetriesAfter(config, attempt(i).err)
    ensures r.ContextDone? ==> cancelAt <= 3 * made
    ensures !r.ContextDone? ==> made >= 1 && waited == TotalWait(config, random, made - 1)
    ensures r.ContextDone? ==> waited == TotalWait(config, random, made) || (made >= 1 && waited == TotalWait(config, random, made - 1))
  {
    hide RetryBackoff, Waited;
    var maxAttempts := Budget(config);
    var priorUncertainty := false;
    var attemptNo, checks := 1, 0;
    made, waited := 0, 0;
    r := ContextDone;
    while attemptNo <= maxAttempts
      invariant 1 <= attemptNo <= maxAttempts && made == attemptNo - 1
      invariant checks == 3 * made && waited == TotalWait(config, random, made)
      invariant forall i: nat | i < made :: attempt(i).Failure? && AppendRetriesAfter(config, attempt(i).err)
      invariant priorUncertainty <==> exists i: nat :: i < made && !HasNoSideEffects(attempt(i).err)
      decreases maxAttempts - attemptNo
    {
      if cancelAt <= checks { return ContextDone, made, waited; }
      var result := attempt(made);
      made := made + 1;
      if result.Success? { return Returned(result.value), made, waited; }
      if cancelAt <= checks + 1 { return ContextDone, made, waited; }
      PriorUncertaintyDecides(result.err, priorUncertainty);
      if result.err.Network? {
        if attemptNo == maxAttempts || config.onlyNoSideEffects {
          if cancelAt <= checks + 2 { return ContextDone, made, waited; }
          return GaveUp(WithPriorUncertainty(result.err, priorUncertainty)), made, waited;
        }
        priorUncertainty := true;
      } else {
        if attemptNo == maxAttempts || !AppendRetriesAfter(config, result.err) {
          return GaveUp(WithPriorUncertainty(result.err, priorUncertainty)), made, waited;
        }
        if !HasNoSideEffects(result.err) { priorUncertainty := true; }
      }
      var delay := RetryBackoff(config.minBase, config.maxBase, attemptNo, random(attemptNo));
      if cancelAt <= checks + 2 { return ContextDone, made, waited; }
      waited := waited + Waited(delay);
      attemptNo, checks := attemptNo + 1, checks + 3;
    }
  }

  /** Under the noSideEffects policy the unary loop only ever repeats a clean failure. */
  lemma PolicyRepeatsOnlyCleanFailures(config: RetryConfig, e: Err)
    requires config.onlyNoSideEffects && AppendRetriesAfter(config, e)
    ensures AsS2(e).Some? && AsS2(e).value.origin == FromServer
    ensures AsS2(e).value.code in {HotServer, RateLimited, ServerDraining, TransactionConflict}
  {
    RetryableWithoutSideEffects(AsS2(e).value);
  }
}
