/**
 * The publisher's retry delay: exponential backoff in saturating 64-bit milliseconds, jittered between the
 * base and the cap, then rounded up to whole seconds. Durations are nanoseconds.
 */
module Retry {
  import opened Foundation

  const NANOS_PER_MILLI: nat := 1_000_000
  const NANOS_PER_SECOND: nat := 1_000_000_000
  const MAX_RETRY_NANOS: nat := 300 * NANOS_PER_SECOND
  const MAX_RETRY_DELAY_SECONDS: nat := 86_400

  datatype RetryError = Configuration

  // ---- Settings -------------------------------------------------------------------------------

  datatype PublisherSettings = PublisherSettings(
    pollInterval: nat,
    claimBatchSize: nat,
    leaseSeconds: nat,
    concurrency: nat,
    retryBase: nat,
    retryMax: nat)
  {
    predicate Valid() {
      && pollInterval > 0 && 1 <= concurrency <= 128
      && 0 < retryBase <= retryMax <= MAX_RETRY_NANOS
      && 1 <= claimBatchSize <= 500 && 1 <= leaseSeconds <= 300
    }
  }

  /** `PublisherSettings::new`; the lease duration arrives in nanoseconds and must be whole seconds. */
  function NewPublisherSettings(pollInterval: nat, claimBatchSize: nat, lease: nat, concurrency: nat, retryBase: nat,
    retryMax: nat):
    (r: Result<PublisherSettings, RetryError>)
    ensures r.Success? <==> exists seconds: nat ::
      lease == seconds * NANOS_PER_SECOND
      && PublisherSettings(pollInterval, claimBatchSize, seconds, concurrency, retryBase, retryMax).Valid()
    ensures r.Success? ==> r.value.Valid() && lease == r.value.leaseSeconds * NANOS_PER_SECOND
    ensures r.Success? ==>
      r.value == PublisherSettings(pollInterval, claimBatchSize, r.value.leaseSeconds, concurrency, retryBase, retryMax)
  {
    if pollInterval == 0 || !(1 <= concurrency <= 128) || retryBase == 0 || retryMax < retryBase || retryMax > MAX_RETRY_NANOS then
      Failure(Configuration)
    else if !(1 <= claimBatchSize <= 500) then Failure(Configuration)
    else if lease % NANOS_PER_SECOND != 0 || !(1 <= lease / NANOS_PER_SECOND <= 300) then Failure(Configuration)
    else
      Success(PublisherSettings(pollInterval, claimBatchSize, lease / NANOS_PER_SECOND, concurrency, retryBase, retryMax))
  }

  // ---- Saturating arithmetic ------------------------------------------------------------------

  function Saturate(n: int): nat { if n < 0 then 0 else if n > U64_MAX then U64_MAX else n }

  function Pow2(e: nat): (p: nat)
    ensures p >= 1
  { if e == 0 then 1 else 2 * Pow2(e - 1) }

  /** `1_u64.checked_shl(exponent).unwrap_or(u64::MAX)`: only the shift count is checked. */
  function ShiftedOne(exponent: nat): nat {
    if exponent < 64 then Pow2(exponent) % (U64_MAX + 1) else U64_MAX
  }

  function Exponent(attempts: nat): nat { Min(Saturate(attempts - 1), 63) }

  function CapMillis(attempts: nat, baseMillis: nat, maximumMillis: nat): nat {
    Min(Saturate(baseMillis * ShiftedOne(Exponent(attempts))), maximumMillis)
  }

  /** The delay between base and cap that the entropy picks, or the base when there is no entropy. */
  function JitteredMillis(baseMillis: nat, cap: nat, entropy: Option<nat>): nat {
    match entropy
    case None => baseMillis
    case Some(bits) =>
      var span := Saturate(Saturate(cap - baseMillis) + 1);
      Saturate(baseMillis + bits % span)
  }

  function NewRetryDelay(seconds: nat): Result<nat, RetryError> {
    if seconds > MAX_RETRY_DELAY_SECONDS then Failure(Configuration) else Success(seconds)
  }

  /** `plan_retry_delay`, in whole seconds. */
  function PlanRetryDelay(attempts: nat, base: nat, maximum: nat, entropy: Option<nat>): Result<nat, RetryError> {
    var baseMillis := Saturate(base / NANOS_PER_MILLI);
    var maximumMillis := Saturate(maximum / NANOS_PER_MILLI);
    if baseMillis == 0 || maximumMillis < baseMillis then Failure(Configuration)
    else
      var cap := CapMillis(attempts, baseMillis, maximumMillis);
      NewRetryDelay(Saturate(JitteredMillis(baseMillis, cap, entropy) + 999) / 1000)
  }

  // ---- What the arithmetic means --------------------------------------------------------------

  lemma {:induction false} Pow2Monotone(a: nat, b: nat)
    requires a <= b
    ensures Pow2(a) <= Pow2(b)
  {
    if a < b { Pow2Monotone(a, b - 1); }
  }

  lemma ShiftIsExact(exponent: nat)
    requires exponent <= 63
    ensures ShiftedOne(exponent) == Pow2(exponent)
  {
    Pow2Monotone(exponent, 63);
    LargestShift();
    RemainderBounds(Pow2(exponent), U64_MAX + 1);
  }

  lemma LargestShift()
    ensures Pow2(63) <= U64_MAX
  {
    assert Pow2(8) == 256;
    assert Pow2(16) == 65_536;
    assert Pow2(24) == 0x100_0000;
    assert Pow2(32) == 0x1_0000_0000;
    assert Pow2(40) == 0x100_0000_0000;
    assert Pow2(48) == 0x1_0000_0000_0000;
    assert Pow2(56) == 0x100_0000_0000_0000;
    assert Pow2(63) == 0x8000_0000_0000_0000;
  }

  /** Neither the saturation nor the shift ever shows: the cap is the exact exponential, cut at the maximum. */
  lemma CapIsExponential(attempts: nat, baseMillis: nat, maximumMillis: nat)
    requires attempts <= U64_MAX && maximumMillis <= U64_MAX
    ensures CapMillis(attempts, baseMillis, maximumMillis)
         == Min(maximumMillis, baseMillis * Pow2(Min(Max(attempts - 1, 0), 63)))
  {
    hide Pow2, ShiftedOne;
    ShiftIsExact(Exponent(attempts));
    var exact := baseMillis * Pow2(Exponent(attempts));
    assert exact >= 0;
  }

  /** The cap starts at the base, never falls as attempts go on, and doubles until it reaches the maximum. */
  lemma CapGrows(attempts: nat, later: nat, baseMillis: nat, maximumMillis: nat)
    requires attempts <= later <= U64_MAX && 1 <= baseMillis <= maximumMillis <= U64_MAX
    ensures baseMillis <= CapMillis(attempts, baseMillis, maximumMillis) <= CapMillis(later, baseMillis, maximumMillis)
    ensures 1 <= attempts < 64 ==>
      CapMillis(attempts + 1, baseMillis, maximumMillis) == Min(maximumMillis, 2 * CapMillis(attempts, baseMillis, maximumMillis))
    ensures CapMillis(later, baseMillis, maximumMillis) <= maximumMillis
  {
    hide CapMillis, Pow2;
    CapIsExponential(attempts, baseMillis, maximumMillis);
    CapIsExponential(later, baseMillis, maximumMillis);
    var (a, b) := (Min(Max(attempts - 1, 0), 63), Min(Max(later - 1, 0), 63));
    Pow2Monotone(a, b);
    ScaledOrder(baseMillis, 1, Pow2(a));
    ScaledOrder(baseMillis, Pow2(a), Pow2(b));
    if 1 <= attempts < 64 {
      CapIsExponential(attempts + 1, baseMillis, maximumMillis);
      DoubledPower(baseMillis, attempts);
    }
  }

  lemma DoubledPower(n: nat, e: nat)
    requires e >= 1
    ensures n * Pow2(e) == 2 * (n * Pow2(e - 1))
  {
  }

  lemma ScaledOrder(n: nat, a: nat, b: nat)
    requires a <= b
    ensures n * a <= n * b
  {
  }

  /** From the sixty-fourth attempt on, and for any base, the cap is the maximum. */
  lemma CapReachesMaximum(attempts: nat, baseMillis: nat, maximumMillis: nat)
    requires 64 <= attempts <= U64_MAX && 1 <= baseMillis && maximumMillis <= MAX_RETRY_NANOS / NANOS_PER_MILLI
    ensures CapMillis(attempts, baseMillis, maximumMillis) == maximumMillis
  {
    hide CapMillis;
    CapIsExponential(attempts, baseMillis, maximumMillis);
    assert Pow2(10) == 1024;
    assert Pow2(20) == 1_048_576;
    Pow2Monotone(20, 63);
    ScaledOrder(Pow2(63), 1, baseMillis);
  }

  /** Milliseconds rounded up to whole seconds. */
  function CeilSeconds(millis: nat): (seconds: nat)
    ensures 1000 * (seconds - 1) < millis <= 1000 * seconds
  { (millis + 999) / 1000 }

  lemma RemainderBounds(n: nat, d: nat)
    requires d >= 1
    ensures 0 <= n % d < d && (n < d ==> n % d == n)
  {
  }

  /** The jitter stays between base and cap, whatever the entropy, and every point between is reached. */
  lemma JitterSpansTheRange(baseMillis: nat, cap: nat, entropy: Option<nat>, wanted: nat)
    requires 1 <= baseMillis <= wanted <= cap <= MAX_RETRY_NANOS / NANOS_PER_MILLI
    ensures baseMillis <= JitteredMillis(baseMillis, cap, entropy) <= cap
    ensures JitteredMillis(baseMillis, cap, Some(wanted - baseMillis)) == wanted
  {
    var span := cap - baseMillis + 1;
    if entropy.Some? { RemainderBounds(entropy.value, span); }
    RemainderBounds(wanted - baseMillis, span);
  }

  /** The cap on the delay of an attempt: the base doubled per earlier attempt, up to the maximum. */
  function ExactCap(attempts: nat, baseMillis: nat, maximumMillis: nat): nat {
    Min(maximumMillis, baseMillis * Pow2(Min(Max(attempts - 1, 0), 63)))
  }

  /**
   * The planned delay for every attempt count and all entropy: without entropy the base, and otherwise the
   * point between the base and the exact cap that the entropy picks, rounded up to seconds.
   */
  lemma PlannedDelay(attempts: nat, base: nat, maximum: nat, entropy: Option<nat>)
    requires attempts <= U64_MAX && NANOS_PER_MILLI <= base <= maximum <= MAX_RETRY_NANOS
    ensures var (b, cap) := (base / NANOS_PER_MILLI, ExactCap(attempts, base / NANOS_PER_MILLI, maximum / NANOS_PER_MILLI));
      && b <= cap <= maximum / NANOS_PER_MILLI
      && PlanRetryDelay(attempts, base, maximum, entropy) ==
        Success(CeilSeconds(match entropy case None => b case Some(bits) => b + bits % (cap - b + 1)))
  {
    hide Pow2, CapMillis, JitteredMillis;
    var (b, m) := (base / NANOS_PER_MILLI, maximum / NANOS_PER_MILLI);
    var cap := ExactCap(attempts, b, m);
    MillisInOrder(base, maximum);
    CapIsExponential(attempts, b, m);
    CapGrows(attempts, attempts, b, m);
    JitterPicks(b, cap, entropy);
  }

  lemma MillisInOrder(a: nat, b: nat)
    requires NANOS_PER_MILLI <= a <= b
    ensures 1 <= a / NANOS_PER_MILLI <= b / NANOS_PER_MILLI
  {
  }

  lemma JitterPicks(baseMillis: nat, cap: nat, entropy: Option<nat>)
    requires 1 <= baseMillis <= cap <= MAX_RETRY_NANOS / NANOS_PER_MILLI
    ensures JitteredMillis(baseMillis, cap, entropy)
         == match entropy case None => baseMillis case Some(bits) => baseMillis + bits % (cap - baseMillis + 1)
    ensures baseMillis <= JitteredMillis(baseMillis, cap, entropy) <= cap
  {
    if entropy.Some? { RemainderBounds(entropy.value, cap - baseMillis + 1); }
  }

  /** Every whole number of milliseconds between the base and the cap is the delay under some entropy. */
  lemma EveryDelayIsPlanned(attempts: nat, base: nat, maximum: nat, wanted: nat)
    requires attempts <= U64_MAX && NANOS_PER_MILLI <= base <= maximum <= MAX_RETRY_NANOS
    requires base / NANOS_PER_MILLI <= wanted <= ExactCap(attempts, base / NANOS_PER_MILLI, maximum / NANOS_PER_MILLI)
    ensures PlanRetryDelay(attempts, base, maximum, Some(wanted - base / NANOS_PER_MILLI)) == Success(CeilSeconds(wanted))
  {
    hide PlanRetryDelay, ExactCap;
    var b := base / NANOS_PER_MILLI;
    PlannedDelay(attempts, base, maximum, Some(wanted - b));
    RemainderBounds(wanted - b, ExactCap(attempts, b, maximum / NANOS_PER_MILLI) - b + 1);
  }

  /**
   * Settings that the constructor accepts plan every retry, within the bounds in seconds, exactly when the
   * base is at least one millisecond; below that every retry fails, whatever the attempt or the entropy.
   */
  lemma RetryPlansIffBaseIsAMillisecond(s: PublisherSettings, attempts: nat, entropy: Option<nat>)
    requires s.Valid() && attempts <= U64_MAX
    ensures PlanRetryDelay(attempts, s.retryBase, s.retryMax, entropy).Success? <==> s.retryBase >= NANOS_PER_MILLI
    ensures s.retryBase >= NANOS_PER_MILLI ==>
      var (base, maximum) := (s.retryBase / NANOS_PER_MILLI, s.retryMax / NANOS_PER_MILLI);
      var delay := PlanRetryDelay(attempts, s.retryBase, s.retryMax, entropy).value;
      CeilSeconds(base) <= delay <= CeilSeconds(CapMillis(attempts, base, maximum)) <= 300
  {
    var (base, maximum) := (s.retryBase / NANOS_PER_MILLI, s.retryMax / NANOS_PER_MILLI);
    if base >= 1 {
      CapGrows(attempts, attempts, base, maximum);
      var cap := CapMillis(attempts, base, maximum);
      JitterSpansTheRange(base, cap, entropy, base);
    }
  }

  /** A base of half a millisecond is accepted and then fails every retry. */
  lemma SubMillisecondBaseNeverRetries()
    ensures var settings := NewPublisherSettings(1, 1, NANOS_PER_SECOND, 1, 500_000, NANOS_PER_SECOND);
      && settings.Success?
      && forall attempts: nat, entropy | attempts <= U64_MAX ::
        PlanRetryDelay(attempts, settings.value.retryBase, settings.value.retryMax, entropy) == Failure(Configuration)
  {
    var settings := NewPublisherSettings(1, 1, NANOS_PER_SECOND, 1, 500_000, NANOS_PER_SECOND);
    forall attempts: nat, entropy | attempts <= U64_MAX
      ensures PlanRetryDelay(attempts, settings.value.retryBase, settings.value.retryMax, entropy) == Failure(Configuration)
    {
      RetryPlansIffBaseIsAMillisecond(settings.value, attempts, entropy);
    }
  }
}
