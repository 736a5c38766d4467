/**
 * The retry engine: exception classes and the subclass test, the retry configuration with its
 * defaults and presets, the backoff delay, and the attempt loop of `execute_with_retry`.
 */
module RetryHandler {
  import opened Wrappers

  /** The exception classes the notification path raises or catches; `Derived` is any other subclass. */
  datatype ExcClass =
    | ExceptionC
    | OSErrorC
    | ConnectionErrorC
    | TimeoutErrorC
    | TypeErrorC
    | ValueErrorC
    | RetryableErrorC
    | NetworkErrorC
    | TemporaryErrorC
    | Derived(name: string, base: ExcClass)

  /** Depth below `Exception` in the class tree. */
  function Rank(c: ExcClass): nat {
    match c
    case ExceptionC => 0
    case OSErrorC => 1
    case ConnectionErrorC => 2
    case TimeoutErrorC => 2
    case TypeErrorC => 1
    case ValueErrorC => 1
    case RetryableErrorC => 1
    case NetworkErrorC => 2
    case TemporaryErrorC => 2
    case Derived(_, b) => Rank(b) + 1
  }

  /** The direct base class; `Exception` is the root of the model. */
  function Parent(c: ExcClass): (p: Option<ExcClass>)
    ensures p.None? <==> c == ExceptionC
    ensures p.Some? ==> Rank(p.value) + 1 == Rank(c)
  {
    match c
    case ExceptionC => None
    case OSErrorC => Some(ExceptionC)
    case ConnectionErrorC => Some(OSErrorC)
    case TimeoutErrorC => Some(OSErrorC)
    case TypeErrorC => Some(ExceptionC)
    case ValueErrorC => Some(ExceptionC)
    case RetryableErrorC => Some(ExceptionC)
    case NetworkErrorC => Some(RetryableErrorC)
    case TemporaryErrorC => Some(RetryableErrorC)
    case Derived(_, b) => Some(b)
  }

  /** `issubclass(c, target)`. */
  function IsSubclass(c: ExcClass, target: ExcClass): (r: bool)
    ensures c == target ==> r
    ensures r ==> Rank(target) <= Rank(c)
    ensures target == ExceptionC ==> r
    decreases Rank(c)
  {
    c == target || (Parent(c).Some? && IsSubclass(Parent(c).value, target))
  }

  /** `type(e).__name__`. */
  function Name(c: ExcClass): string {
    match c
    case ExceptionC => "Exception"
    case OSErrorC => "OSError"
    case ConnectionErrorC => "ConnectionError"
    case TimeoutErrorC => "TimeoutError"
    case TypeErrorC => "TypeError"
    case ValueErrorC => "ValueError"
    case RetryableErrorC => "RetryableError"
    case NetworkErrorC => "NetworkError"
    case TemporaryErrorC => "TemporaryError"
    case Derived(n, _) => n
  }

  /** An exception object: its class and `str(e)`. */
  datatype Exc = Exc(cls: ExcClass, msg: string)

  /** `isinstance(e, target)`. */
  predicate IsInstance(e: Exc, target: ExcClass) {
    IsSubclass(e.cls, target)
  }

  datatype RetryStrategy = Fixed | Linear | Exponential

  /** A `RetryConfig` after `__post_init__`. Seconds are reals: floating-point rounding is not modelled. */
  datatype RetryConfig = RetryConfig(
    maxAttempts: int,
    baseDelay: real,
    maxDelay: real,
    strategy: RetryStrategy,
    multiplier: real,
    jitter: bool,
    retryable: seq<ExcClass>)

  const DefaultRetryable: seq<ExcClass> :=
    [RetryableErrorC, NetworkErrorC, TemporaryErrorC, ConnectionErrorC, TimeoutErrorC]

  /** The dataclass constructor with `__post_init__`: only a missing list (not an empty one) is replaced. */
  function NewRetryConfig(
    maxAttempts: int, baseDelay: real, maxDelay: real, strategy: RetryStrategy,
    multiplier: real, jitter: bool, retryable: Option<seq<ExcClass>>): (cfg: RetryConfig)
    ensures retryable.None? ==> cfg.retryable == DefaultRetryable
    ensures retryable.Some? ==> cfg.retryable == retryable.value
    ensures cfg.maxAttempts == maxAttempts && cfg.baseDelay == baseDelay && cfg.maxDelay == maxDelay
    ensures cfg.strategy == strategy && cfg.multiplier == multiplier && cfg.jitter == jitter
  {
    RetryConfig(maxAttempts, baseDelay, maxDelay, strategy, multiplier, jitter,
      if retryable.None? then DefaultRetryable else retryable.value)
  }

  /** `RetryConfig()` with every field at its default. */
  const DefaultConfig: RetryConfig := NewRetryConfig(3, 1.0, 60.0, Exponential, 2.0, true, None)

  const NetworkRetryConfig: RetryConfig :=
    NewRetryConfig(3, 1.0, 30.0, Exponential, 2.0, true, Some([NetworkErrorC, ConnectionErrorC, TimeoutErrorC]))

  const NotificationRetryConfig: RetryConfig :=
    NewRetryConfig(2, 0.5, 10.0, Exponential, 2.0, true, Some([RetryableErrorC, NetworkErrorC, TemporaryErrorC]))

  /** `RetryHandler(config)`: `config or RetryConfig()`; a dataclass instance is always truthy. */
  function HandlerConfig(config: Option<RetryConfig>): (cfg: RetryConfig)
    ensures config.Some? ==> cfg == config.value
    ensures config.None? ==> cfg.maxAttempts == 3 && cfg.retryable == DefaultRetryable
  {
    if config.Some? then config.value else DefaultConfig
  }

  /** `_is_retryable_exception`: the exception is an instance of some listed class. */
  predicate IsRetryableException(cfg: RetryConfig, e: Exc) {
    exists i :: 0 <= i < |cfg.retryable| && IsInstance(e, cfg.retryable[i])
  }

  /** Under the default list every `RetryableError`, `ConnectionError` or `TimeoutError` is retried. */
  lemma DefaultRetriesItsClasses(e: Exc)
    ensures IsRetryableException(DefaultConfig, e) <==>
      IsInstance(e, RetryableErrorC) || IsInstance(e, ConnectionErrorC) || IsInstance(e, TimeoutErrorC)
  {
    var l := DefaultConfig.retryable;
    if IsRetryableException(DefaultConfig, e) {
      var i :| 0 <= i < |l| && IsInstance(e, l[i]);
      if i == 1 || i == 2 {
        NetworkAndTemporaryAreRetryable(e.cls);
      }
    } else {
      assert !IsInstance(e, l[0]) && !IsInstance(e, l[3]) && !IsInstance(e, l[4]);
    }
  }

  lemma {:induction false} NetworkAndTemporaryAreRetryable(c: ExcClass)
    ensures IsSubclass(c, NetworkErrorC) ==> IsSubclass(c, RetryableErrorC)
    ensures IsSubclass(c, TemporaryErrorC) ==> IsSubclass(c, RetryableErrorC)
    decreases Rank(c)
  {
    if c != NetworkErrorC && c != TemporaryErrorC && Parent(c).Some? {
      NetworkAndTemporaryAreRetryable(Parent(c).value);
    }
  }

  /** A plain `OSError`, `TypeError` or `ValueError` is never retried under the default list. */
  lemma DefaultDoesNotRetryOthers(msg: string)
    ensures !IsRetryableException(DefaultConfig, Exc(OSErrorC, msg))
    ensures !IsRetryableException(DefaultConfig, Exc(TypeErrorC, msg))
    ensures !IsRetryableException(DefaultConfig, Exc(ValueErrorC, msg))
    ensures !IsRetryableException(DefaultConfig, Exc(ExceptionC, msg))
  {
  }

  /** The presets drop classes: the network preset does not retry `TemporaryError`, the notification preset not `ConnectionError`. */
  lemma PresetsDropClasses(msg: string)
    ensures !IsRetryableException(NetworkRetryConfig, Exc(TemporaryErrorC, msg))
    ensures IsRetryableException(NetworkRetryConfig, Exc(NetworkErrorC, msg))
    ensures !IsRetryableException(NotificationRetryConfig, Exc(ConnectionErrorC, msg))
    ensures IsRetryableException(NotificationRetryConfig, Exc(TemporaryErrorC, msg))
  {
    assert IsInstance(Exc(NetworkErrorC, msg), NetworkRetryConfig.retryable[0]);
    assert IsInstance(Exc(TemporaryErrorC, msg), NotificationRetryConfig.retryable[0]);
  }

  function Power(x: real, n: nat): real {
    if n == 0 then 1.0 else x * Power(x, n - 1)
  }

  /** The delay the strategy gives for an attempt, before the clamp and the jitter. */
  function RawDelay(cfg: RetryConfig, attempt: nat): real
    requires attempt >= 1
  {
    match cfg.strategy
    case Fixed => cfg.baseDelay
    case Linear => cfg.baseDelay * (attempt as real)
    case Exponential => cfg.baseDelay * Power(cfg.multiplier, attempt - 1)
  }

  /** Exponential backoff multiplies the delay by the multiplier from one attempt to the next. */
  lemma ExponentialStep(cfg: RetryConfig, attempt: nat)
    requires attempt >= 1 && cfg.strategy == Exponential
    ensures RawDelay(cfg, attempt + 1) == cfg.multiplier * RawDelay(cfg, attempt)
  {
  }

  /** Linear backoff adds the base delay from one attempt to the next. */
  lemma LinearStep(cfg: RetryConfig, attempt: nat)
    requires attempt >= 1 && cfg.strategy == Linear
    ensures RawDelay(cfg, attempt + 1) == RawDelay(cfg, attempt) + cfg.baseDelay
  {
  }

  /** With a non-negative base and a multiplier of at least one the raw delay never shrinks. */
  lemma {:induction false} RawDelayMonotone(cfg: RetryConfig, attempt: nat)
    requires attempt >= 1 && cfg.baseDelay >= 0.0 && cfg.multiplier >= 1.0
    ensures RawDelay(cfg, attempt) <= RawDelay(cfg, attempt + 1)
    ensures RawDelay(cfg, attempt) >= 0.0
  {
    match cfg.strategy
    case Fixed =>
    case Linear =>
    case Exponential =>
      PowerAtLeastOne(cfg.multiplier, attempt - 1);
      assert RawDelay(cfg, attempt + 1) == cfg.baseDelay * (cfg.multiplier * Power(cfg.multiplier, attempt - 1));
  }

  lemma {:induction false} PowerAtLeastOne(x: real, n: nat)
    requires x >= 1.0
    ensures Power(x, n) >= 1.0
  {
    if n > 0 {
      PowerAtLeastOne(x, n - 1);
    }
  }

  /**
   * `c + random.uniform(-c/10, c/10)` floored at zero, with the draw written `-j + 2j * r`:
   * the delay moves by at most ten percent and never goes below zero.
   */
  function Jitter(c: real, r: real): (d: real)
    requires 0.0 <= r <= 1.0
    ensures d >= 0.0
    ensures c >= 0.0 ==> 0.9 * c <= d <= 1.1 * c
    ensures c <= 0.0 ==> d == 0.0
    ensures r == 0.5 ==> d == (if c >= 0.0 then c else 0.0)
  {
    var range := c * 0.1;
    var moved := c + (-range + 2.0 * range * r);
    JitterFactor(c, r);
    if moved >= 0.0 then moved else 0.0
  }

  lemma JitterFactor(c: real, r: real)
    requires 0.0 <= r <= 1.0
    ensures c >= 0.0 ==> 0.9 * c <= c + (-(c * 0.1) + 2.0 * (c * 0.1) * r) <= 1.1 * c
    ensures c <= 0.0 ==> c + (-(c * 0.1) + 2.0 * (c * 0.1) * r) <= 0.0
    ensures r == 0.5 ==> c + (-(c * 0.1) + 2.0 * (c * 0.1) * r) == c
  {
    assert c + (-(c * 0.1) + 2.0 * (c * 0.1) * r) == 0.9 * c + 0.2 * (c * r);
    if c >= 0.0 {
      assert 0.0 <= c * r <= c;
    } else {
      assert c <= c * r <= 0.0;
    }
  }

  /**
   * `_calculate_delay(attempt)` with `random.uniform` drawn as `-j + 2j * r` for `r` in [0, 1]:
   * the strategy's delay is clamped to `max_delay`, then moved by at most ten percent and
   * floored at zero.
   */
  function CalculateDelay(cfg: RetryConfig, attempt: nat, r: real): (d: real)
    requires attempt >= 1 && 0.0 <= r <= 1.0
    ensures !cfg.jitter ==> d <= cfg.maxDelay && d <= RawDelay(cfg, attempt)
    ensures !cfg.jitter ==> d == cfg.maxDelay || d == RawDelay(cfg, attempt)
    ensures cfg.jitter ==> d >= 0.0
    ensures cfg.jitter && cfg.maxDelay >= 0.0 ==> d <= 1.1 * cfg.maxDelay
    ensures cfg.jitter && 0.0 <= RawDelay(cfg, attempt) <= cfg.maxDelay ==>
      0.9 * RawDelay(cfg, attempt) <= d <= 1.1 * RawDelay(cfg, attempt)
    ensures cfg.jitter && cfg.maxDelay >= 0.0 && RawDelay(cfg, attempt) >= cfg.maxDelay ==>
      0.9 * cfg.maxDelay <= d <= 1.1 * cfg.maxDelay
    ensures cfg.jitter && r == 0.5 && RawDelay(cfg, attempt) >= 0.0 && cfg.maxDelay >= 0.0 ==>
      d == (if RawDelay(cfg, attempt) <= cfg.maxDelay then RawDelay(cfg, attempt) else cfg.maxDelay)
  {
    var raw := RawDelay(cfg, attempt);
    var clamped := if raw <= cfg.maxDelay then raw else cfg.maxDelay;
    if cfg.jitter then Jitter(clamped, r) else clamped
  }

  /** The result of calling the retried function: a value or an exception. */
  datatype Outcome<T> = Returned(value: T) | Raised(exc: Exc)

  /** What `raise None` raises after a loop that never ran. */
  const RaiseNoneError: Exc := Exc(TypeErrorC, "exceptions must derive from BaseException")

  /** What `time.sleep` raises for a negative delay. */
  const NegativeSleepError: Exc := Exc(ValueErrorC, "sleep length must be non-negative")

  /** Whether `time.sleep` rejects the delay before the next attempt; a jittered delay is never negative. */
  predicate SleepFails(cfg: RetryConfig, attempt: nat)
    requires attempt >= 1
  {
    !cfg.jitter && CalculateDelay(cfg, attempt, 0.0) < 0.0
  }

  /** The jittered delay does not depend on whether `time.sleep` accepts it. */
  lemma SleepFailsAnyNoise(cfg: RetryConfig, attempt: nat, r: real)
    requires attempt >= 1 && 0.0 <= r <= 1.0
    ensures SleepFails(cfg, attempt) <==> CalculateDelay(cfg, attempt, r) < 0.0
  {
  }

  /**
   * The attempts from `attempt` on, when call `k` of the function has outcome `op(k)`.
   * Returns the outcome and the number of calls made in all.
   */
  function RetryFrom<T>(cfg: RetryConfig, op: nat -> Outcome<T>, attempt: nat): (res: (Outcome<T>, nat))
    requires 1 <= attempt <= cfg.maxAttempts
    ensures attempt <= res.1 <= cfg.maxAttempts
    ensures forall k :: attempt <= k < res.1 ==>
      op(k).Raised? && IsRetryableException(cfg, op(k).exc) && !SleepFails(cfg, k)
    ensures op(res.1).Returned? ==> res.0 == op(res.1)
    ensures op(res.1).Raised? && (!IsRetryableException(cfg, op(res.1).exc) || res.1 == cfg.maxAttempts) ==>
      res.0 == op(res.1)
    ensures op(res.1).Raised? && IsRetryableException(cfg, op(res.1).exc) && res.1 < cfg.maxAttempts ==>
      SleepFails(cfg, res.1) && res.0 == Raised(NegativeSleepError)
    decreases cfg.maxAttempts - attempt
  {
    match op(attempt)
    case Returned(v) => (Returned(v), attempt)
    case Raised(e) =>
      if !IsRetryableException(cfg, e) then (Raised(e), attempt)
      else if attempt == cfg.maxAttempts then (Raised(e), attempt)
      else if SleepFails(cfg, attempt) then (Raised(NegativeSleepError), attempt)
      else RetryFrom(cfg, op, attempt + 1)
  }

  /** `execute_with_retry` as a function of the call outcomes: the final outcome and the number of calls. */
  function Retry<T>(cfg: RetryConfig, op: nat -> Outcome<T>): (res: (Outcome<T>, nat))
    ensures cfg.maxAttempts < 1 ==> res == (Raised(RaiseNoneError), 0)
    ensures cfg.maxAttempts >= 1 ==> 1 <= res.1 <= cfg.maxAttempts
  {
    if cfg.maxAttempts < 1 then (Raised(RaiseNoneError), 0) else RetryFrom(cfg, op, 1)
  }

  /** Call `k` ends the loop: it returned, raised something not retried, was the last, or its sleep failed. */
  predicate Stops<T>(cfg: RetryConfig, op: nat -> Outcome<T>, k: nat)
    requires k >= 1
  {
    op(k).Returned? || !IsRetryableException(cfg, op(k).exc) || k == cfg.maxAttempts || SleepFails(cfg, k)
  }

  /** The loop makes exactly as many calls as it takes to reach the first call that stops it. */
  lemma {:induction false} RetryStopsAtFirstStop<T>(cfg: RetryConfig, op: nat -> Outcome<T>, k: nat)
    requires 1 <= k <= cfg.maxAttempts
    requires Stops(cfg, op, k)
    requires forall j :: 1 <= j < k ==> !Stops(cfg, op, j)
    ensures Retry(cfg, op).1 == k
    ensures op(k).Returned? ==> Retry(cfg, op).0 == op(k)
    ensures op(k).Raised? && !IsRetryableException(cfg, op(k).exc) ==> Retry(cfg, op).0 == op(k)
  {
    RetryFromStops(cfg, op, 1, k);
  }

  lemma {:induction false} RetryFromStops<T>(cfg: RetryConfig, op: nat -> Outcome<T>, a: nat, k: nat)
    requires 1 <= a <= k <= cfg.maxAttempts
    requires Stops(cfg, op, k)
    requires forall j :: a <= j < k ==> !Stops(cfg, op, j)
    ensures RetryFrom(cfg, op, a).1 == k
    decreases k - a
  {
    if a < k {
      assert !Stops(cfg, op, a);
      RetryFromStops(cfg, op, a + 1, k);
    }
  }

  /** The first attempt that returns is the result, whatever later calls would have done. */
  lemma SucceedsOnFirstCall<T>(cfg: RetryConfig, op: nat -> Outcome<T>, v: T)
    requires cfg.maxAttempts >= 1 && op(1) == Returned(v)
    ensures Retry(cfg, op) == (Returned(v), 1)
  {
  }

  /** When every call raises a retried exception and sleeping works, the last call's exception escapes. */
  lemma {:induction false} ExhaustedRaisesLast<T>(cfg: RetryConfig, op: nat -> Outcome<T>)
    requires cfg.maxAttempts >= 1
    requires forall k :: 1 <= k <= cfg.maxAttempts ==> op(k).Raised? && IsRetryableException(cfg, op(k).exc)
    requires cfg.jitter
    ensures Retry(cfg, op) == (op(cfg.maxAttempts), cfg.maxAttempts)
  {
    forall j | 1 <= j < cfg.maxAttempts ensures !Stops(cfg, op, j) {
      assert op(j).Raised? && IsRetryableException(cfg, op(j).exc);
    }
    RetryStopsAtFirstStop(cfg, op, cfg.maxAttempts);
    assert op(cfg.maxAttempts).Raised? && IsRetryableException(cfg, op(cfg.maxAttempts).exc);
  }

  /** The delays slept through before the calls that follow calls `1 .. n`. */
  function SleepTrace(cfg: RetryConfig, noise: nat -> real, n: nat): (s: seq<real>)
    requires forall k :: 0.0 <= noise(k) <= 1.0
    ensures |s| == n
    ensures forall i :: 0 <= i < n ==> s[i] == CalculateDelay(cfg, i + 1, noise(i + 1))
  {
    if n == 0 then [] else SleepTrace(cfg, noise, n - 1) + [CalculateDelay(cfg, n, noise(n))]
  }

  /**
   * `execute_with_retry`: calls the function until it returns, raises something not retried,
   * or the attempts run out, sleeping `_calculate_delay(attempt)` between calls; `noise(k)`
   * stands for the `random.random()` drawn after call `k`.
   */
  method ExecuteWithRetry<T>(cfg: RetryConfig, op: nat -> Outcome<T>, noise: nat -> real)
    returns (outcome: Outcome<T>, calls: nat, sleeps: seq<real>)
    requires forall k :: 0.0 <= noise(k) <= 1.0
    ensures (outcome, calls) == Retry(cfg, op)
    ensures calls >= 1 ==> sleeps == SleepTrace(cfg, noise, calls - 1)
    ensures calls == 0 ==> sleeps == []
    ensures forall i :: 0 <= i < |sleeps| ==> sleeps[i] >= 0.0
  {
    var last: Option<Exc> := None;
    var attempt := 1;
    calls := 0;
    sleeps := [];
    while attempt <= cfg.maxAttempts
      invariant 1 <= attempt
      invariant if cfg.maxAttempts >= 1 then attempt <= cfg.maxAttempts else attempt == 1
      invariant calls == attempt - 1 && (attempt == 1 <==> last.None?)
      invariant cfg.maxAttempts >= 1 ==> Retry(cfg, op) == RetryFrom(cfg, op, attempt)
      invariant sleeps == SleepTrace(cfg, noise, attempt - 1)
      invariant forall i :: 0 <= i < |sleeps| ==> sleeps[i] >= 0.0
      decreases cfg.maxAttempts - attempt
    {
      calls := attempt;
      match op(attempt)
      case Returned(v) =>
        outcome := Returned(v);
        return;
      case Raised(e) =>
        last := Some(e);
        if !IsRetryableException(cfg, e) {
          outcome := Raised(e);
          return;
        }
        if attempt == cfg.maxAttempts {
          assert RetryFrom(cfg, op, attempt) == (Raised(e), attempt);
          break;
        }
        var delay := CalculateDelay(cfg, attempt, noise(attempt));
        SleepFailsAnyNoise(cfg, attempt, noise(attempt));
        if delay < 0.0 {
          outcome := Raised(NegativeSleepError);
          return;
        }
        assert RetryFrom(cfg, op, attempt) == RetryFrom(cfg, op, attempt + 1);
        sleeps := sleeps + [delay];
        assert sleeps == SleepTrace(cfg, noise, attempt);
        attempt := attempt + 1;
    }
    outcome := if last.None? then Raised(RaiseNoneError) else Raised(last.value);
  }
}
