/** Retries with exponential backoff (retry/retry_manager.py, retry/exponential_backoff.py). */
module Retries {
  import opened Metrics

  function Power(factor: real, n: nat): real {
    if n == 0 then 1.0 else Power(factor, n - 1) * factor
  }

  /** Term n of the geometric sequence. */
  function Term(base: real, factor: real, n: nat): real {
    base * Power(factor, n)
  }

  lemma NextTerm(base: real, factor: real, n: nat)
    ensures Term(base, factor, n) * factor == Term(base, factor, n + 1)
    ensures Term(base, factor, 0) == base
  {
    Associate(base, Power(factor, n), factor);
    PowerStep(factor, n);
  }

  lemma PowerStep(factor: real, n: nat)
    ensures Power(factor, n + 1) == Power(factor, n) * factor
  {
  }

  lemma Associate(a: real, x: real, y: real)
    ensures (a * x) * y == a * (x * y)
  {
  }

  function Min(a: real, b: real): real {
    if b < a then b else a
  }

  function Capped(delay: real, maxDelay: Option<real>): real {
    if maxDelay.None? then delay else Min(delay, maxDelay.value)
  }

  /** The delays of the generator, one multiplication per round. */
  method ExponentialBackoffDelays(maxAttempts: int, base: real, factor: real, maxDelay: Option<real>)
    returns (delays: seq<real>)
    ensures |delays| == if maxAttempts < 0 then 0 else maxAttempts
    ensures forall k :: 0 <= k < |delays| ==> delays[k] == Capped(Term(base, factor, k), maxDelay)
  {
    hide Term, Capped;
    delays := [];
    var delay := base;
    NextTerm(base, factor, 0);
    while |delays| < maxAttempts
      invariant |delays| <= if maxAttempts < 0 then 0 else maxAttempts
      invariant delay == Term(base, factor, |delays|)
      invariant forall k :: 0 <= k < |delays| ==> delays[k] == Capped(Term(base, factor, k), maxDelay)
    {
      NextTerm(base, factor, |delays|);
      delays := delays + [Capped(delay, maxDelay)];
      delay := delay * factor;
    }
  }

  /** What one call of the wrapped function does; Fatal is an exception outside `retry_exceptions`. */
  datatype Outcome = Returned | Retryable | Fatal

  /** BadSleep is the error of a sleep asked to last a negative time. */
  datatype Verdict = Succeeded | Exhausted | Propagated | BadSleep

  datatype Policy = Policy(baseDelay: real, factor: real, maxDelay: real, jitter: bool)

  function PlainDelay(p: Policy, attempt: nat): real
    requires attempt >= 1
  {
    Min(p.maxDelay, Term(p.baseDelay, p.factor, attempt - 1))
  }

  /** `draw` is the random number behind the jitter, from 0 to below 1; the
      bounds below hold for 1 as well. */
  function ComputeDelay(p: Policy, attempt: nat, draw: real): real
    requires attempt >= 1
  {
    var delay := PlainDelay(p, attempt);
    if p.jitter then Jittered(delay, draw) else delay
  }

  /** random.uniform over an interval, from a random number. */
  function Uniform(low: real, width: real, draw: real): real {
    low + width * draw
  }

  function Jittered(delay: real, draw: real): real {
    var low := if delay * 0.8 > 0.0 then delay * 0.8 else 0.0;
    Uniform(low, delay * 1.2 - low, draw)
  }

  /** How a call of at most `bound` attempts ends. `outcomes(k)` is what call
      number k, from 0, would do; `draws(k)` the random number drawn after it
      fails. The loop ends with the first call that does not fail retryably,
      the last attempt, or a negative delay; without attempts nothing is called. */
  ghost predicate Ends(p: Policy, bound: int, outcomes: nat -> Outcome, draws: nat -> real,
                       verdict: Verdict, calls: nat, slept: seq<real>) {
    && (forall k: nat :: k < calls - 1 ==> outcomes(k).Retryable?)
    && (forall k :: 0 <= k < |slept| ==> slept[k] == ComputeDelay(p, k + 1, draws(k)) && slept[k] >= 0.0)
    && if bound <= 0 then calls == |slept| == 0 && verdict.Exhausted?
       else
         && 1 <= calls <= bound && |slept| == calls - 1
         && match outcomes(calls - 1)
            case Returned => verdict.Succeeded?
            case Fatal => verdict.Propagated?
            case Retryable =>
              if calls == bound then verdict.Exhausted?
              else verdict.BadSleep? && ComputeDelay(p, calls, draws(calls - 1)) < 0.0
  }

  class RetryManager {
    const policy: Policy
    var maxAttempts: int

    constructor (maxAttempts: int, baseDelay: real, factor: real, maxDelay: real, jitter: bool)
      ensures policy == Policy(baseDelay, factor, maxDelay, jitter)
      ensures this.maxAttempts == if maxAttempts < 1 then 1 else maxAttempts
    {
      policy := Policy(baseDelay, factor, maxDelay, jitter);
      this.maxAttempts := if maxAttempts < 1 then 1 else maxAttempts;
    }

    method Call(outcomes: nat -> Outcome, draws: nat -> real) returns (verdict: Verdict, calls: nat, slept: seq<real>)
      ensures Ends(policy, maxAttempts, outcomes, draws, verdict, calls, slept)
    {
      hide ComputeDelay;
      var attempt := 0;
      slept := [];
      while attempt < maxAttempts
        invariant |slept| == attempt
        invariant 0 < maxAttempts ==> attempt < maxAttempts
        invariant maxAttempts <= 0 ==> attempt == 0
        invariant forall k: nat :: k < attempt ==> outcomes(k).Retryable?
        invariant forall k :: 0 <= k < |slept| ==> slept[k] == ComputeDelay(policy, k + 1, draws(k)) && slept[k] >= 0.0
        decreases maxAttempts - attempt
      {
        match outcomes(attempt)
        case Returned => return Succeeded, attempt + 1, slept;
        case Fatal => return Propagated, attempt + 1, slept;
        case Retryable =>
          attempt := attempt + 1;
          if attempt >= maxAttempts { return Exhausted, attempt, slept; }
          var delay := ComputeDelay(policy, attempt, draws(attempt - 1));
          if delay < 0.0 { return BadSleep, attempt, slept; }
          slept := slept + [delay];
      }
      return Exhausted, attempt, slept;
    }

    /** A call through the decorator: its own number of attempts, if it was given
        one, even below 1, stands in for the manager's until the call is over. */
    method CallDecorated(attempts: Option<int>, outcomes: nat -> Outcome, draws: nat -> real)
      returns (verdict: Verdict, calls: nat, slept: seq<real>)
      modifies this
      ensures maxAttempts == old(maxAttempts)
      ensures var bound := if attempts.Some? then attempts.value else maxAttempts;
              Ends(policy, bound, outcomes, draws, verdict, calls, slept)
    {
      hide Ends;
      var before := maxAttempts;
      if attempts.Some? { maxAttempts := attempts.value; }
      verdict, calls, slept := Call(outcomes, draws);
      maxAttempts := before;
    }
  }

  /** With non-negative settings no sleep is refused. */
  lemma SleepNeverRefused(p: Policy, bound: int, outcomes: nat -> Outcome, draws: nat -> real,
                          verdict: Verdict, calls: nat, slept: seq<real>)
    requires p.baseDelay >= 0.0 && p.factor > 0.0 && p.maxDelay >= 0.0
    requires forall k: nat :: 0.0 <= draws(k) <= 1.0
    requires Ends(p, bound, outcomes, draws, verdict, calls, slept)
    ensures !verdict.BadSleep?
  {
    hide ComputeDelay;
    if verdict.BadSleep? { DelayBounds(p, calls, draws(calls - 1)); }
  }

  /** Without jitter the manager's delays are the generator's. */
  method DelaysAgree(p: Policy, n: nat) returns (delays: seq<real>)
    requires !p.jitter
    ensures |delays| == n
    ensures forall k :: 0 <= k < n ==> delays[k] == ComputeDelay(p, k + 1, 0.0)
  {
    delays := ExponentialBackoffDelays(n, p.baseDelay, p.factor, Some(p.maxDelay));
  }

  // ---------------------------------------------------------------------
  // How long a call can sleep
  // ---------------------------------------------------------------------

  function Total(xs: seq<real>): real {
    if xs == [] then 0.0 else Total(xs[..|xs| - 1]) + xs[|xs| - 1]
  }

  lemma Scale(draw: real, width: real)
    requires 0.0 <= draw <= 1.0 && width >= 0.0
    ensures 0.0 <= width * draw <= width
  {
    assert width * (1.0 - draw) >= 0.0;
  }

  lemma {:induction false} PowerPositive(factor: real, n: nat)
    requires factor > 0.0
    ensures Power(factor, n) > 0.0
  {
    if n > 0 { PowerPositive(factor, n - 1); }
  }

  lemma UniformBounds(low: real, width: real, draw: real)
    requires width >= 0.0 && 0.0 <= draw <= 1.0
    ensures low <= Uniform(low, width, draw) <= low + width
  {
    Scale(draw, width);
  }

  lemma JitterBounds(delay: real, draw: real)
    requires delay >= 0.0 && 0.0 <= draw <= 1.0
    ensures delay * 0.8 <= Jittered(delay, draw) <= delay * 1.2
  {
    hide Uniform;
    UniformBounds(delay * 0.8, delay * 1.2 - delay * 0.8, draw);
  }

  lemma DelayBounds(p: Policy, attempt: nat, draw: real)
    requires attempt >= 1 && p.baseDelay >= 0.0 && p.factor > 0.0 && p.maxDelay >= 0.0 && 0.0 <= draw <= 1.0
    ensures 0.0 <= PlainDelay(p, attempt)
    ensures PlainDelay(p, attempt) * 0.8 <= ComputeDelay(p, attempt, draw) <= PlainDelay(p, attempt) * 1.2
  {
    hide Jittered, Power;
    PowerPositive(p.factor, attempt - 1);
    NonNegative(p.baseDelay, Power(p.factor, attempt - 1));
    JitterBounds(PlainDelay(p, attempt), draw);
  }

  /** A draw never leaves the interval, whichever way round it runs. */
  lemma UniformBetween(low: real, width: real, draw: real)
    requires 0.0 <= draw <= 1.0
    ensures Uniform(low, width, draw) <= if width >= 0.0 then low + width else low
  {
    if width >= 0.0 { Scale(draw, width); } else { Scale(draw, -width); }
  }

  lemma UniformLow(low: real, width: real)
    ensures Uniform(low, width, 0.0) == low
  {
  }

  /** No draw yields more, and with a negative delay the lowest yields 0. */
  lemma JitterPeak(delay: real, draw: real)
    requires 0.0 <= draw <= 1.0
    ensures Jittered(delay, draw) <= if delay >= 0.0 then delay * 1.2 else 0.0
    ensures delay < 0.0 ==> Jittered(delay, 0.0) == 0.0
  {
    hide Uniform;
    var low := if delay * 0.8 > 0.0 then delay * 0.8 else 0.0;
    UniformBetween(low, delay * 1.2 - low, draw);
    UniformLow(low, delay * 1.2 - low);
  }

  /** A draw below 1 that puts the delay halfway between the cap and its peak. */
  lemma DrawAboveCap(delay: real, cap: real) returns (draw: real)
    requires 0.0 <= delay <= cap < 1.2 * delay
    ensures 0.0 <= draw < 1.0 && Jittered(delay, draw) > cap
  {
    var excess := 1.2 * delay - cap;
    var unused := excess / (0.8 * delay);
    var width := 0.4 * delay;
    draw := 1.0 - unused;
    Quotient(excess, 0.8 * delay);
    SplitProduct(width, unused);
    assert width * unused == excess / 2.0 by { Halve(delay, unused); }
  }

  lemma Quotient(a: real, b: real)
    requires 0.0 < a <= b
    ensures 0.0 < a / b <= 1.0 && (a / b) * b == a
  {
  }

  lemma SplitProduct(a: real, x: real)
    ensures a * (1.0 - x) == a - a * x
  {
  }

  lemma Halve(delay: real, x: real)
    ensures (0.4 * delay) * x == (x * (0.8 * delay)) / 2.0
  {
  }

  /** The draw spreads the delay over the whole interval: each value in it comes
      of exactly one draw. */
  lemma JitterCovers(p: Policy, attempt: nat, target: real) returns (draw: real)
    requires p.jitter && attempt >= 1 && PlainDelay(p, attempt) > 0.0
    requires 0.8 * PlainDelay(p, attempt) <= target < 1.2 * PlainDelay(p, attempt)
    ensures 0.0 <= draw < 1.0 && ComputeDelay(p, attempt, draw) == target
    ensures forall other :: ComputeDelay(p, attempt, other) == target ==> other == draw
  {
    hide PlainDelay;
    var delay := PlainDelay(p, attempt);
    var low, width := 0.8 * delay, 0.4 * delay;
    draw := (target - low) / width;
    Portion(target - low, width);
    forall other | ComputeDelay(p, attempt, other) == target
      ensures other == draw
    {
      SameFactor(width, other, draw);
    }
  }

  lemma Portion(a: real, b: real)
    requires 0.0 <= a < b
    ensures 0.0 <= a / b < 1.0 && b * (a / b) == a
  {
  }

  lemma SameFactor(a: real, x: real, y: real)
    requires a > 0.0 && a * x == a * y
    ensures x == y
  {
    assert a * (x - y) == 0.0;
  }

  /** Some draw makes the delay exceed the cap exactly when there is jitter, and
      a fifth more than the capped delay is above the cap or the cap is negative. */
  lemma CapExceededExactlyWhen(p: Policy, attempt: nat)
    requires attempt >= 1
    ensures (exists draw: real :: 0.0 <= draw < 1.0 && ComputeDelay(p, attempt, draw) > p.maxDelay)
       <==> p.jitter && (1.2 * PlainDelay(p, attempt) > p.maxDelay || p.maxDelay < 0.0)
  {
    hide Jittered, Term;
    var delay := PlainDelay(p, attempt);
    if draw: real :| 0.0 <= draw < 1.0 && ComputeDelay(p, attempt, draw) > p.maxDelay {
      JitterPeak(delay, draw);
    }
    if p.jitter && p.maxDelay < 0.0 {
      JitterPeak(delay, 0.0);
      assert ComputeDelay(p, attempt, 0.0) == 0.0;
    } else if p.jitter && 1.2 * delay > p.maxDelay {
      var draw := DrawAboveCap(delay, p.maxDelay);
      assert ComputeDelay(p, attempt, draw) > p.maxDelay;
    }
  }

  /** It happens: with base 0.25, factor 2 and cap 1, a draw of 0.9 makes the third delay 1.16. */
  lemma CapExceeded()
    ensures ComputeDelay(Policy(0.25, 2.0, 1.0, true), 3, 0.9) == 1.16
  {
    assert Power(2.0, 1) == 2.0 && Power(2.0, 2) == 4.0;
  }

  lemma NonNegative(a: real, b: real)
    requires a >= 0.0 && b >= 0.0
    ensures a * b >= 0.0
  {
  }

  lemma Product(a: real, x: real, y: real)
    requires a >= 0.0 && x <= y
    ensures a * x <= a * y
  {
    NonNegative(a, y - x);
  }

  /** One more term of a geometric series with ratio `factor`. */
  lemma GeometricStep(base: real, factor: real, power: real, total: real, d: real)
    requires factor > 1.0 && d <= 1.2 * (base * power)
    requires (factor - 1.0) * total <= 1.2 * (base * power - base)
    ensures (factor - 1.0) * (total + d) <= 1.2 * (base * (power * factor) - base)
  {
    var term := base * power;
    Associate(base, power, factor);
    Product(factor - 1.0, d, 1.2 * term);
    assert (factor - 1.0) * (1.2 * term) == 1.2 * (term * factor) - 1.2 * term;
  }

  /** n sleeps, with the jitter at its worst, are at most n capped delays ... */
  lemma {:induction false} SleepWithinCap(p: Policy, slept: seq<real>, draws: nat -> real)
    requires p.baseDelay >= 0.0 && p.factor > 0.0 && p.maxDelay >= 0.0
    requires forall k: nat :: 0.0 <= draws(k) <= 1.0
    requires forall k :: 0 <= k < |slept| ==> slept[k] == ComputeDelay(p, k + 1, draws(k))
    ensures 0.0 <= Total(slept) <= 1.2 * (|slept| as real * p.maxDelay)
  {
    hide ComputeDelay, Power;
    var n := |slept|;
    if n > 0 {
      SleepWithinCap(p, slept[..n - 1], draws);
      DelayBounds(p, n, draws(n - 1));
      OneMoreCap(n, p.maxDelay, Total(slept[..n - 1]), slept[n - 1]);
    }
  }

  lemma OneMoreCap(n: nat, cap: real, total: real, d: real)
    requires n >= 1 && d <= 1.2 * cap && total <= 1.2 * ((n - 1) as real * cap)
    ensures total + d <= 1.2 * (n as real * cap)
  {
    assert (n - 1) as real == n as real - 1.0;
  }

  /** ... and at most the geometric series of the base delay. */
  lemma {:induction false} SleepWithinSeries(p: Policy, slept: seq<real>, draws: nat -> real)
    requires p.baseDelay >= 0.0 && p.factor > 1.0 && p.maxDelay >= 0.0
    requires forall k: nat :: 0.0 <= draws(k) <= 1.0
    requires forall k :: 0 <= k < |slept| ==> slept[k] == ComputeDelay(p, k + 1, draws(k))
    ensures (p.factor - 1.0) * Total(slept) <= 1.2 * (p.baseDelay * Power(p.factor, |slept|) - p.baseDelay)
  {
    hide ComputeDelay;
    var n := |slept|;
    if n > 0 {
      SleepWithinSeries(p, slept[..n - 1], draws);
      DelayBounds(p, n, draws(n - 1));
      GeometricStep(p.baseDelay, p.factor, Power(p.factor, n - 1), Total(slept[..n - 1]), slept[n - 1]);
    }
  }
}
