/** Bounded exponential backoff: the stepwise form used for Redis retries and the closed form used for webhooks. */
module Backoff {

  function Min(a: real, b: real): real { if a < b then a else b }

  function Max(a: real, b: real): real { if a < b then b else a }

  /** A product with a name of its own, so that proofs can hide it from nonlinear arithmetic. */
  function Times(a: real, b: real): real { a * b }

  function Pow(b: real, n: nat): real { if n == 0 then 1.0 else Times(Pow(b, n - 1), b) }

  function NextRetryDelay(attempt: int, initial: real, multiplier: real, max: real): real {
    var normalized := if attempt < 1 then 1 else attempt;
    Min(max, Max(0.0, Times(initial, Pow(multiplier, normalized - 1))))
  }

  /** The delay held by the retry loop after `k` failures. */
  function Delay(k: nat, initial: real, multiplier: real, max: real): real {
    if k == 0 then initial else Min(max, Times(Delay(k - 1, initial, multiplier, max), multiplier))
  }

  lemma Grows(x: real, m: real)
    requires x >= 0.0 && m >= 1.0
    ensures Times(x, m) >= x >= 0.0
    ensures x == 0.0 ==> Times(x, m) == 0.0
  {}

  lemma Scales(x: real, a: real, b: real)
    requires x >= 0.0 && a <= b
    ensures Times(x, a) <= Times(x, b)
    ensures Times(x, 0.0) == 0.0 && Times(x, 1.0) == x
    ensures x > 0.0 && a > 0.0 ==> Times(x, a) > 0.0
  {}

  lemma ScaledClamp(x: real, m: real, max: real)
    requires x >= 0.0 && m >= 1.0 && max >= 0.0
    ensures Min(max, Times(Min(max, x), m)) == Min(max, Times(x, m))
  {
    hide Times;
    if x >= max {
      Grows(x, m);
      Grows(max, m);
    }
  }

  /** The unclamped delay after `n` failures. */
  function Power(initial: real, b: real, n: nat): real { Times(initial, Pow(b, n)) }

  lemma PowerStep(initial: real, b: real, n: nat)
    ensures Power(initial, b, 0) == initial
    ensures Power(initial, b, n + 1) == Times(Power(initial, b, n), b)
  {}

  lemma {:induction false} PowerGrows(initial: real, b: real, n: nat)
    requires initial >= 0.0 && b >= 1.0
    ensures Power(initial, b, n) >= 0.0
    ensures Power(initial, b, n + 1) >= Power(initial, b, n)
  {
    hide Times;
    hide Power;
    PowerStep(initial, b, n);
    if n > 0 { PowerGrows(initial, b, n - 1); }
    Grows(Power(initial, b, n), b);
  }

  lemma DelayStep(k: nat, initial: real, multiplier: real, max: real)
    ensures Delay(k + 1, initial, multiplier, max) == Min(max, Times(Delay(k, initial, multiplier, max), multiplier))
  {}

  /** Clamping at every step gives the same delays as clamping the power once. */
  lemma {:induction false} DelayIsClosedForm(k: nat, initial: real, multiplier: real, max: real)
    requires k >= 1 && initial >= 0.0 && multiplier >= 1.0 && max >= 0.0
    ensures Delay(k, initial, multiplier, max) == Min(max, Power(initial, multiplier, k))
  {
    hide Times;
    hide Power;
    PowerStep(initial, multiplier, k - 1);
    PowerGrows(initial, multiplier, k - 1);
    DelayStep(k - 1, initial, multiplier, max);
    if k > 1 {
      hide Delay;
      DelayIsClosedForm(k - 1, initial, multiplier, max);
      ScaledClamp(Power(initial, multiplier, k - 1), multiplier, max);
    }
  }

  /** The webhook delay of attempt `k + 1` is the retry loop's delay after `k` failures. */
  lemma WebhookDelayIsShifted(k: nat, initial: real, multiplier: real, max: real)
    requires k >= 1 && initial >= 0.0 && multiplier >= 1.0 && max >= 0.0
    ensures NextRetryDelay(k + 1, initial, multiplier, max) == Delay(k, initial, multiplier, max)
  {
    hide Times;
    hide Delay;
    hide Pow;
    DelayIsClosedForm(k, initial, multiplier, max);
    PowerGrows(initial, multiplier, k);
  }

  /** Before the first failure is counted, and after it, the webhook delay is the initial one within the bound. */
  lemma FirstWebhookDelay(attempt: int, initial: real, multiplier: real, max: real)
    requires attempt <= 1 && initial >= 0.0
    ensures NextRetryDelay(attempt, initial, multiplier, max) == if initial <= max then initial else max
  {
    assert Pow(multiplier, 0) == 1.0;
    Scales(initial, 1.0, 1.0);
  }

  /** Delays grow with every failure after the first; from the start exactly if the first is within the bound. */
  lemma DelaysGrow(k: nat, initial: real, multiplier: real, max: real)
    requires initial >= 0.0 && multiplier >= 1.0 && max >= 0.0
    ensures k >= 1 ==> Delay(k, initial, multiplier, max) <= Delay(k + 1, initial, multiplier, max) <= max
    ensures Delay(0, initial, multiplier, max) <= Delay(1, initial, multiplier, max) <==> initial <= max
  {
    hide Times;
    DelayIsClosedForm(1, initial, multiplier, max);
    assert Delay(0, initial, multiplier, max) == initial;
    hide Delay;
    hide Power;
    PowerStep(initial, multiplier, 0);
    PowerGrows(initial, multiplier, 0);
    if k >= 1 {
      DelayIsClosedForm(k, initial, multiplier, max);
      DelayIsClosedForm(k + 1, initial, multiplier, max);
      PowerGrows(initial, multiplier, k);
    }
  }

  /** A sleep after failure `k`: the delay times its jitter, at most half off, and never more than `max`. */
  predicate SleepOk(sleep: real, jitter: real, k: nat, initial: real, multiplier: real, max: real) {
    var delay := Delay(k, initial, multiplier, max);
    && sleep == (if Times(delay, jitter) <= max then Times(delay, jitter) else max)
    && 0.0 <= sleep <= max && Min(max, Times(delay, 0.5)) <= sleep <= Min(max, Times(delay, 1.5))
  }

  lemma JitterIsOk(jitter: real, k: nat, initial: real, multiplier: real, max: real)
    requires Delay(k, initial, multiplier, max) >= 0.0 && max >= 0.0 && 0.5 <= jitter <= 1.5
    ensures SleepOk(Min(Times(Delay(k, initial, multiplier, max), jitter), max), jitter, k, initial, multiplier, max)
  {
    hide Times;
    var delay := Delay(k, initial, multiplier, max);
    hide Delay;
    Scales(delay, 0.0, jitter);
    Scales(delay, 0.5, jitter);
    Scales(delay, jitter, 1.5);
  }

  datatype Result = Done(value: nat) | Failed | Rejected

  /** Does one of the first `n` runs succeed? */
  predicate Succeeds(outcomes: nat -> bool, n: nat) { exists k :: 0 <= k < n && outcomes(k) }

  /**
   * The retry loop. `outcomes(k)` says whether run `k` succeeds, `jitters(k)` is what the random source
   * returns after it. The result names the successful run, the first one there is.
   */
  method RetryAsync(outcomes: nat -> bool, jitters: nat -> real, attempts: int, base: real, max: real, multiplier: real)
    returns (result: Result, runs: nat, sleeps: seq<real>)
    requires forall k :: 0.5 <= jitters(k) <= 1.5
    ensures result.Rejected? <==> attempts < 1 || base < 0.0 || max < 0.0 || multiplier < 1.0
    ensures result.Rejected? ==> runs == 0 && sleeps == []
    ensures !result.Rejected? ==> 1 <= runs <= attempts && (forall k | 0 <= k < runs - 1 :: !outcomes(k))
    ensures !result.Rejected? ==> (result.Done? <==> Succeeds(outcomes, attempts))
    ensures result.Done? ==> result.value == runs - 1 && outcomes(runs - 1)
    ensures result.Failed? ==> runs == attempts
    ensures !result.Rejected? && base > 0.0 && max > 0.0 ==> |sleeps| == runs - 1
    ensures !result.Rejected? && base > 0.0 && max > 0.0 ==>
              forall k | 0 <= k < |sleeps| :: SleepOk(sleeps[k], jitters(k), k, base, multiplier, max)
    ensures base == 0.0 || max == 0.0 ==> forall k | 0 <= k < |sleeps| :: sleeps[k] == 0.0
  {
    assert Delay(0, base, multiplier, max) == base;
    hide Times;
    hide Delay;
    hide SleepOk;
    sleeps, runs := [], 0;
    if attempts < 1 || base < 0.0 || max < 0.0 || multiplier < 1.0 { return Rejected, 0, []; }
    var attempt, delay := 1, base;
    while true
      invariant 1 <= attempt <= attempts && runs == attempt - 1
      invariant delay == Delay(attempt - 1, base, multiplier, max) >= 0.0
      invariant base == 0.0 || (max == 0.0 && attempt > 1) ==> delay == 0.0
      invariant base > 0.0 && max > 0.0 ==> delay > 0.0 && |sleeps| == attempt - 1
      invariant forall k | 0 <= k < runs :: !outcomes(k)
      invariant base > 0.0 && max > 0.0 ==>
                  forall k | 0 <= k < |sleeps| :: SleepOk(sleeps[k], jitters(k), k, base, multiplier, max)
      invariant base == 0.0 || max == 0.0 ==> forall k | 0 <= k < |sleeps| :: sleeps[k] == 0.0
      decreases attempts - attempt
    {
      runs := runs + 1;
      if outcomes(attempt - 1) { return Done(attempt - 1), runs, sleeps; }
      if attempt >= attempts { return Failed, runs, sleeps; }
      if delay > 0.0 {
        var jitter := jitters(attempt - 1);
        JitterIsOk(jitter, attempt - 1, base, multiplier, max);
        Scales(delay, 0.0, jitter);
        sleeps := sleeps + [Min(Times(delay, jitter), max)];
      }
      DelayStep(attempt - 1, base, multiplier, max);
      Grows(delay, multiplier);
      delay := Min(max, Times(delay, multiplier));
      attempt := attempt + 1;
    }
  }
}
