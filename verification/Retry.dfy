/** The in-process retry middleware: pkg/middleware/retry/retry.go. */
module Retry {
  import opened Options
  import opened Faults

  // ---------------------------------------------------------------- 64-bit durations

  const MAX_INT64 := 0x7FFF_FFFF_FFFF_FFFF

  /** x as a signed 64-bit integer, wrapped around. */
  function Wrap64(x: int): int {
    var low := x % 0x1_0000_0000_0000_0000;
    if low > MAX_INT64 then low - 0x1_0000_0000_0000_0000 else low
  }

  function Pow2(n: nat): (p: nat)
    ensures p >= 1
  {
    if n == 0 then 1 else 2 * Pow2(n - 1)
  }

  function Shl64(x: int, n: nat): int {
    Wrap64(x * Pow2(n))
  }

  /** The arithmetic right shift. */
  function Shr64(x: int, n: nat): int {
    x / Pow2(n)
  }

  function Min(a: int, b: int): int {
    if a <= b then a else b
  }

  function DelayFor(base: int, maxDelay: int, attempt: nat): int {
    if attempt >= 62 || base > Shr64(maxDelay, attempt) then maxDelay else Shl64(base, attempt)
  }

  /** jittered, for the random number already converted to a duration: the exact sum, cut at maxDelay. */
  method Jittered(delay: int, maxDelay: int, random: nat) returns (r: int)
    requires 0 <= delay <= maxDelay <= MAX_INT64
    ensures r == if delay + random <= maxDelay then delay + random else maxDelay
    ensures delay <= r <= maxDelay
  {
    var jitter: int := random;
    var room := Wrap64(maxDelay - delay);
    if jitter > room {
      jitter := room;
    }
    r := Wrap64(delay + jitter);
  }

  lemma {:induction false} Pow2Grows(a: nat, b: nat)
    requires a <= b
    ensures Pow2(a) <= Pow2(b)
    decreases b
  {
    if a < b {
      Pow2Grows(a, b - 1);
    }
  }

  /** The shift is taken only when it fits: it never wraps. */
  lemma ShiftFits(base: int, maxDelay: int, attempt: nat)
    requires 0 < base <= maxDelay <= MAX_INT64
    ensures base <= Shr64(maxDelay, attempt) <==> base * Pow2(attempt) <= maxDelay
    ensures base * Pow2(attempt) <= maxDelay ==> Shl64(base, attempt) == base * Pow2(attempt)
  {
    FitsQuotient(base, maxDelay, Pow2(attempt));
    MulMonotone(1, base, Pow2(attempt));
  }

  lemma FitsQuotient(a: int, b: int, p: int)
    requires p > 0
    ensures a <= b / p <==> a * p <= b
  {
    var q := b / p;
    assert q * p <= b < q * p + p;
    if a <= q {
      MulMonotone(a, q, p);
    } else {
      MulMonotone(q + 1, a, p);
    }
  }

  lemma MulMonotone(a: int, b: int, p: nat)
    requires a <= b
    ensures a * p <= b * p
  {
    assert (b - a) * p >= 0;
  }

  /**
   delayFor is the capped exponential exactly up to attempt 61; past it, it saturates even where the
   exponential still fits.
   */
  lemma DelayIsCappedExponential(base: int, maxDelay: int, attempt: nat)
    requires 0 < base <= maxDelay <= MAX_INT64
    ensures attempt >= 62 ==> DelayFor(base, maxDelay, attempt) == maxDelay
    ensures DelayFor(base, maxDelay, attempt) == Min(base * Pow2(attempt), maxDelay) <==>
            attempt < 62 || base * Pow2(attempt) >= maxDelay
    ensures base <= DelayFor(base, maxDelay, attempt) <= maxDelay
  {
    ShiftFits(base, maxDelay, attempt);
    MulMonotone(1, Pow2(attempt), base);
  }

  /** Where the saturation shows: one nanosecond and the largest cap. */
  lemma SaturatesEarly()
    ensures DelayFor(1, MAX_INT64, 62) == MAX_INT64 && Min(1 * Pow2(62), MAX_INT64) < MAX_INT64
  {
    assert Pow2(10) == 1024;
    Pow2Adds(10, 10);
    Pow2Adds(20, 20);
    Pow2Adds(40, 20);
    Pow2Adds(60, 2);
  }

  lemma {:induction false} Pow2Adds(a: nat, b: nat)
    ensures Pow2(a + b) == Pow2(a) * Pow2(b)
    decreases b
  {
    if b > 0 {
      Pow2Adds(a, b - 1);
    }
  }

  lemma DelayNeverDecreases(base: int, maxDelay: int, a: nat, b: nat)
    requires 0 < base <= maxDelay <= MAX_INT64 && a <= b
    ensures DelayFor(base, maxDelay, a) <= DelayFor(base, maxDelay, b)
  {
    DelayIsCappedExponential(base, maxDelay, a);
    DelayIsCappedExponential(base, maxDelay, b);
    Pow2Grows(a, b);
    MulMonotone(Pow2(a), Pow2(b), base);
  }

  // ---------------------------------------------------------------- the loop

  datatype Policy = Policy(base: int, maxDelay: int, maxRetries: nat, skipOnRedelivery: bool)

  /** What Backoff accepts: it panics on anything else. */
  predicate Accepts(p: Policy) {
    0 < p.base <= p.maxDelay <= MAX_INT64
  }

  /** How one handler call ends; the data is nil or the result. */
  datatype Attempt = Returned(data: Option<string>) | Failed(err: Error) | Crashed(value: string)

  /**
   The environment of one loop: each handler call's end, whether the context ends in each wait, and the
   random numbers.
   */
  datatype Handling = Handling(attempt: nat -> Attempt, ended: nat -> bool, random: nat -> nat)

  /** The retries a loop allows itself for a message with this delivery count; 0 is an unknown count. */
  function Retries(p: Policy, count: nat): nat {
    if p.skipOnRedelivery && count > 1 then 0 else p.maxRetries
  }

  /** The loop ends after attempt k. */
  predicate EndsAt(h: Handling, retries: nat, k: nat) {
    !h.attempt(k).Failed? || k == retries || IsNonRetryable(h.attempt(k).err) || h.ended(k)
  }

  /** The last attempt: the first one, from k on, that ends the loop. */
  function Last(h: Handling, retries: nat, k: nat): (last: nat)
    requires k <= retries
    ensures k <= last <= retries && EndsAt(h, retries, last)
    ensures forall j :: k <= j < last ==> !EndsAt(h, retries, j)
    decreases retries - k
  {
    if EndsAt(h, retries, k) then k else Last(h, retries, k + 1)
  }

  /** What the middleware returns: the last attempt, or the context's error when a wait was cut short. */
  function Outcome(h: Handling, retries: nat): Attempt {
    var last := Last(h, retries, 0);
    var a := h.attempt(last);
    if a.Failed? && last < retries && !IsNonRetryable(a.err) then Failed(ERR_CONTEXT) else a
  }

  lemma LastIs(h: Handling, retries: nat, last: nat)
    requires last <= retries && EndsAt(h, retries, last)
    requires forall j :: 0 <= j < last ==> !EndsAt(h, retries, j)
    ensures Last(h, retries, 0) == last
  {
  }

  /** The k-th call failed in a way worth another one. */
  predicate WorthRetrying(h: Handling, k: nat) {
    h.attempt(k).Failed? && NonRetryable !in h.attempt(k).err.marks
  }

  /**
   The loop retries what is worth it, up to its limit, until a wait is cut short. A known delivery
   count above 1 has no retries with SkipOnRedelivery; an unknown count is not a redelivery.
   */
  lemma LoopExactly(p: Policy, count: nat, h: Handling)
    ensures var retries := Retries(p, count);
            var (last, most) := (Last(h, retries, 0), if p.skipOnRedelivery && 2 <= count then 0 else p.maxRetries);
            && last <= most
            && (forall j :: 0 <= j < last ==> WorthRetrying(h, j) && !h.ended(j))
            && (WorthRetrying(h, last) && last < most ==> h.ended(last) && Outcome(h, retries) == Failed(ERR_CONTEXT))
            && (!WorthRetrying(h, last) || last == most ==> Outcome(h, retries) == h.attempt(last))
  {
    var last := Last(h, Retries(p, count), 0);
    forall j | 0 <= j < last ensures WorthRetrying(h, j) && !h.ended(j) {
      assert !EndsAt(h, Retries(p, count), j);
    }
  }

  /** The least the first n waits add up to. */
  function Delays(p: Policy, n: nat): (sum: int)
    requires Accepts(p)
    ensures sum >= 0
  {
    if n == 0 then 0
    else
      DelayIsCappedExponential(p.base, p.maxDelay, n - 1);
      Delays(p, n - 1) + DelayFor(p.base, p.maxDelay, n - 1)
  }

  /** run: the handler's result, how often it ran and how long the loop waited. */
  method Run(p: Policy, count: nat, h: Handling) returns (r: Attempt, runs: nat, waited: int)
    requires Accepts(p)
    ensures r == Outcome(h, Retries(p, count)) && runs == Last(h, Retries(p, count), 0) + 1
    ensures 1 <= runs <= p.maxRetries + 1
    ensures p.skipOnRedelivery && count > 1 ==> runs == 1
    ensures Delays(p, runs - 1) <= waited <= Retries(p, count) * p.maxDelay
  {
    var retries := Retries(p, count);
    var attempt := 0;
    waited := 0;
    while true
      invariant 0 <= attempt <= retries
      invariant forall j :: 0 <= j < attempt ==> !EndsAt(h, retries, j)
      invariant Delays(p, attempt) <= waited <= attempt * p.maxDelay
      decreases retries - attempt
    {
      r := h.attempt(attempt);
      if !r.Failed? || attempt == retries || IsNonRetryable(r.err) {
        LastIs(h, retries, attempt);
        MulMonotone(attempt, retries, p.maxDelay);
        return r, attempt + 1, waited;
      }
      var delay := Wait(p, attempt, h.random(attempt));
      MulNext(attempt, p.maxDelay);
      MulMonotone(attempt + 1, retries, p.maxDelay);
      waited := waited + delay;
      if h.ended(attempt) {
        LastIs(h, retries, attempt);
        return Failed(ERR_CONTEXT), attempt + 1, waited;
      }
      attempt := attempt + 1;
    }
  }

  /** wait: how long it sleeps at most. */
  method Wait(p: Policy, attempt: nat, random: nat) returns (delay: int)
    requires Accepts(p)
    ensures DelayFor(p.base, p.maxDelay, attempt) <= delay <= p.maxDelay && 0 < delay
  {
    DelayIsCappedExponential(p.base, p.maxDelay, attempt);
    delay := Jittered(DelayFor(p.base, p.maxDelay, attempt), p.maxDelay, random);
  }

  lemma MulNext(a: int, b: int)
    ensures (a + 1) * b == a * b + b
  {
  }
}
