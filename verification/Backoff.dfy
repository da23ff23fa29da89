/** Equal-jitter retry delays, over the reals. */
module Backoff {
  import opened Wrappers

  datatype RetryPolicy = RetryPolicy(baseSeconds: real, capSeconds: real)

  /** The bounds the settings enforce. */
  predicate Safe(p: RetryPolicy) {
    0.0 < p.baseSeconds <= p.capSeconds
  }

  function Min(a: real, b: real): real { if b < a then b else a }

  function PowerOfTwo(n: nat): (r: real)
    ensures r >= 1.0
  {
    if n == 0 then 1.0 else 2.0 * PowerOfTwo(n - 1)
  }

  function Times(a: real, b: real): real { a * b }

  function Jitter(ceiling: real, random: real): real { ceiling / 2.0 + ceiling / 2.0 * random }

  function Ceiling(p: RetryPolicy, attempt: nat): real
    requires attempt >= 1
  {
    Min(p.capSeconds, Times(p.baseSeconds, PowerOfTwo(attempt - 1)))
  }

  /** None is the ValueError for a random source that leaves [0, 1]. */
  function DelaySeconds(p: RetryPolicy, attempt: nat, random: real): Option<real>
    requires attempt >= 1
  {
    var ceiling := Ceiling(p, attempt);
    if 0.0 <= random <= 1.0 then Some(Jitter(ceiling, random)) else None
  }

  lemma ScaleMonotone(factor: real, a: real, b: real)
    requires factor >= 0.0 && a <= b
    ensures Times(factor, a) <= Times(factor, b)
  {
  }

  lemma RatioExists(half: real, d: real) returns (ratio: real)
    requires half > 0.0 && half <= d <= half + half
    ensures 0.0 <= ratio <= 1.0 && Jitter(half + half, ratio) == d
  {
    ratio := (d - half) / half;
    assert half * ratio == d - half;
  }

  lemma JitterBounds(c: real, random: real)
    requires c > 0.0 && 0.0 <= random <= 1.0
    ensures c / 2.0 <= Jitter(c, random) <= c
    ensures Jitter(c, random) == c <==> random == 1.0
    ensures Jitter(c, random) == c / 2.0 <==> random == 0.0
  {
    var half := c / 2.0;
    assert half * (1.0 - random) >= 0.0 && half * random >= 0.0;
    if random < 1.0 { assert half * (1.0 - random) > 0.0; }
    if random > 0.0 { assert half * random > 0.0; }
  }

  lemma CeilingPositive(p: RetryPolicy, attempt: nat)
    requires Safe(p) && attempt >= 1
    ensures 0.0 < Ceiling(p, attempt) <= p.capSeconds
    ensures Ceiling(p, attempt) <= Times(p.baseSeconds, PowerOfTwo(attempt - 1))
  {
    ScaleMonotone(p.baseSeconds, 1.0, PowerOfTwo(attempt - 1));
    assert Times(p.baseSeconds, 1.0) == p.baseSeconds;
  }

  /** The delay fails exactly outside [0, 1]; otherwise it is positive, at least half and at most the whole ceiling. */
  lemma DelayIsBounded(p: RetryPolicy, attempt: nat, random: real)
    requires Safe(p) && attempt >= 1
    ensures DelaySeconds(p, attempt, random).Some? <==> 0.0 <= random <= 1.0
    ensures
      var d := DelaySeconds(p, attempt, random);
      d.Some? ==>
        && 0.0 < Ceiling(p, attempt) / 2.0 <= d.value <= Ceiling(p, attempt) <= p.capSeconds
        && (d.value == Ceiling(p, attempt) <==> random == 1.0)
        && (d.value == Ceiling(p, attempt) / 2.0 <==> random == 0.0)
  {
    CeilingPositive(p, attempt);
    if 0.0 <= random <= 1.0 {
      JitterBounds(Ceiling(p, attempt), random);
    }
  }

  /** Every value of [c/2, c] is some draw's delay: the jitter covers exactly that interval. */
  lemma JitterCoversTheInterval(p: RetryPolicy, attempt: nat, d: real)
    requires Safe(p) && attempt >= 1
    requires Ceiling(p, attempt) / 2.0 <= d <= Ceiling(p, attempt)
    ensures exists random :: DelaySeconds(p, attempt, random) == Some(d)
  {
    CeilingPositive(p, attempt);
    var half := Ceiling(p, attempt) / 2.0;
    var random := RatioExists(half, d);
    assert half + half == Ceiling(p, attempt);
    assert DelaySeconds(p, attempt, random) == Some(d);
  }

  lemma {:induction false} PowerGrows(m: nat, n: nat)
    requires m <= n
    ensures PowerOfTwo(m) <= PowerOfTwo(n)
    decreases n - m
  {
    if m < n { PowerGrows(m + 1, n); }
  }

  /** Ceilings never fall, and once the cap is reached they stay there. */
  lemma CeilingIsMonotone(p: RetryPolicy, m: nat, n: nat)
    requires Safe(p) && 1 <= m <= n
    ensures Ceiling(p, m) <= Ceiling(p, n)
    ensures Ceiling(p, m) == p.capSeconds ==> Ceiling(p, n) == p.capSeconds
  {
    PowerGrows(m - 1, n - 1);
    ScaleMonotone(p.baseSeconds, PowerOfTwo(m - 1), PowerOfTwo(n - 1));
  }

  lemma {:induction false} PowerExceeds(n: nat)
    ensures PowerOfTwo(n) >= (n + 1) as real
  {
    if n > 0 { PowerExceeds(n - 1); }
  }

  /** From attempt number cap/base on, every ceiling is the cap. */
  lemma CeilingSaturates(p: RetryPolicy, n: nat)
    requires Safe(p) && n >= 1 && Times(p.baseSeconds, n as real) >= p.capSeconds
    ensures Ceiling(p, n) == p.capSeconds
  {
    PowerExceeds(n - 1);
    ScaleMonotone(p.baseSeconds, n as real, PowerOfTwo(n - 1));
  }

  /** The first ceiling is the base, and each further attempt doubles the ceiling until the cap is reached. */
  lemma CeilingDoubles(p: RetryPolicy, n: nat)
    requires Safe(p) && n >= 1
    ensures Ceiling(p, 1) == p.baseSeconds
    ensures Ceiling(p, n + 1) == (if 2.0 * Ceiling(p, n) < p.capSeconds then 2.0 * Ceiling(p, n) else p.capSeconds)
  {
    var power := PowerOfTwo(n - 1);
    assert PowerOfTwo(n) == 2.0 * power && PowerOfTwo(0) == 1.0;
    DoubleProduct(p.baseSeconds, power);
    CeilingPositive(p, n);
  }

  lemma DoubleProduct(base: real, power: real)
    ensures Times(base, 2.0 * power) == 2.0 * Times(base, power)
    ensures Times(base, 1.0) == base
  {
  }

  /** The sum of the first |randoms| delays of one task; a failed draw contributes nothing. */
  function TotalDelay(p: RetryPolicy, randoms: seq<real>): real
  {
    if randoms == [] then 0.0
    else
      var last := DelaySeconds(p, |randoms|, randoms[|randoms| - 1]);
      TotalDelay(p, randoms[..|randoms| - 1]) + (if last.Some? then last.value else 0.0)
  }

  lemma NextDelay(p: RetryPolicy, attempt: nat, random: real)
    requires Safe(p) && attempt >= 1
    ensures
      var d := DelaySeconds(p, attempt, random);
      d.Some? ==> 0.0 <= d.value <= p.capSeconds && d.value <= Times(p.baseSeconds, PowerOfTwo(attempt - 1))
  {
    CeilingPositive(p, attempt);
    DelayIsBounded(p, attempt, random);
  }

  lemma Unroll(cap: real, base: real, n: nat, power: real)
    requires n >= 1
    ensures Times(cap, n as real) == Times(cap, (n - 1) as real) + cap
    ensures Times(base, 2.0 * power - 1.0) == Times(base, power - 1.0) + Times(base, power)
    ensures Times(cap, 0.0) == 0.0 && Times(base, 0.0) == 0.0
  {
    assert n as real == (n - 1) as real + 1.0;
  }

  /** The backoff of a whole task: linear in the cap and geometric in the base, whichever is smaller. */
  lemma {:induction false} TotalDelayIsBounded(p: RetryPolicy, randoms: seq<real>)
    requires Safe(p)
    ensures 0.0 <= TotalDelay(p, randoms)
    ensures TotalDelay(p, randoms) <= Times(p.capSeconds, |randoms| as real)
    ensures TotalDelay(p, randoms) <= Times(p.baseSeconds, PowerOfTwo(|randoms|) - 1.0)
  {
    var n := |randoms|;
    Unroll(p.capSeconds, p.baseSeconds, 1, 1.0);
    if n > 0 {
      TotalDelayIsBounded(p, randoms[..n - 1]);
      NextDelay(p, n, randoms[n - 1]);
      Unroll(p.capSeconds, p.baseSeconds, n, PowerOfTwo(n - 1));
    }
  }
}
