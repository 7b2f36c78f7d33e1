/** The two capped exponential backoffs: their loops and their closed forms. */
module Backoff {
  import opened Basics

  function Pow(b: nat, e: nat): nat {
    if e == 0 then 1 else b * Pow(b, e - 1)
  }

  const INT_MAX: int := 0x7fff_ffff
  const MAX_DOUBLINGS: nat := 20

  /** The reconnect cap in closed form: `base * 2^min(attempt, 20)`, at most `max`. */
  function Cap(base: nat, max: nat, attempt: int): int {
    Min(base * Pow(2, Min(Max(0, attempt), MAX_DOUBLINGS)), max)
  }

  /** The jittered delay: one more than the mixed value modulo the cap. */
  function Delay(base: nat, max: nat, attempt: int, mixed: nat): (ms: int)
    requires 0 < base <= max
    ensures 1 <= ms <= Max(1, Cap(base, max, attempt))
  {
    1 + mixed % Max(1, Cap(base, max, attempt))
  }

  lemma {:induction false} PowGrows(b: nat, e: nat, f: nat)
    requires b >= 1 && e <= f
    ensures 1 <= Pow(b, e) <= Pow(b, f)
  {
    if f == 0 {
    } else if e == f {
      PowGrows(b, e - 1, f - 1);
      Grow(b, Pow(b, e - 1));
    } else {
      PowGrows(b, e, f - 1);
      Grow(b, Pow(b, f - 1));
    }
  }

  lemma Grow(b: nat, p: nat)
    requires b >= 1
    ensures b * p >= p
  {
    assert b * p == p + (b - 1) * p;
  }

  /** What the remaining doublings do to a running cap. */
  function CapFrom(cap: nat, max: nat, doublings: nat): int {
    Min(cap * Pow(2, doublings), max)
  }

  lemma CapDoubles(cap: nat, max: nat, doublings: nat)
    requires doublings > 0
    ensures CapFrom(cap, max, doublings) == CapFrom(2 * cap, max, doublings - 1)
  {
    var p := Pow(2, doublings - 1);
    assert cap * (2 * p) == (2 * cap) * p;
  }

  lemma CapReached(cap: nat, max: nat, doublings: nat)
    requires cap >= max
    ensures CapFrom(cap, max, doublings) == max
  {
    PowGrows(2, 0, doublings);
    Grow(Pow(2, doublings), cap);
  }

  /** The doubling loop; no value it computes exceeds the configured maximum. */
  method ReconnectCap(base: nat, max: nat, attempt: int) returns (cap: int)
    requires 0 < base <= max <= INT_MAX
    ensures cap == Cap(base, max, attempt)
    ensures 0 < cap <= max
  {
    cap := base;
    var exponent := Max(0, Min(attempt, MAX_DOUBLINGS));
    var i := 0;
    while i < exponent && cap < max
      invariant 0 <= i <= exponent
      invariant 0 < cap <= max
      invariant CapFrom(cap, max, exponent - i) == Cap(base, max, attempt)
    {
      CapDoubles(cap, max, exponent - i);
      if cap > max / 2 {
        CapReached(2 * cap, max, exponent - i - 1);
        cap := max;
        break;
      }
      cap := cap * 2;
      i := i + 1;
    }
    if cap == max {
      CapReached(cap, max, exponent - i);
    }
    cap := Min(cap, max);
  }

  /**
   * The delay before a reconnect attempt: at least a millisecond, at most the capped exponential,
   * and always within a 32-bit `int`.
   */
  method BackoffMs(base: nat, max: nat, attempt: int, mixed: nat) returns (ms: int)
    requires 0 < base <= max <= INT_MAX
    ensures ms == Delay(base, max, attempt, mixed)
    ensures 1 <= ms <= Cap(base, max, attempt) <= max
  {
    var cap := ReconnectCap(base, max, attempt);
    ms := 1 + mixed % Max(1, cap);
  }

  /**
   * The jitter spreads over the whole range and favours nothing: among any `Cap` mixed values in a
   * row exactly one gives each delay from one millisecond to the cap, starting at one for zero.
   */
  lemma DelaySpreads(base: nat, max: nat, attempt: int, start: nat, ms: int)
    requires 0 < base <= max && 1 <= ms <= Cap(base, max, attempt)
    ensures var cap := Cap(base, max, attempt);
            && Delay(base, max, attempt, (ms - 1) as nat) == ms
            && (exists mixed: nat :: start <= mixed < start + cap && Delay(base, max, attempt, mixed) == ms)
            && (forall a: nat, b: nat ::
                  (start <= a < start + cap && start <= b < start + cap
                   && Delay(base, max, attempt, a) == Delay(base, max, attempt, b)) ==> a == b)
  {
    hide Cap;
    var cap := Cap(base, max, attempt);
    Residue(0, cap, ms - 1);
    var mixed := ResidueReached(start, cap, ms - 1);
    assert Delay(base, max, attempt, mixed) == ms;
    forall a: nat, b: nat | start <= a < start + cap && start <= b < start + cap
                            && Delay(base, max, attempt, a) == Delay(base, max, attempt, b)
      ensures a == b
    {
      SameResidue(a, b, cap);
    }
  }

  lemma ResidueReached(start: nat, cap: nat, r: nat) returns (n: nat)
    requires r < cap
    ensures start <= n < start + cap && n % cap == r
  {
    var q, from := start / cap, start % cap;
    var q' := if r >= from then q else q + 1;
    n := q' * cap + r;
    Residue(q', cap, r);
    assert (q + 1) * cap == q * cap + cap;
  }

  lemma Residue(q: nat, cap: nat, r: nat)
    requires r < cap
    ensures (q * cap + r) % cap == r
  {
    var x := q * cap + r;
    assert x == cap * (x / cap) + x % cap;
    Apart(q - x / cap, cap);
    Apart(x / cap - q, cap);
    assert (q - x / cap) * cap == x % cap - r;
    assert (x / cap - q) * cap == r - x % cap;
  }

  lemma Apart(d: int, cap: nat)
    ensures d >= 1 ==> d * cap >= cap
  {
    if d >= 1 { Grow(d, cap); }
  }

  lemma SameResidue(a: nat, b: nat, cap: nat)
    requires cap > 0 && a % cap == b % cap && a < b + cap && b < a + cap
    ensures a == b
  {
    var d := a / cap - b / cap;
    assert a == a / cap * cap + a % cap && b == b / cap * cap + b % cap;
    Apart(d, cap);
    Apart(-d, cap);
    assert d * cap == a - b;
    assert (-d) * cap == b - a;
  }

  /** Division of a signed integer by a positive one, rounding toward zero. */
  function Truncated(a: int, b: int): int
    requires b > 0
  {
    if a >= 0 then a / b else -((-a) / b)
  }

  /** The retry delay in closed form; a multiplier of zero acts as one. */
  function RetryDelay(initial: int, multiplier: nat, max: int, round: nat): int {
    Min(initial * Pow(Max(1, multiplier), Max(0, round - 1)), max)
  }

  lemma NegativeScale(d: int, m: nat)
    requires d <= 0 && m >= 1
    ensures d * m <= d
  {
    assert d * m == d + d * (m - 1);
  }

  lemma ScaleKeepsCap(d: int, p: nat, max: int)
    requires p >= 1 && 0 <= max <= d
    ensures d * p >= max
  {
    Grow(p, d);
  }

  lemma Regroup(a: int, m: nat, p: nat)
    ensures a * (m * p) == (a * p) * m
  {
  }

  /** A step past the cap: once the running delay is above `max / m`, the next one exceeds `max`. */
  lemma PastCap(delay: int, m: nat, max: int)
    requires m >= 2 && max >= 0 && delay > max / m
    ensures delay * m > max
  {
    assert delay >= max / m + 1;
    assert max < m * (max / m) + m;
    assert delay * m >= (max / m + 1) * m;
  }

  lemma WithinCap(delay: int, m: nat, max: int)
    requires m >= 2 && max >= 0 && delay <= max / m
    ensures delay * m <= max
  {
    assert delay * m <= (max / m) * m;
  }

  /** The tail of the closed form once the running delay has reached the cap. */
  lemma CappedForGood(initial: int, m: nat, done: nat, total: nat, max: int)
    requires m >= 1 && max >= 0 && done <= total
    requires initial * Pow(m, done) >= max
    ensures initial * Pow(m, total) >= max
    decreases total - done
  {
    if done < total {
      var d := initial * Pow(m, done);
      Regroup(initial, m, Pow(m, done));
      assert initial * Pow(m, done + 1) == d * m;
      ScaleKeepsCap(d, m, max);
      CappedForGood(initial, m, done + 1, total, max);
    }
  }

  lemma {:induction false} PowOne(e: nat)
    ensures Pow(1, e) == 1
  {
    if e > 0 { PowOne(e - 1); }
  }

  /** A cap below zero that the initial delay has already reached: the loop stops at once. */
  predicate StopsAtOnce(initial: int, max: int) {
    max < 0 && initial >= max
  }

  lemma {:induction false} NegativeGrows(initial: int, m: nat, e: nat)
    requires initial <= 0 && m >= 1
    ensures initial * Pow(m, e) <= initial
  {
    if e > 0 {
      NegativeGrows(initial, m, e - 1);
      Regroup(initial, m, Pow(m, e - 1));
      NegativeScale(initial * Pow(m, e - 1), m);
    }
  }

  /**
   * The delay before the next attempt of a retry round, for every multiplier, round, initial delay
   * and cap: the closed form, unless the cap is negative and already reached, when it is the cap.
   * With a non-negative initial delay no value above the cap is ever computed, so nothing overflows.
   */
  method CalculateRetryBackoff(initial: int, multiplier: nat, max: int, round: nat)
    returns (delay: int, ghost highest: int)
    ensures delay == if StopsAtOnce(initial, max) then max else RetryDelay(initial, multiplier, max, round)
    ensures delay <= max
    ensures highest <= Max(initial, max)
  {
    delay := initial;
    highest := initial;
    var attempt := 1;
    ghost var m := Max(1, multiplier);
    while attempt < round
      invariant 1 <= attempt <= Max(1, round)
      invariant delay == initial * Pow(m, attempt - 1)
      invariant StopsAtOnce(initial, max) ==> attempt == 1
      invariant highest <= Max(initial, max) && delay <= highest
    {
      if delay >= max {
        if max >= 0 {
          CappedForGood(initial, m, attempt - 1, round - 1, max);
        } else if !StopsAtOnce(initial, max) {
          NegativeGrows(initial, m, attempt - 1);
        }
        delay := max;
        break;
      }
      if multiplier <= 1 {
        PowOne(attempt - 1);
        PowOne(round - 1);
        break;
      }
      if delay > Truncated(max, multiplier) {
        if max >= 0 {
          PastCap(delay, multiplier, max);
          Regroup(initial, m, Pow(m, attempt - 1));
          assert initial * Pow(m, attempt) == delay * m;
          CappedForGood(initial, m, attempt, round - 1, max);
        } else {
          TruncatedShrinks(max, multiplier);
        }
        delay := max;
        break;
      }
      Regroup(initial, m, Pow(m, attempt - 1));
      if max >= 0 {
        WithinCap(delay, multiplier, max);
      } else {
        NegativeScale(delay, multiplier);
      }
      delay := delay * multiplier;
      highest := Max(highest, delay);
      attempt := attempt + 1;
    }
    if delay > max {
      delay := max;
    }
  }

  lemma TruncatedShrinks(a: int, b: int)
    requires a < 0 && b > 0
    ensures a <= Truncated(a, b) <= 0
  {
    var n := -a;
    var q := n / b;
    assert n == b * q + n % b;
    Grow(b, q);
  }

  /** Where the two differ: a cap of -1 that is reached at once stays, and the closed form goes on. */
  lemma NegativeCapDeparts()
    ensures StopsAtOnce(-1, -1) && RetryDelay(-1, 2, -1, 2) == -2
    ensures forall initial: int, multiplier: nat, max: int, round: nat ::
              StopsAtOnce(initial, max) ==>
                (RetryDelay(initial, multiplier, max, round) == max <==>
                   initial * Pow(Max(1, multiplier), Max(0, round - 1)) >= max)
  {
    assert Pow(2, 1) == 2 * Pow(2, 0);
  }
}
