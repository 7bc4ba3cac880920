/**
 The capacity of the vector that holds the sub-filters. Growing it one element at a time and the
 formula the scale-out simulation uses are two descriptions of the same number.
 */
module Vectors {
  import opened Platform

  /** Capacity after pushing onto a vector of 8-byte elements: doubled when full, and then at least 4. */
  function GrowVec(cap: nat, len: nat): nat {
    if len == cap then Max(Max(2 * cap, len + 1), 4) else cap
  }

  /** The capacity reached by creating a one-element vector and pushing until it holds `n`. */
  function PushedCapacity(n: pos): nat {
    if n == 1 then 1 else GrowVec(PushedCapacity(n - 1), n - 1)
  }

  ghost predicate IsPowerOfTwo(n: pos) {
    n == 1 || (n % 2 == 0 && IsPowerOfTwo(n / 2))
  }

  function NextPowerOfTwoFrom(p: pos, n: pos): (r: pos)
    requires IsPowerOfTwo(p) && (p == 1 || p < 2 * n)
    ensures IsPowerOfTwo(r) && n <= r && (r == 1 || r < 2 * n)
    decreases 2 * n - p
  {
    if n <= p then p else NextPowerOfTwoFrom(2 * p, n)
  }

  /** `u64::next_power_of_two`. */
  function NextPowerOfTwo(n: pos): (r: pos)
    ensures IsPowerOfTwo(r) && n <= r < 2 * n
  {
    var r := NextPowerOfTwoFrom(1, n);
    r
  }

  /** The simulation's formula for the capacity of a vector that holds `n` sub-filters. */
  function VecCapFor(n: nat): (r: pos)
    ensures n <= r
  {
    if n <= 1 then 1 else NextPowerOfTwo(Max(4, n))
  }

  /** Powers of two are at least a factor of two apart. */
  lemma {:induction false} PowersApart(p: pos, q: pos)
    requires IsPowerOfTwo(p) && IsPowerOfTwo(q) && p < q
    ensures 2 * p <= q
  {
    if p != 1 {
      PowersApart(p / 2, q / 2);
    }
  }

  /** There is one power of two in `[n, 2n)`. */
  lemma NextPowerUnique(n: pos, r: pos)
    requires IsPowerOfTwo(r) && n <= r < 2 * n
    ensures NextPowerOfTwo(n) == r
  {
    var s := NextPowerOfTwo(n);
    if s < r {
      PowersApart(s, r);
    } else if r < s {
      PowersApart(r, s);
    }
  }

  /** One push takes the formula for `n` to the formula for `n + 1`. */
  lemma PushFollowsFormula(n: pos)
    ensures GrowVec(VecCapFor(n), n) == VecCapFor(n + 1)
    ensures VecCapFor(n) <= VecCapFor(n + 1)
  {
    if n < 4 {
      assert IsPowerOfTwo(2) && IsPowerOfTwo(4);
      NextPowerUnique(4, 4);
    } else {
      var r := NextPowerOfTwo(n);
      if r == n {
        assert IsPowerOfTwo(2 * n);
        NextPowerUnique(n + 1, 2 * n);
      } else {
        NextPowerUnique(n + 1, r);
      }
    }
  }

  /** The closed form of the vector's capacity after any number of pushes. */
  lemma {:induction false} PushedCapacityClosedForm(n: pos)
    ensures PushedCapacity(n) == if n == 1 then 1 else NextPowerOfTwo(Max(4, n))
  {
    if n > 1 {
      PushedCapacityClosedForm(n - 1);
      PushFollowsFormula(n - 1);
    }
  }

  /** The capacity of a vector that held `n` elements with capacity `vecCap`, once it has been pushed to `j`. */
  function PushedFrom(vecCap: nat, n: nat, j: nat): nat {
    if j <= n then vecCap else GrowVec(PushedFrom(vecCap, n, j - 1), j - 1)
  }

  /** Pushing on along the formula stays on it. */
  lemma {:induction false} PushedFromFormula(n: pos, j: nat)
    requires n <= j
    ensures PushedFrom(VecCapFor(n), n, j) == VecCapFor(j)
  {
    if n < j {
      PushedFromFormula(n, j - 1);
      PushFollowsFormula(j - 1);
    }
  }

  function TwoToThe(k: nat): pos { if k == 0 then 1 else 2 * TwoToThe(k - 1) }

  /**
   A vector that was cut down to its `n` elements and pushed to again doubles whenever it is full: it has
   `n` times the least power of two that is enough for `j` elements.
   */
  lemma {:induction false} PushedAfterShrink(n: nat, j: nat) returns (k: nat)
    requires 2 <= n <= j
    ensures PushedFrom(n, n, j) == n * TwoToThe(k) && j <= n * TwoToThe(k) && (k > 0 ==> n * TwoToThe(k - 1) < j)
  {
    if j == n {
      k := 0;
    } else {
      k := PushedAfterShrink(n, j - 1);
      var cap := n * TwoToThe(k);
      if j - 1 == cap {
        assert n * TwoToThe(k + 1) == 2 * cap;
        k := k + 1;
      }
    }
  }
}
