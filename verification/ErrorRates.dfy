/** The error-rate budget of a scaling object, with rates that are computed up to a relative rounding error. */
module ErrorRates {
  import opened Platform
  import opened RawBloom
  import opened ScalingObject

  /** The product, kept out of sight where only its laws are needed. */
  function Times(a: real, b: real): real { a * b }

  /** The rate of sub-filter `n` without rounding. */
  function ExactRate(f: Rate, n: nat, t: Rate): real { Times(f, Pow(t, n)) }

  /**
   Above the smallest normal double, computed rates are off by no more than the fraction `eps`. The product
   and the power of doubles come with a tiny one, which the number of roundings in the power bounds.
   */
  ghost predicate RoundedWithin(env: Env, eps: real) {
    forall f: Rate, n: nat, t: Rate :: 0 < n <= I32_MAX && env.tightened(f, n, t) > MIN_POSITIVE ==>
      Times(1.0 - eps, ExactRate(f, n, t)) <= env.tightened(f, n, t) <= Times(1.0 + eps, ExactRate(f, n, t))
  }

  /** The rates given to the sub-filters of `o`. */
  ghost function AssignedRates(env: Env, o: Object): seq<real>
    requires Grown(env, o)
  {
    seq(|o.filters|, i requires 0 <= i => PlanOf(env, o).RateAt(i))
  }

  ghost function ExactRates(f: Rate, n: nat, t: Rate): seq<real> {
    seq(n, i requires 0 <= i => ExactRate(f, i, t))
  }

  ghost function Sum(rates: seq<real>): real {
    if rates == [] then 0.0 else Sum(rates[..|rates| - 1]) + rates[|rates| - 1]
  }

  // ---------- laws of the product ----------

  lemma Product(a: real, b: real)
    requires a > 0.0 && b > 0.0
    ensures Times(a, b) > 0.0
  {
  }

  lemma Distributes(a: real, x: real, y: real)
    ensures Times(a, x + y) == Times(a, x) + Times(a, y)
  {
  }

  lemma Associates(a: real, b: real, c: real)
    ensures Times(a, Times(b, c)) == Times(Times(a, b), c)
  {
  }

  lemma Commutes(a: real, b: real)
    ensures Times(a, b) == Times(b, a)
  {
  }

  lemma Monotone(a: real, b: real, d: real)
    requires d > 0.0
    ensures a <= b ==> Times(a, d) <= Times(b, d)
    ensures a < b ==> Times(a, d) < Times(b, d)
  {
    if a < b {
      Product(b - a, d);
      Distributes(d, b - a, a);
      Commutes(d, b - a);
      Commutes(d, a);
      Commutes(d, b);
    }
  }

  lemma One(x: real)
    ensures Times(1.0, x) == x
  {
  }

  lemma GeometricBound(sum: real, f: real, t: Rate)
    requires sum - Times(t, sum) < f
    ensures sum < f / (1.0 - t)
  {
    var d := 1.0 - t;
    var quotient := f / d;
    assert Times(quotient, d) == f;
    assert Times(sum, d) == sum - Times(t, sum);
    if quotient <= sum {
      Monotone(quotient, sum, d);
    }
  }

  // ---------- the exact rates ----------

  lemma NextRate(f: Rate, n: nat, t: Rate)
    ensures ExactRate(f, n + 1, t) == Times(t, ExactRate(f, n, t))
    ensures ExactRate(f, n, t) > 0.0
  {
    var x := Pow(t, n);
    assert Pow(t, n + 1) == Times(t, x);
    hide Pow;
    Associates(f, t, x);
    Commutes(f, t);
    Associates(t, f, x);
    Product(f, x);
  }

  lemma RatesOfPrefix(f: Rate, n: nat, t: Rate)
    ensures ExactRates(f, n + 1, t) == ExactRates(f, n, t) + [ExactRate(f, n, t)]
    ensures Sum(ExactRates(f, n + 1, t)) == Sum(ExactRates(f, n, t)) + ExactRate(f, n, t)
  {
    assert ExactRates(f, n + 1, t)[..n] == ExactRates(f, n, t);
  }

  /** The geometric sum, multiplied out: all terms but the first and the one after the last cancel. */
  lemma {:induction false} GeometricSum(f: Rate, n: nat, t: Rate)
    ensures var sum := Sum(ExactRates(f, n, t)); sum - Times(t, sum) == f - ExactRate(f, n, t)
  {
    if n == 0 {
      assert ExactRate(f, 0, t) == f;
    } else {
      GeometricSum(f, n - 1, t);
      RatesOfPrefix(f, n - 1, t);
      NextRate(f, n - 1, t);
      Distributes(t, Sum(ExactRates(f, n - 1, t)), ExactRate(f, n - 1, t));
    }
  }

  lemma ExactBudget(f: Rate, n: nat, t: Rate)
    ensures Sum(ExactRates(f, n, t)) < f / (1.0 - t)
  {
    GeometricSum(f, n, t);
    NextRate(f, n, t);
    GeometricBound(Sum(ExactRates(f, n, t)), f, t);
  }

  // ---------- the assigned rates ----------

  lemma AssignedRateIsClose(env: Env, o: Object, eps: real, i: nat)
    requires RoundedWithin(env, eps) && 0.0 <= eps && Grown(env, o) && i < |o.filters|
    ensures var e := ExactRate(o.fpRate, i, o.tightening);
            Times(1.0 - eps, e) <= AssignedRates(env, o)[i] <= Times(1.0 + eps, e) && e > 0.0
  {
    var e := ExactRate(o.fpRate, i, o.tightening);
    NextRate(o.fpRate, i, o.tightening);
    assert FilterFollowsPlan(env, o, i);
    if i == 0 {
      assert e == o.fpRate;
      One(e);
      Monotone(1.0 - eps, 1.0, e);
      Monotone(1.0, 1.0 + eps, e);
    }
  }

  /** Numbers that are each at most `c` times the exact rates have a sum of at most `c` times theirs. */
  lemma {:induction false} SumIsClose(rates: seq<real>, f: Rate, t: Rate, c: real)
    requires forall i :: 0 <= i < |rates| ==> rates[i] <= Times(c, ExactRate(f, i, t))
    ensures Sum(rates) <= Times(c, Sum(ExactRates(f, |rates|, t)))
  {
    hide ExactRate;
    if rates != [] {
      var n := |rates| - 1;
      SumIsClose(rates[..n], f, t, c);
      RatesOfPrefix(f, n, t);
      Distributes(c, Sum(ExactRates(f, n, t)), ExactRate(f, n, t));
    }
  }

  lemma AssignedRatesDecrease(env: Env, o: Object, eps: real, i: nat)
    requires RoundedWithin(env, eps) && 0.0 <= eps && Grown(env, o) && 0 < i < |o.filters|
    requires Times(1.0 + eps, o.tightening) < 1.0 - eps
    ensures AssignedRates(env, o)[i] < AssignedRates(env, o)[i - 1]
  {
    var e := ExactRate(o.fpRate, i - 1, o.tightening);
    AssignedRateIsClose(env, o, eps, i - 1);
    AssignedRateIsClose(env, o, eps, i);
    NextRate(o.fpRate, i - 1, o.tightening);
    Associates(1.0 + eps, o.tightening, e);
    Monotone(Times(1.0 + eps, o.tightening), 1.0 - eps, e);
  }

  /**
   The rates given to the sub-filters of a grown object never add up to the geometric bound, give or take
   the rounding of a single rate, however often it scales. They stay above the smallest double after the
   first, and strictly decrease as long as the tightening ratio is not lost in the rounding.
   */
  lemma ErrorBudget(env: Env, o: Object, eps: real)
    requires RoundedWithin(env, eps) && 0.0 <= eps && Grown(env, o)
    ensures var rates := AssignedRates(env, o);
            && |rates| == |o.filters| && rates[0] == o.fpRate
            && Sum(rates) < Times(1.0 + eps, o.fpRate / (1.0 - o.tightening))
            && (Times(1.0 + eps, o.tightening) < 1.0 - eps ==> forall i :: 0 < i < |rates| ==> rates[i] < rates[i - 1])
            && (forall i :: 0 < i < |rates| ==> rates[i] > MIN_POSITIVE)
  {
    hide RoundedWithin;
    hide ExactRate;
    hide ExactRates;
    var rates, sum := AssignedRates(env, o), Sum(ExactRates(o.fpRate, |o.filters|, o.tightening));
    var bound := o.fpRate / (1.0 - o.tightening);
    forall i | 0 <= i < |rates|
      ensures rates[i] <= Times(1.0 + eps, ExactRate(o.fpRate, i, o.tightening)) && (i > 0 ==> rates[i] > MIN_POSITIVE)
    {
      AssignedRateIsClose(env, o, eps, i);
      assert FilterFollowsPlan(env, o, i);
    }
    SumIsClose(rates, o.fpRate, o.tightening, 1.0 + eps);
    ExactBudget(o.fpRate, |o.filters|, o.tightening);
    Monotone(sum, bound, 1.0 + eps);
    Commutes(sum, 1.0 + eps);
    Commutes(bound, 1.0 + eps);
    if Times(1.0 + eps, o.tightening) < 1.0 - eps {
      forall i | 0 < i < |rates| ensures rates[i] < rates[i - 1] {
        AssignedRatesDecrease(env, o, eps, i);
      }
    }
  }
}
