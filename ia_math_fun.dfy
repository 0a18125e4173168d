/**
 * The two parts of ia_math_fun.py that are not floating-point series:
 * the interval extension of the factorial and the module-level counts of
 * Taylor terms with their getters and setters.
 */
module IaMathFun {
  import opened IntervalArithmetics
  import RealFacts

  /** Python's `int()` of a number: truncation toward zero. */
  function Trunc(x: real): (k: int)
    ensures 0.0 <= x ==> k as real <= x < k as real + 1.0
    ensures x < 0.0 ==> k as real - 1.0 < x <= k as real
  {
    if x >= 0.0 then x.Floor else -((-x).Floor)
  }

  /** The product `2 * 3 * ... * k`; the empty product 1 when `k < 2`. */
  function Fact(k: int): real
    decreases k
  {
    if k < 2 then 1.0 else Fact(k - 1) * k as real
  }

  /** The loop `for i in range(2, k + 1): a = a * i` started from `a = 1`. */
  method ProductUpTo(k: int) returns (a: real)
    ensures a == Fact(k)
  {
    a := 1.0;
    var i := 2;
    while i <= k
      invariant 2 <= i && (k < 2 ==> i == 2) && (k >= 2 ==> i <= k + 1)
      invariant a == Fact(i - 1)
      decreases k - i
    {
      a := a * i as real;
      i := i + 1;
    }
  }

  /** `factorial(n)`: the factorials of the truncated ends of `n`. */
  method Factorial(n: Interval) returns (r: Interval)
    ensures r == Interval(Fact(Trunc(n.lo)), Fact(Trunc(n.hi)))
  {
    var a := ProductUpTo(Trunc(n.lo));
    var b := ProductUpTo(Trunc(n.hi));
    r := Interval(a, b);
  }

  /** Every factorial is at least 1, and exactly 1 below 2. */
  lemma {:induction false} FactAtLeastOne(k: int)
    ensures 1.0 <= Fact(k)
    ensures k < 2 ==> Fact(k) == 1.0
    decreases k
  {
    if k >= 2 {
      FactAtLeastOne(k - 1);
      MulNonnegLe(Fact(k - 1), k as real);
    }
  }

  /** `1 <= p` and `1 <= q` give `p <= p * q`. */
  lemma MulNonnegLe(p: real, q: real)
    requires 1.0 <= p && 1.0 <= q
    ensures p <= p * q
  {
    assert p * q - p == p * (q - 1.0);
    RealFacts.MulNonneg(p, q - 1.0);
  }

  /** The product loop grows with its bound. */
  lemma {:induction false} FactMonotone(j: int, k: int)
    requires j <= k
    ensures Fact(j) <= Fact(k)
    decreases k - j
  {
    if j < k {
      FactMonotone(j, k - 1);
      if k >= 2 {
        FactAtLeastOne(k - 1);
        MulNonnegLe(Fact(k - 1), k as real);
        assert Fact(k) == Fact(k - 1) * k as real;
      } else {
        assert Fact(k) == 1.0 == Fact(k - 1);
      }
    }
  }

  /** Truncation toward zero is monotone. */
  lemma TruncMonotone(x: real, y: real)
    requires x <= y
    ensures Trunc(x) <= Trunc(y)
  {
  }

  /** The result is a proper interval whenever the truncated ends are ordered,
    * in particular whenever `n` is. */
  lemma FactorialProper(n: Interval)
    requires n.lo <= n.hi
    ensures Fact(Trunc(n.lo)) <= Fact(Trunc(n.hi))
  {
    TruncMonotone(n.lo, n.hi);
    FactMonotone(Trunc(n.lo), Trunc(n.hi));
  }

  /** The factorial of every whole number in `n` lies in the result. */
  lemma FactorialEncloses(n: Interval, m: int)
    requires n.lo <= m as real <= n.hi
    ensures IsIn(Fact(m), Interval(Fact(Trunc(n.lo)), Fact(Trunc(n.hi))))
  {
    FactMonotone(Trunc(n.lo), m);
    FactMonotone(m, Trunc(n.hi));
  }

  /** The four module-level counts of Taylor terms. */
  class TaylorTerms {
    var exp: int
    var log: int
    var sin: int
    var cos: int

    /** The values the module starts with. */
    constructor ()
      ensures exp == 5 && log == 5 && sin == 9 && cos == 9
    {
      exp, log, sin, cos := 5, 5, 9, 9;
    }

    /** `get_exp_taylor_terms_number`. */
    function GetExp(): int reads this { exp }

    /** `get_log_taylor_terms_number`. */
    function GetLog(): int reads this { log }

    /** `get_sin_taylor_terms_number`. */
    function GetSin(): int reads this { sin }

    /** `get_cos_taylor_terms_number`. */
    function GetCos(): int reads this { cos }

    /** `set_exp_taylor_terms_number`: returns the previous count. */
    method SetExp(number: int) returns (previous: int)
      modifies this
      ensures previous == old(GetExp()) && GetExp() == number
      ensures log == old(log) && sin == old(sin) && cos == old(cos)
    {
      previous := exp;
      exp := number;
    }

    /** `set_log_taylor_terms_number`: returns the previous count. */
    method SetLog(number: int) returns (previous: int)
      modifies this
      ensures previous == old(GetLog()) && GetLog() == number
      ensures exp == old(exp) && sin == old(sin) && cos == old(cos)
    {
      previous := log;
      log := number;
    }

    /** `set_sin_taylor_terms_number`: returns the previous count. */
    method SetSin(number: int) returns (previous: int)
      modifies this
      ensures previous == old(GetSin()) && GetSin() == number
      ensures exp == old(exp) && log == old(log) && cos == old(cos)
    {
      previous := sin;
      sin := number;
    }

    /** `set_cos_taylor_terms_number`: returns the previous count. */
    method SetCos(number: int) returns (previous: int)
      modifies this
      ensures previous == old(GetCos()) && GetCos() == number
      ensures exp == old(exp) && log == old(log) && sin == old(sin)
    {
      previous := cos;
      cos := number;
    }
  }
}
