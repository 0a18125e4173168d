/**
 * The smooth piecewise quadratic under-estimator of psqe.py.
 *
 * On `[a, b]` the objective's second derivative lies in `[alp, bet]`.  The
 * estimator is made of three parabolas: `q1` leaves `(a, f(a))` with slope
 * `f'(a)` and curvature `alp`, `q2` continues `q1` from the breakpoint `c`
 * with curvature `bet`, and `q3` reaches `(b, f(b))` with slope `f'(b)` and
 * curvature `alp`.  The breakpoints `c` and `d = c + delt` are chosen so
 * that the three pieces join smoothly.  The objective enters only through
 * the four numbers `fa, fb, dfa, dfb`.
 */
module Psqe {
  import opened Common
  import RealFacts

  datatype Psqe = Psqe(a: real, b: real, alp: real, bet: real,
                       fa: real, fb: real, dfa: real, dfb: real,
                       c: real, d: real)

  /** `n / k`, as the number that `k` multiplies to `n`. */
  function Ratio(n: real, k: real): (t: real)
    requires k != 0.0
    ensures k * t == n
  {
    n / k
  }

  /** `delt`, the distance from `c` to `d`. */
  function Delt(a: real, b: real, alp: real, bet: real, dfa: real, dfb: real): (r: real)
    requires bet != alp
    ensures r * (bet - alp) == dfb - dfa - alp * (b - a)
  {
    Ratio(dfb - dfa - alp * (b - a), bet - alp)
  }

  /** The numerator of the closed form of `c`. */
  function CNumerator(a: real, b: real, alp: real, bet: real, fa: real, fb: real,
                      dfa: real, dfb: real, delt: real): real
  {
    (delt - a) * dfa + (b - delt) * dfb + 0.5 * delt * delt * (bet - alp)
    + alp * delt * (b - a) + 0.5 * alp * (a * a - b * b) + fa - fb
  }

  /**
   * The constructor: the breakpoints from the endpoint data.  Both float
   * divisions raise when their divisor is zero: `bet == alp` and `delt == 0`.
   */
  function Build(a: real, b: real, alp: real, bet: real,
                 fa: real, fb: real, dfa: real, dfb: real): (r: Result<Psqe>)
    ensures r.Ok? <==> bet != alp && Delt(a, b, alp, bet, dfa, dfb) != 0.0
    ensures r.Ok? ==> r.value.a == a && r.value.b == b && r.value.alp == alp && r.value.bet == bet
    ensures r.Ok? ==> r.value.fa == fa && r.value.fb == fb && r.value.dfa == dfa && r.value.dfb == dfb
    ensures r.Ok? ==> Joined(r.value)
  {
    if bet - alp == 0.0 then Fail("ZeroDivisionError")
    else
      var delt := Delt(a, b, alp, bet, dfa, dfb);
      if delt * (bet - alp) == 0.0 then Fail("ZeroDivisionError")
      else
        var c := Ratio(CNumerator(a, b, alp, bet, fa, fb, dfa, dfb, delt), delt * (bet - alp));
        Ok(Psqe(a, b, alp, bet, fa, fb, dfa, dfb, c, c + delt))
  }

  /**
   * What the constructor establishes about the breakpoints, with the two
   * divisions multiplied out.
   */
  predicate Joined(p: Psqe)
  {
    var delt := p.d - p.c;
    p.bet != p.alp && delt != 0.0
    && delt * (p.bet - p.alp) == p.dfb - p.dfa - p.alp * (p.b - p.a)
    && p.c * (delt * (p.bet - p.alp)) == CNumerator(p.a, p.b, p.alp, p.bet, p.fa, p.fb, p.dfa, p.dfb, delt)
  }

  /** The parabola with value `v`, slope `s` and curvature `k` at `e`. */
  function Parab(v: real, s: real, k: real, e: real, x: real): real
  {
    v + s * (x - e) + 0.5 * k * (x - e) * (x - e)
  }

  /** The first piece, around `a` with curvature `alp`. */
  function Q1(p: Psqe, x: real): real { Parab(p.fa, p.dfa, p.alp, p.a, x) }

  /** The second piece, continuing `q1` from `c` with curvature `bet`. */
  function Q2(p: Psqe, x: real): real { Parab(Q1(p, p.c), D1(p, p.c), p.bet, p.c, x) }

  /** The third piece, around `b` with curvature `alp`. */
  function Q3(p: Psqe, x: real): real { Parab(p.fb, p.dfb, p.alp, p.b, x) }

  /** The slope of the first piece. */
  function D1(p: Psqe, x: real): real { p.dfa + p.alp * (x - p.a) }

  /** The slope of the second piece. */
  function D2(p: Psqe, x: real): real { D1(p, p.c) + p.bet * (x - p.c) }

  /** The slope of the third piece. */
  function D3(p: Psqe, x: real): real { p.dfb + p.alp * (x - p.b) }

  /** `underestimator`: `q1` left of `c`, `q2` up to `d`, `q3` from `d` on. */
  function Underestimator(p: Psqe, x: real): real
  {
    if x < p.c then Q1(p, x) else if x < p.d then Q2(p, x) else Q3(p, x)
  }

  /** The slope of the estimator, with the same choice of piece. */
  function Derivative(p: Psqe, x: real): real
  {
    if x < p.c then D1(p, x) else if x < p.d then D2(p, x) else D3(p, x)
  }

  // ---------------------------------------------------------------------
  // Properties
  // ---------------------------------------------------------------------

  /**
   * A parabola seen from another point `y`: its value and slope there,
   * with the same curvature, describe the same parabola.
   */
  lemma Recentre(v: real, s: real, k: real, e: real, y: real, x: real)
    ensures Parab(v, s, k, e, x) == Parab(Parab(v, s, k, e, y), s + k * (y - e), k, y, x)
  {
  }

  /** The slope `D1` is the derivative of `Q1`: seen from any point `y`,
    * `Q1` is the parabola with that value, slope and curvature `alp`. */
  lemma FirstPieceFrom(p: Psqe, y: real, x: real)
    ensures Q1(p, x) == Parab(Q1(p, y), D1(p, y), p.alp, y, x)
  {
    Recentre(p.fa, p.dfa, p.alp, p.a, y, x);
  }

  /** The slope `D2` is the derivative of `Q2`. */
  lemma SecondPieceFrom(p: Psqe, y: real, x: real)
    ensures Q2(p, x) == Parab(Q2(p, y), D2(p, y), p.bet, y, x)
  {
    var v, s := Q1(p, p.c), D1(p, p.c);
    var w, t := Q2(p, y), D2(p, y);
    assert w == Parab(v, s, p.bet, p.c, y);
    assert t == s + p.bet * (y - p.c);
    Recentre(v, s, p.bet, p.c, y, x);
  }

  /** The slope `D3` is the derivative of `Q3`. */
  lemma ThirdPieceFrom(p: Psqe, y: real, x: real)
    ensures Q3(p, x) == Parab(Q3(p, y), D3(p, y), p.alp, y, x)
  {
    var w, t := Q3(p, y), D3(p, y);
    assert w == Parab(p.fb, p.dfb, p.alp, p.b, y);
    assert t == p.dfb + p.alp * (y - p.b);
    Recentre(p.fb, p.dfb, p.alp, p.b, y, x);
  }

  /** The estimator interpolates the data at the ends of `[a, b]`. */
  lemma EndpointsMatch(p: Psqe)
    ensures Q1(p, p.a) == p.fa && D1(p, p.a) == p.dfa
    ensures Q3(p, p.b) == p.fb && D3(p, p.b) == p.dfb
    ensures p.a < p.c ==> Underestimator(p, p.a) == p.fa
    ensures p.c <= p.d <= p.b ==> Underestimator(p, p.b) == p.fb
  {
  }

  /** At `c` the second piece starts with the value and slope of the first. */
  lemma SmoothAtC(p: Psqe)
    ensures Q2(p, p.c) == Q1(p, p.c) && D2(p, p.c) == D1(p, p.c)
  {
  }

  /** The slope of the middle piece meets the slope of the third one at `d`. */
  lemma SlopesMeetAtD(p: Psqe)
    requires Joined(p)
    ensures D2(p, p.d) == D3(p, p.d)
  {
    SlopesMeetGivenDelt(p);
  }

  /** The same from the equation that defines `delt` alone. */
  lemma SlopesMeetGivenDelt(p: Psqe)
    requires (p.d - p.c) * (p.bet - p.alp) == p.dfb - p.dfa - p.alp * (p.b - p.a)
    ensures D2(p, p.d) == D3(p, p.d)
  {
    var u, delt, len := p.c - p.a, p.d - p.c, p.b - p.a;
    assert D2(p, p.d) == p.dfa + p.alp * u + p.bet * delt;
    assert p.d - p.b == u + delt - len;
    SlopeIdentity(p.dfa, p.dfb, p.alp, p.bet, u, delt, len);
  }

  /** The slope identity behind `delt`, over plain numbers. */
  lemma SlopeIdentity(dfa: real, dfb: real, alp: real, bet: real, u: real, delt: real, len: real)
    requires delt * (bet - alp) == dfb - dfa - alp * len
    ensures dfa + alp * u + bet * delt == dfb + alp * (u + delt - len)
  {
    assert bet * delt == alp * delt + delt * (bet - alp);
    assert alp * (u + delt - len) == alp * u + alp * delt - alp * len;
  }

  /**
   * The value identity behind the closed form of `c`, over plain numbers:
   * with `u = c - a`, `L = b - a` and `k = bet - alp`, the middle piece and
   * the third piece agree at `c + delt`.
   */
  lemma ValueIdentity(fa: real, fb: real, dfa: real, dfb: real, alp: real, k: real,
                      u: real, delt: real, len: real)
    requires delt * k == dfb - dfa - alp * len
    requires u * (delt * k) == fa - fb + delt * (dfa - dfb) + 0.5 * k * delt * delt
                               + dfb * len - 0.5 * alp * len * len + alp * delt * len
    ensures fa + dfa * u + 0.5 * alp * u * u + (dfa + alp * u) * delt + 0.5 * (alp + k) * delt * delt
         == fb + dfb * (u + delt - len) + 0.5 * alp * (u + delt - len) * (u + delt - len)
  {
    // The difference of the two sides, expanded, is the second hypothesis
    // with `u * (delt * k)` replaced by `u * (dfb - dfa - alp * len)`.
    assert u * (delt * k) == u * (dfb - dfa - alp * len);
  }

  /** The closed form of `c`, moved to the origin `a`. */
  lemma ShiftedNumerator(p: Psqe)
    requires Joined(p)
    ensures (p.c - p.a) * ((p.d - p.c) * (p.bet - p.alp))
         == p.fa - p.fb + (p.d - p.c) * (p.dfa - p.dfb) + 0.5 * (p.bet - p.alp) * (p.d - p.c) * (p.d - p.c)
            + p.dfb * (p.b - p.a) - 0.5 * p.alp * (p.b - p.a) * (p.b - p.a) + p.alp * (p.d - p.c) * (p.b - p.a)
  {
    var delt, k := p.d - p.c, p.bet - p.alp;
    assert p.a * (delt * k) == p.a * (p.dfb - p.dfa - p.alp * (p.b - p.a));
  }

  /** The middle piece meets the third piece at `d`: the estimator is continuous there. */
  lemma ValuesMeetAtD(p: Psqe)
    requires Joined(p)
    ensures Q2(p, p.d) == Q3(p, p.d)
  {
    SecondAtD(p);
    ThirdAtD(p);
    ClosedFormsAgree(p);
  }

  /** The middle piece at `d`, in the offsets `u = c - a` and `delt = d - c`. */
  function SecondAtDForm(p: Psqe): real
  {
    var u, delt := p.c - p.a, p.d - p.c;
    p.fa + p.dfa * u + 0.5 * p.alp * u * u + (p.dfa + p.alp * u) * delt
    + 0.5 * (p.alp + (p.bet - p.alp)) * delt * delt
  }

  /** The third piece at `d`, in the offset `u + delt - len` with `len = b - a`. */
  function ThirdAtDForm(p: Psqe): real
  {
    var u, delt, len := p.c - p.a, p.d - p.c, p.b - p.a;
    p.fb + p.dfb * (u + delt - len) + 0.5 * p.alp * (u + delt - len) * (u + delt - len)
  }

  /** `SecondAtDForm` is the middle piece at `d`. */
  lemma SecondAtD(p: Psqe)
    ensures Q2(p, p.d) == SecondAtDForm(p)
  {
    var u, delt := p.c - p.a, p.d - p.c;
    assert Q1(p, p.c) == p.fa + p.dfa * u + 0.5 * p.alp * u * u;
    assert D1(p, p.c) == p.dfa + p.alp * u;
    assert p.alp + (p.bet - p.alp) == p.bet;
  }

  /** `ThirdAtDForm` is the third piece at `d`. */
  lemma ThirdAtD(p: Psqe)
    ensures Q3(p, p.d) == ThirdAtDForm(p)
  {
    assert p.d - p.b == (p.c - p.a) + (p.d - p.c) - (p.b - p.a);
  }

  /** On a joined estimator the two closed forms agree: the identity behind the formula for `c`. */
  lemma ClosedFormsAgree(p: Psqe)
    requires Joined(p)
    ensures SecondAtDForm(p) == ThirdAtDForm(p)
  {
    ShiftedNumerator(p);
    ValueIdentity(p.fa, p.fb, p.dfa, p.dfb, p.alp, p.bet - p.alp, p.c - p.a, p.d - p.c, p.b - p.a);
  }

  /** A built estimator is continuous and smooth at both breakpoints. */
  lemma BuildIsSmooth(a: real, b: real, alp: real, bet: real,
                      fa: real, fb: real, dfa: real, dfb: real)
    requires Build(a, b, alp, bet, fa, fb, dfa, dfb).Ok?
    ensures var p := Build(a, b, alp, bet, fa, fb, dfa, dfb).value;
      Q2(p, p.c) == Q1(p, p.c) && D2(p, p.c) == D1(p, p.c)
      && Q2(p, p.d) == Q3(p, p.d) && D2(p, p.d) == D3(p, p.d)
  {
    var p := Build(a, b, alp, bet, fa, fb, dfa, dfb).value;
    SlopesMeetAtD(p);
    ValuesMeetAtD(p);
  }

  // ---------------------------------------------------------------------
  // Under-estimation
  // ---------------------------------------------------------------------

  /** `g` at `y` lies on or above the chord from `(lo, glo)` to `(hi, ghi)`, with the division multiplied out. */
  predicate AboveChord(lo: real, hi: real, y: real, glo: real, ghi: real, g: real)
  {
    (hi - lo) * g >= (hi - y) * glo + (y - lo) * ghi
  }

  /** Above a chord with non-negative ends, strictly inside it, a value is non-negative. */
  lemma AboveNonnegChord(lo: real, hi: real, y: real, glo: real, ghi: real, g: real)
    requires lo <= y < hi && 0.0 <= glo && 0.0 <= ghi
    requires AboveChord(lo, hi, y, glo, ghi, g)
    ensures 0.0 <= g
  {
    RealFacts.MulNonneg(hi - y, glo);
    RealFacts.MulNonneg(y - lo, ghi);
    if g < 0.0 {
      RealFacts.MulPos(hi - lo, -g);
    }
  }

  /**
   * The estimator lies below every objective `f` that meets the bounds it is
   * built from, stated without derivatives:
   *  - `f` lies above the parabola `q1` that leaves `a` with curvature `alp`,
   *    and above `q3` that reaches `b` with curvature `alp` (what Taylor's
   *    theorem gives from `f'' >= alp` on `[a, b]`);
   *  - on `[c, d]` the gap `f - q2` lies above its chord (what `f'' <= bet`
   *    gives there, `q2` having curvature `bet`).
   * With both breakpoints in `[a, b]`, the estimator is at most `f` on `[a, b]`.
   */
  lemma UnderestimatorBelow(p: Psqe, f: real -> real, x: real)
    requires Joined(p) && p.a <= p.c && p.d <= p.b && p.a <= x <= p.b
    requires forall y :: p.a <= y <= p.b ==> Q1(p, y) <= f(y) && Q3(p, y) <= f(y)
    requires forall y :: p.c <= y <= p.d ==>
               AboveChord(p.c, p.d, y, f(p.c) - Q2(p, p.c), f(p.d) - Q2(p, p.d), f(y) - Q2(p, y))
    ensures Underestimator(p, x) <= f(x)
  {
    if x < p.c {
      assert Q1(p, x) <= f(x);
    } else if p.d <= x {
      assert Q3(p, x) <= f(x);
    } else {
      assert Q2(p, p.c) <= f(p.c) by { SmoothAtC(p); assert Q1(p, p.c) <= f(p.c); }
      assert Q2(p, p.d) <= f(p.d) by { ValuesMeetAtD(p); assert Q3(p, p.d) <= f(p.d); }
      AboveNonnegChord(p.c, p.d, x, f(p.c) - Q2(p, p.c), f(p.d) - Q2(p, p.d), f(x) - Q2(p, x));
    }
  }
}
