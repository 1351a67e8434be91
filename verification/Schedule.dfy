// Chebyshev hyperparameter schedules (crates/poker-darwin/src/cfr.rs, `Schedule`).
module Schedule {
  import opened Reals
  import opened Wrappers

  const MAX_CHEB := 8

  function Next(x: real, t: real, t': real): real {
    2.0 * x * t - t'
  }

  /** Chebyshev polynomials of the first kind. */
  function Chebyshev(n: nat, x: real): real {
    if n == 0 then 1.0 else if n == 1 then x else Next(x, Chebyshev(n - 1, x), Chebyshev(n - 2, x))
  }

  /** c[k]*T_k(x) + ... + c[n-1]*T_{n-1}(x) */
  function Tail(c: seq<real>, x: real, k: nat): real
    requires k <= |c|
    decreases |c| - k
  {
    if k == |c| then 0.0 else Times(c[k], Chebyshev(k, x)) + Tail(c, x, k + 1)
  }

  /** Up to eight coefficients and output bounds; None is an infinite bound. */
  datatype Schedule = Schedule(coeffs: seq<real>, lo: Option<real>, hi: Option<real>)

  ghost predicate Valid(s: Schedule) {
    1 <= |s.coeffs| <= MAX_CHEB && (s.lo.Some? && s.hi.Some? ==> s.lo.value <= s.hi.value)
  }

  function Constant(v: real): (s: Schedule)
    ensures Valid(s)
  {
    Schedule([v], None, None)
  }

  function Linear(start: real, end: real): (s: Schedule)
    ensures Valid(s)
  {
    Schedule([0.5 * (start + end), 0.5 * (end - start)],
             Some(if start < end then start else end), Some(if start < end then end else start))
  }

  /** The value two consecutive Clenshaw coefficients stand for. */
  ghost function Held(b1: real, b2: real, t1: real, t0: real): real {
    b1 * t1 - b2 * t0
  }

  lemma Recurrence(ci: real, x: real, b: real, b1: real, b2: real, t: real, t': real)
    requires b == ci + 2.0 * x * b1 - b2
    ensures Times(ci, t) + Held(b1, b2, Next(x, t, t'), t) == Held(b, b1, t, t')
  {
  }

  lemma ClenshawStep(c: seq<real>, x: real, b: real, b1: real, b2: real, i: nat)
    requires 0 < i < |c| && b == c[i] + 2.0 * x * b1 - b2
    requires Tail(c, x, i + 1) == Held(b1, b2, Chebyshev(i + 1, x), Chebyshev(i, x))
    ensures Tail(c, x, i) == Held(b, b1, Chebyshev(i, x), Chebyshev(i - 1, x))
  {
    hide Times, Held, Next;
    Recurrence(c[i], x, b, b1, b2, Chebyshev(i, x), Chebyshev(i - 1, x));
  }

  /** Clenshaw's recurrence computes the Chebyshev sum. */
  method Clenshaw(c: seq<real>, x: real) returns (y: real)
    requires |c| >= 1
    ensures y == Tail(c, x, 0)
  {
    hide Tail, Held, Chebyshev;
    ClenshawEnds(c, x);
    if |c| == 1 {
      return c[0];
    }
    var x2 := 2.0 * x;
    var b2, b1 := 0.0, 0.0;
    var i := |c| - 1;
    while i > 0
      invariant 0 <= i < |c|
      invariant Tail(c, x, i + 1) == Held(b1, b2, Chebyshev(i + 1, x), Chebyshev(i, x))
    {
      var b := c[i] + x2 * b1 - b2;
      ClenshawStep(c, x, b, b1, b2, i);
      b2, b1 := b1, b;
      i := i - 1;
    }
    y := c[0] + x * b1 - b2;
    FirstTerm(c, x, b1, b2);
  }

  lemma ClenshawEnds(c: seq<real>, x: real)
    requires |c| >= 1
    ensures |c| == 1 ==> Tail(c, x, 0) == c[0]
    ensures Tail(c, x, |c|) == 0.0 == Held(0.0, 0.0, Chebyshev(|c|, x), Chebyshev(|c| - 1, x))
  {
    assert |c| == 1 ==> Tail(c, x, 1) == 0.0;
  }

  lemma FirstTerm(c: seq<real>, x: real, b1: real, b2: real)
    requires |c| >= 1 && Tail(c, x, 1) == Held(b1, b2, Chebyshev(1, x), Chebyshev(0, x))
    ensures Tail(c, x, 0) == c[0] + x * b1 - b2
  {
  }

  ghost function Clamp(y: real, lo: Option<real>, hi: Option<real>): real {
    if lo.Some? && y < lo.value then lo.value else if hi.Some? && y > hi.value then hi.value else y
  }

  /** How much of the run is over: all of it from the horizon on, and nothing ever of a run without one. */
  ghost function Progress(t: nat, horizon: nat): real {
    if horizon == 0 then 0.0 else if t >= horizon then 1.0 else t as real / horizon as real
  }

  method At(s: Schedule, t: nat, horizon: nat) returns (y: real)
    requires Valid(s)
    ensures y == Clamp(Tail(s.coeffs, 2.0 * Progress(t, horizon) - 1.0, 0), s.lo, s.hi)
    ensures (s.lo.Some? ==> s.lo.value <= y) && (s.hi.Some? ==> y <= s.hi.value)
  {
    var progress := 0.0;
    if horizon > 0 {
      progress := t as real / horizon as real;
      FractionIsBounded(t, horizon);
      if progress > 1.0 { progress := 1.0; }
    }
    y := Clenshaw(s.coeffs, 2.0 * progress - 1.0);
    if s.lo.Some? && y < s.lo.value {
      y := s.lo.value;
    } else if s.hi.Some? && y > s.hi.value {
      y := s.hi.value;
    }
  }

  lemma FractionIsBounded(t: nat, horizon: nat)
    requires horizon > 0
    ensures t >= horizon <==> t as real / horizon as real >= 1.0
  {
    var q := t as real / horizon as real;
    assert q * horizon as real == t as real;
    if q >= 1.0 {
      assert (q - 1.0) * horizon as real >= 0.0;
    } else {
      assert (1.0 - q) * horizon as real > 0.0;
    }
  }

  /** A constant schedule is that constant throughout. */
  lemma ConstantStays(v: real, t: nat, horizon: nat)
    ensures var s := Constant(v); Clamp(Tail(s.coeffs, 2.0 * Progress(t, horizon) - 1.0, 0), s.lo, s.hi) == v
  {
    ClenshawEnds([v], 2.0 * Progress(t, horizon) - 1.0);
  }

  /** A linear schedule is the ramp from `start` to `end`; clamping never changes it. */
  lemma LinearRamps(start: real, end: real, p: real)
    requires 0.0 <= p <= 1.0
    ensures var s := Linear(start, end);
            var y := Tail(s.coeffs, 2.0 * p - 1.0, 0);
            y == start + p * (end - start) == Clamp(y, s.lo, s.hi)
  {
    var s, x := Linear(start, end), 2.0 * p - 1.0;
    var c := s.coeffs;
    assert Tail(c, x, 2) == 0.0 && Tail(c, x, 1) == c[1] * x;
    assert Tail(c, x, 0) == c[0] + c[1] * x;
    var d := end - start;
    Midpoint(start, d, p, c[1]);
    if start < end {
      Between(p, d);
    } else {
      Between(p, -d);
      Negated(p, d);
    }
    assert Tail(c, x, 0) == start + p * d;
  }

  lemma Midpoint(start: real, d: real, p: real, half: real)
    requires half == 0.5 * d
    ensures start + half + half * (2.0 * p - 1.0) == start + p * d
  {
    assert half * (2.0 * p - 1.0) == half * (2.0 * p) - half;
    assert half * (2.0 * p) == p * (2.0 * half);
  }

  lemma Negated(p: real, d: real)
    ensures p * -d == -(p * d)
  {
  }

  lemma Between(p: real, d: real)
    requires 0.0 <= p <= 1.0 && d >= 0.0
    ensures 0.0 <= p * d <= d
  {
    assert (1.0 - p) * d >= 0.0;
  }
}
