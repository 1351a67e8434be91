// Weighted sums over real sequences, the arithmetic shared by the poker solver's
// traversals. Sums are taken over a prefix, which is the order the loops add them in.
module Reals {

  /** Multiplication by name, so that a proof can treat products as opaque with `hide`. */
  function Times(w: real, x: real): real {
    w * x
  }

  lemma TimesAlgebra(a: real, w: real, x: real, y: real)
    ensures Times(a, x + y) == Times(a, x) + Times(a, y)
    ensures Times(a, x - y) == Times(a, x) - Times(a, y)
    ensures Times(a, Times(w, x)) == Times(Times(a, w), x)
    ensures Times(a, Times(w, x)) == Times(w, Times(a, x))
  {
    assert a * (w * x) == a * w * x == w * (a * x);
  }

  /** ws[0]*xs[0] + ... + ws[n-1]*xs[n-1] */
  function Dot(ws: seq<real>, xs: seq<real>, n: nat): real
    requires n <= |ws| && n <= |xs|
  {
    if n == 0 then 0.0 else Dot(ws, xs, n - 1) + Times(ws[n - 1], xs[n - 1])
  }

  function Sum(xs: seq<real>, n: nat): real
    requires n <= |xs|
  {
    if n == 0 then 0.0 else Sum(xs, n - 1) + xs[n - 1]
  }

  ghost predicate Distribution(ws: seq<real>) {
    && (forall i :: 0 <= i < |ws| ==> ws[i] >= 0.0)
    && Sum(ws, |ws|) == 1.0
  }

  function Uniform(n: nat): (ws: seq<real>)
    ensures |ws| == n
  {
    seq(n, i requires 0 <= i < n => 1.0 / (n as real))
  }

  function PointMass(n: nat, k: nat): (ws: seq<real>)
    ensures |ws| == n
  {
    seq(n, i requires 0 <= i < n => if i == k then 1.0 else 0.0)
  }

  lemma {:induction false} DotAgree(ws: seq<real>, xs: seq<real>, vs: seq<real>, ys: seq<real>, n: nat)
    requires n <= |ws| && n <= |xs| && n <= |vs| && n <= |ys|
    requires forall i :: 0 <= i < n ==> ws[i] * xs[i] == vs[i] * ys[i]
    ensures Dot(ws, xs, n) == Dot(vs, ys, n)
  {
    if n > 0 {
      DotAgree(ws, xs, vs, ys, n - 1);
    }
  }

  lemma {:induction false} SumConstant(xs: seq<real>, n: nat, c: real)
    requires n <= |xs|
    requires forall i :: 0 <= i < n ==> xs[i] == c
    ensures Sum(xs, n) == (n as real) * c
  {
    if n > 0 {
      SumConstant(xs, n - 1, c);
      assert (n as real) * c == ((n - 1) as real) * c + c;
    }
  }

  lemma UniformIsDistribution(n: nat)
    requires n > 0
    ensures Distribution(Uniform(n))
  {
    SumConstant(Uniform(n), n, 1.0 / (n as real));
  }

  lemma {:induction false} DotPointMass(n: nat, k: nat, xs: seq<real>, m: nat)
    requires m <= n && m <= |xs|
    ensures Dot(PointMass(n, k), xs, m) == if k < m then xs[k] else 0.0
  {
    if m > 0 {
      DotPointMass(n, k, xs, m - 1);
    }
  }

  lemma {:induction false} SumPointMass(n: nat, k: nat, m: nat)
    requires m <= n
    ensures Sum(PointMass(n, k), m) == if k < m then 1.0 else 0.0
  {
    if m > 0 {
      SumPointMass(n, k, m - 1);
    }
  }

  lemma PointMassIsDistribution(n: nat, k: nat)
    requires k < n
    ensures Distribution(PointMass(n, k))
  {
    SumPointMass(n, k, n);
  }

  /** A weighted average of values, all at most `top`, is at most `top` times the weight. */
  lemma {:induction false} DotAtMost(ws: seq<real>, xs: seq<real>, n: nat, top: real)
    requires n <= |ws| && n <= |xs|
    requires forall i :: 0 <= i < n ==> ws[i] >= 0.0 && xs[i] <= top
    ensures Dot(ws, xs, n) <= top * Sum(ws, n)
  {
    if n > 0 {
      DotAtMost(ws, xs, n - 1, top);
      assert ws[n - 1] * xs[n - 1] <= ws[n - 1] * top;
      assert top * Sum(ws, n) == top * Sum(ws, n - 1) + top * ws[n - 1];
    }
  }

  lemma {:induction false} DotLinear(ws: seq<real>, xs: seq<real>, ys: seq<real>, zs: seq<real>, a: real, n: nat)
    requires n <= |ws| && n <= |xs| && n <= |ys| && n <= |zs|
    requires forall i :: 0 <= i < n ==> zs[i] == xs[i] + Times(a, ys[i])
    ensures Dot(ws, zs, n) == Dot(ws, xs, n) + Times(a, Dot(ws, ys, n))
  {
    hide Times;
    if n == 0 {
      TimesZero(a);
    } else {
      var k := n - 1;
      DotLinear(ws, xs, ys, zs, a, k);
      TimesAlgebra(ws[k], a, xs[k], Times(a, ys[k]));
      TimesAlgebra(ws[k], a, ys[k], 0.0);
      TimesAlgebra(a, ws[k], Dot(ws, ys, k), Times(ws[k], ys[k]));
    }
  }

  lemma TimesZero(a: real)
    ensures Times(a, 0.0) == 0.0
  {
  }
}
