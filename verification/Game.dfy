// The extensive-form game of crates/poker-darwin/src/game.rs as a finite tree, and
// regret matching. A node carries the keys the `Game` trait hands out for its state.
module Game {
  import opened Reals

  datatype Tree =
    | Terminal(pay0: real, pay1: real)
    | Chance(key: string, probs: seq<real>, children: seq<Tree>)
    | Decision(key: string, player: nat, infoset: string, children: seq<Tree>)

  /** Strategy table: information-set key to one probability per legal action. */
  type Strategy = map<string, seq<real>>

  function Payoff(t: Tree, p: nat): real
    requires t.Terminal?
  {
    if p == 0 then t.pay0 else t.pay1
  }

  ghost predicate WellFormed(t: Tree) {
    match t
    case Terminal(_, _) => true
    case Chance(_, ps, cs) => |ps| == |cs| && forall i :: 0 <= i < |cs| ==> WellFormed(cs[i])
    case Decision(_, p, _, cs) => p < 2 && |cs| > 0 && forall i :: 0 <= i < |cs| ==> WellFormed(cs[i])
  }

  ghost predicate ZeroSum(t: Tree) {
    match t
    case Terminal(a, b) => b == -a
    case Chance(_, _, cs) => forall i :: 0 <= i < |cs| ==> ZeroSum(cs[i])
    case Decision(_, _, _, cs) => forall i :: 0 <= i < |cs| ==> ZeroSum(cs[i])
  }

  /** The stored row if it has one entry per action, else the uniform row. */
  function StrategyFor(table: Strategy, key: string, n: nat): (row: seq<real>)
    ensures |row| == n
  {
    if key in table && |table[key]| == n then table[key] else Uniform(n)
  }

  ghost predicate Profile(table: Strategy) {
    forall k :: k in table ==> Distribution(table[k])
  }

  lemma RowIsDistribution(table: Strategy, key: string, n: nat)
    requires Profile(table) && n > 0
    ensures Distribution(StrategyFor(table, key, n))
  {
    UniformIsDistribution(n);
  }

  /** Expected payoff to `p` when `p` plays `mine` and the other player plays `theirs`. */
  function Utility(t: Tree, p: nat, mine: Strategy, theirs: Strategy): real
  {
    if t.Terminal? then Payoff(t, p)
    else Dot(NodeWeights(t, p, mine, theirs), Utilities(t.children, p, mine, theirs), |t.children|)
  }

  /** How likely each child is: the chance distribution, or the acting player's row. */
  function NodeWeights(t: Tree, p: nat, mine: Strategy, theirs: Strategy): (ws: seq<real>)
    requires !t.Terminal?
    ensures |ws| == |t.children|
  {
    if t.Chance? then (if |t.probs| == |t.children| then t.probs else seq(|t.children|, _ => 0.0))
    else StrategyFor(if t.player == p then mine else theirs, t.infoset, |t.children|)
  }

  function Utilities(ts: seq<Tree>, p: nat, mine: Strategy, theirs: Strategy): (us: seq<real>)
    ensures |us| == |ts|
    ensures forall i :: 0 <= i < |ts| ==> us[i] == Utility(ts[i], p, mine, theirs)
  {
    seq(|ts|, i requires 0 <= i < |ts| => Utility(ts[i], p, mine, theirs))
  }

  /** In a zero-sum game the two players' expected payoffs cancel. */
  lemma {:induction false} UtilitiesCancel(t: Tree, a: Strategy, b: Strategy)
    requires WellFormed(t) && ZeroSum(t)
    ensures Utility(t, 1, b, a) == -Utility(t, 0, a, b)
  {
    if !t.Terminal? {
      var us, vs := Utilities(t.children, 0, a, b), Utilities(t.children, 1, b, a);
      forall i | 0 <= i < |t.children| ensures vs[i] == -us[i] {
        UtilitiesCancel(t.children[i], a, b);
      }
      var ws := NodeWeights(t, 0, a, b);
      assert t.Decision? ==> t.player < 2;
      assert ws == NodeWeights(t, 1, b, a);
      var zeros := seq(|us|, _ => 0.0);
      DotLinear(ws, zeros, us, vs, -1.0, |us|);
      DotZeros(ws, zeros, |us|);
    }
  }

  lemma {:induction n} DotZeros(ws: seq<real>, zs: seq<real>, n: nat)
    requires n <= |ws| && n <= |zs| && (forall i :: 0 <= i < n ==> zs[i] == 0.0)
    ensures Dot(ws, zs, n) == 0.0
  {
  }

  // ---------------------------------------------------------------- regret matching

  function Positive(r: real): real {
    if r > 0.0 then r else 0.0
  }

  function Positives(rs: seq<real>): (ps: seq<real>)
    ensures |ps| == |rs|
  {
    seq(|rs|, i requires 0 <= i < |rs| => Positive(rs[i]))
  }

  /** Divided by their sum; uniform when the sum is not positive. */
  function Normalised(xs: seq<real>): (row: seq<real>)
    ensures |row| == |xs|
  {
    var total := Sum(xs, |xs|);
    if total > 0.0 then seq(|xs|, i requires 0 <= i < |xs| => xs[i] / total) else Uniform(|xs|)
  }

  /** Positive regrets normalised; uniform when no regret is positive. */
  function Matched(rs: seq<real>): (row: seq<real>)
    ensures |row| == |rs|
  {
    Normalised(Positives(rs))
  }

  lemma {:induction false} SumNonNegative(xs: seq<real>, n: nat)
    requires n <= |xs| && forall i :: 0 <= i < n ==> xs[i] >= 0.0
    ensures Sum(xs, n) >= 0.0
    ensures forall i :: 0 <= i < n ==> xs[i] <= Sum(xs, n)
  {
    if n > 0 {
      SumNonNegative(xs, n - 1);
    }
  }

  lemma {:induction false} SumQuotient(xs: seq<real>, c: real, ys: seq<real>, n: nat)
    requires c != 0.0 && n <= |xs| && n <= |ys| && forall i :: 0 <= i < n ==> ys[i] == xs[i] / c
    ensures Sum(ys, n) == Sum(xs, n) / c
  {
    if n > 0 {
      SumQuotient(xs, c, ys, n - 1);
    }
  }

  lemma NormalisedIsDistribution(xs: seq<real>)
    requires |xs| > 0 && forall i :: 0 <= i < |xs| ==> xs[i] >= 0.0
    ensures Distribution(Normalised(xs))
  {
    var total := Sum(xs, |xs|);
    if total > 0.0 {
      SumQuotient(xs, total, Normalised(xs), |xs|);
      QuotientUndone(total, total);
      forall i | 0 <= i < |xs| ensures Normalised(xs)[i] >= 0.0 {
        assert xs[i] / total >= 0.0;
      }
    } else {
      UniformIsDistribution(|xs|);
    }
  }

  /** Normalising only rescales: every entry times the sum is what it was. */
  lemma NormalisedIsProportional(xs: seq<real>, i: nat)
    requires i < |xs| && forall j :: 0 <= j < |xs| ==> xs[j] >= 0.0
    ensures Times(Sum(xs, |xs|), Normalised(xs)[i]) == xs[i]
  {
    var total := Sum(xs, |xs|);
    SumNonNegative(xs, |xs|);
    if total > 0.0 {
      QuotientUndone(xs[i], total);
    } else {
      assert xs[i] == 0.0 && total == 0.0;
    }
  }

  lemma MatchedIsDistribution(rs: seq<real>)
    requires |rs| > 0
    ensures Distribution(Matched(rs))
  {
    NormalisedIsDistribution(Positives(rs));
  }

  /** The row is the positive part of the regrets up to one common factor. */
  lemma MatchedIsProportional(rs: seq<real>, i: nat)
    requires i < |rs|
    ensures Times(Sum(Positives(rs), |rs|), Matched(rs)[i]) == Positive(rs[i])
  {
    NormalisedIsProportional(Positives(rs), i);
  }

  lemma QuotientUndone(x: real, c: real)
    requires c > 0.0
    ensures Times(c, x / c) == x
    ensures c / c == 1.0
  {
  }

  method RegretMatching(regrets: seq<real>, out: array<real>)
    requires out.Length == |regrets|
    modifies out
    ensures out[..] == Matched(regrets)
  {
    var n := out.Length;
    var ps := Positives(regrets);
    var sum := 0.0;
    for i := 0 to n
      invariant forall j :: 0 <= j < i ==> out[j] == ps[j]
      invariant sum == Sum(ps, i)
    {
      var pos := if regrets[i] > 0.0 then regrets[i] else 0.0;
      out[i] := pos;
      sum := sum + pos;
    }
    if sum > 0.0 {
      for i := 0 to n
        invariant forall j :: 0 <= j < i ==> out[j] == ps[j] / sum
        invariant forall j :: i <= j < n ==> out[j] == ps[j]
      {
        out[i] := out[i] / sum;
      }
    } else {
      for i := 0 to n
        invariant forall j :: 0 <= j < i ==> out[j] == 1.0 / (n as real)
      {
        out[i] := 1.0 / (n as real);
      }
    }
  }
}
