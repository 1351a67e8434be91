// Why CFR works (crates/poker-darwin/src/cfr.rs, `average_strategy`): the averaged strategies are as close to a
// Nash equilibrium as the accumulated regrets are small.
module Convergence {
  import opened Reals
  import opened Game
  import opened Exploit
  import opened Paths
  import opened Wrappers
  import Cfr

  // ---------------------------------------------------------------- sums over the iterations

  lemma DotPlus(ws: seq<real>, xs: seq<real>, ys: seq<real>, zs: seq<real>, n: nat)
    requires n <= |ws| && n <= |xs| && n <= |ys| && n <= |zs|
    requires forall i :: 0 <= i < n ==> zs[i] == xs[i] + ys[i]
    ensures Dot(ws, zs, n) == Dot(ws, xs, n) + Dot(ws, ys, n)
  {
    DotLinear(ws, xs, ys, zs, 1.0, n);
  }

  /** A common factor comes out of the sum. */
  lemma DotFactor(ws: seq<real>, xs: seq<real>, zs: seq<real>, c: real, n: nat)
    requires n <= |ws| && n <= |xs| && n <= |zs| && forall i :: 0 <= i < n ==> zs[i] == Times(c, xs[i])
    ensures Dot(ws, zs, n) == Times(c, Dot(ws, xs, n))
  {
    hide Times;
    var zeros := seq(n, _ => 0.0);
    DotZeros(ws, zeros, n);
    DotLinear(ws, zeros, xs, zs, c, n);
  }

  lemma {:induction false} DotOnes(ws: seq<real>, xs: seq<real>, c: real, n: nat)
    requires n <= |ws| && n <= |xs| && forall i :: 0 <= i < n ==> xs[i] == c
    ensures Dot(ws, xs, n) == Times(Sum(ws, n), c)
  {
    if n > 0 {
      DotOnes(ws, xs, c, n - 1);
      assert (Sum(ws, n - 1) + ws[n - 1]) * c == Sum(ws, n - 1) * c + ws[n - 1] * c;
    }
  }

  /** Weights may be moved between the two factors. */
  lemma {:induction false} DotMoves(ws: seq<real>, xs: seq<real>, vs: seq<real>, ys: seq<real>, n: nat)
    requires n <= |ws| && n <= |xs| && n <= |vs| && n <= |ys|
    requires forall i :: 0 <= i < n ==> Times(ws[i], xs[i]) == Times(vs[i], ys[i])
    ensures Dot(ws, xs, n) == Dot(vs, ys, n)
  {
    if n > 0 {
      DotMoves(ws, xs, vs, ys, n - 1);
    }
  }

  lemma {:induction false} SumIsDot(xs: seq<real>, ws: seq<real>, ys: seq<real>, n: nat)
    requires n <= |xs| && n <= |ws| && n <= |ys| && forall i :: 0 <= i < n ==> xs[i] == Times(ws[i], ys[i])
    ensures Sum(xs, n) == Dot(ws, ys, n)
  {
    if n > 0 {
      SumIsDot(xs, ws, ys, n - 1);
    }
  }

  // ---------------------------------------------------------------- the averaged strategy realises the average

  /** The iterations' weights, each times the probability that the moves of `s` are made in that iteration. */
  function Reaches(ws: seq<real>, plays: seq<Strategy>, s: seq<Move>): (rs: seq<real>)
    requires |ws| == |plays| && ValidMoves(s)
    ensures |rs| == |plays|
  {
    seq(|plays|, k requires 0 <= k < |plays| => Times(ws[k], OwnReach(s, plays[k])))
  }

  /** What `p` earns with `mine` against each iteration's strategy. */
  function Against(t: Tree, p: nat, mine: Strategy, plays: seq<Strategy>): (us: seq<real>)
    ensures |us| == |plays|
  {
    seq(|plays|, k requires 0 <= k < |plays| => Utility(t, p, mine, plays[k]))
  }

  /** How likely action `a` was at `I` in each iteration. */
  function Column(plays: seq<Strategy>, I: string, n: nat, a: nat): (xs: seq<real>)
    requires a < n
    ensures |xs| == |plays|
  {
    seq(|plays|, k requires 0 <= k < |plays| => StrategyFor(plays[k], I, n)[a])
  }

  /** At `I` the average plays each action as often as the iterations did, weighted by weight and own reach. */
  ghost predicate AverageAt(avg: Strategy, plays: seq<Strategy>, ws: seq<real>, L: Layout, I: string)
    requires |ws| == |plays| && I in L.past && I in L.arity && ValidMoves(L.past[I])
  {
    var rs, n := Reaches(ws, plays, L.past[I]), L.arity[I];
    forall a :: 0 <= a < n ==> Times(Sum(rs, |rs|), StrategyFor(avg, I, n)[a]) == Dot(rs, Column(plays, I, n, a), |rs|)
  }

  ghost predicate Averages(avg: Strategy, plays: seq<Strategy>, ws: seq<real>, L: Layout, all: set<string>)
    requires |ws| == |plays|
  {
    forall I :: I in all ==> I in L.past && I in L.arity && ValidMoves(L.past[I]) && AverageAt(avg, plays, ws, L, I)
  }

  ghost predicate Realizes(t: Tree, p: nat, mine: Strategy, plays: seq<Strategy>, ws: seq<real>, avg: Strategy,
      s: seq<Move>)
    requires |ws| == |plays| && ValidMoves(s)
  {
    var rs := Reaches(ws, plays, s);
    Dot(rs, Against(t, p, mine, plays), |rs|) == Times(Sum(rs, |rs|), Utility(t, p, mine, avg))
  }

  lemma ReachesExtend(ws: seq<real>, plays: seq<Strategy>, s: seq<Move>, m: Move)
    requires |ws| == |plays| && ValidMoves(s) && m.action < m.count
    ensures ValidMoves(s + [m])
    ensures forall k :: 0 <= k < |plays| ==>
              Reaches(ws, plays, s + [m])[k]
                  == Times(Reaches(ws, plays, s)[k], StrategyFor(plays[k], m.infoset, m.count)[m.action])
  {
    hide Times;
    var s' := s + [m];
    assert s'[..|s'| - 1] == s && s'[|s'| - 1] == m;
    forall k | 0 <= k < |plays|
      ensures Reaches(ws, plays, s')[k]
              == Times(Reaches(ws, plays, s)[k], StrategyFor(plays[k], m.infoset, m.count)[m.action])
    {
      TimesAlgebra(ws[k], OwnReach(s, plays[k]), StrategyFor(plays[k], m.infoset, m.count)[m.action], 0.0);
    }
  }

  /** What child `i` contributes in each iteration. */
  function Branch(t: Tree, p: nat, mine: Strategy, plays: seq<Strategy>, i: nat): (us: seq<real>)
    requires !t.Terminal? && i < |t.children|
    ensures |us| == |plays|
  {
    seq(|plays|, k requires 0
          <= k < |plays| => Times(NodeWeights(t, p, mine, plays[k])[i], Utility(t.children[i], p, mine, plays[k])))
  }

  /** One child: its weighted contributions add up to the average's. */
  lemma ChildRealizes(t: Tree, p: nat, q: nat, mine: Strategy, plays: seq<Strategy>, ws: seq<real>, avg: Strategy,
      L: Layout, s: seq<Move>, i: nat)
    requires |ws| == |plays| && ValidMoves(s) && !t.Terminal? && i < |t.children| && p + q == 1
    requires t.Decision? ==> t.player < 2
    requires t.Decision? && t.player == q ==>
               t.infoset in L.past && L.past[t.infoset] == s && t.infoset in L.arity
                   && L.arity[t.infoset] == |t.children|
               && AverageAt(avg, plays, ws, L, t.infoset)
    requires ValidMoves(Extended(t, q, s, i)) && Realizes(t.children[i], p, mine, plays, ws, avg, Extended(t, q, s, i))
    ensures var rs := Reaches(ws, plays, s);
            Dot(rs, Branch(t, p, mine, plays, i), |rs|)
            == Times(Sum(rs, |rs|), Times(NodeWeights(t, p, mine, avg)[i], Utility(t.children[i], p, mine, avg)))
  {
    hide Times, Utility, Dot, Sum, OwnReach;
    var rs, T := Reaches(ws, plays, s), |plays|;
    var c, u := t.children[i], Utility(t.children[i], p, mine, avg);
    var w := NodeWeights(t, p, mine, avg)[i];
    if t.Decision? && t.player == q {
      var m := Move(t.infoset, |t.children|, i);
      ReachesExtend(ws, plays, s, m);
      var rs' := Reaches(ws, plays, s + [m]);
      forall k | 0 <= k < T
        ensures Times(rs[k], Branch(t, p, mine, plays, i)[k]) == Times(rs'[k], Against(c, p, mine, plays)[k]) {
        TimesAlgebra(rs[k], StrategyFor(plays[k], t.infoset, |t.children|)[i], Utility(c, p, mine, plays[k]), 0.0);
      }
      DotMoves(rs, Branch(t, p, mine, plays, i), rs', Against(c, p, mine, plays), T);
      SumIsDot(rs', rs, Column(plays, t.infoset, |t.children|, i), T);
      TimesAlgebra(Sum(rs, T), w, u, 0.0);
    } else {
      forall k | 0 <= k < T ensures NodeWeights(t, p, mine, plays[k])[i] == w {}
      DotFactor(rs, Against(c, p, mine, plays), Branch(t, p, mine, plays, i), w, T);
      TimesAlgebra(Sum(rs, T), w, u, 0.0);
    }
  }

  /** Each iteration's value of the first `n` children. */
  function Partial(t: Tree, p: nat, mine: Strategy, plays: seq<Strategy>, n: nat): (us: seq<real>)
    requires !t.Terminal? && n <= |t.children|
    ensures |us| == |plays|
  {
    seq(|plays|, k requires 0
          <= k < |plays| => Dot(NodeWeights(t, p, mine, plays[k]), Utilities(t.children, p, mine, plays[k]), n))
  }

  lemma DotGrows(t: Tree, p: nat, mine: Strategy, theirs: Strategy, n: nat)
    requires !t.Terminal? && 0 < n <= |t.children|
    ensures Dot(NodeWeights(t, p, mine, theirs), Utilities(t.children, p, mine, theirs), n)
         == Dot(NodeWeights(t, p, mine, theirs), Utilities(t.children, p, mine, theirs), n - 1)
            + Times(NodeWeights(t, p, mine, theirs)[n - 1], Utility(t.children[n - 1], p, mine, theirs))
  {
    hide Times, NodeWeights, Utility;
  }

  lemma PartialGrows(t: Tree, p: nat, mine: Strategy, plays: seq<Strategy>, n: nat)
    requires !t.Terminal? && 0 < n <= |t.children|
    ensures forall k :: 0 <= k < |plays| ==>
              Partial(t, p, mine, plays, n)[k]
                  == Partial(t, p, mine, plays, n - 1)[k] + Branch(t, p, mine, plays, n - 1)[k]
  {
    hide Times, NodeWeights, Utility, Dot;
    forall k | 0 <= k < |plays|
      ensures Partial(t, p, mine, plays, n)[k]
              == Partial(t, p, mine, plays, n - 1)[k] + Branch(t, p, mine, plays, n - 1)[k]
    {
      DotGrows(t, p, mine, plays[k], n);
    }
  }

  lemma SplitTimes(a: real, x: real, y: real)
    ensures Times(a, x + y) == Times(a, x) + Times(a, y)
  {
  }

  lemma {:induction false} ChildrenRealize(t: Tree, p: nat, mine: Strategy, plays: seq<Strategy>, ws: seq<real>,
      avg: Strategy, s: seq<Move>, n: nat)
    requires |ws| == |plays| && ValidMoves(s) && !t.Terminal? && n <= |t.children|
    requires var rs := Reaches(ws, plays, s);
             forall i :: 0 <= i < n ==>
               Dot(rs, Branch(t, p, mine, plays, i), |rs|)
               == Times(Sum(rs, |rs|), Times(NodeWeights(t, p, mine, avg)[i], Utility(t.children[i], p, mine, avg)))
    ensures var rs := Reaches(ws, plays, s);
            Dot(rs, Partial(t, p, mine, plays, n), |rs|)
            == Times(Sum(rs, |rs|), Dot(NodeWeights(t, p, mine, avg), Utilities(t.children, p, mine, avg), n))
  {
    hide Times, NodeWeights, Reaches, Utility, ValidMoves;
    var rs, T := Reaches(ws, plays, s), |plays|;
    if n == 0 {
      DotZeros(rs, Partial(t, p, mine, plays, 0), T);
      TimesZero(Sum(rs, T));
    } else {
      ChildrenRealize(t, p, mine, plays, ws, avg, s, n - 1);
      OneMoreBranch(t, p, mine, plays, rs, avg, n);
    }
  }

  lemma OneMoreBranch(t: Tree, p: nat, mine: Strategy, plays: seq<Strategy>, rs: seq<real>, avg: Strategy, n: nat)
    requires |rs| == |plays| && !t.Terminal? && 0 < n <= |t.children|
    requires Dot(rs, Partial(t, p, mine, plays, n - 1), |rs|)
          == Times(Sum(rs, |rs|), Dot(NodeWeights(t, p, mine, avg), Utilities(t.children, p, mine, avg), n - 1))
    requires Dot(rs, Branch(t, p, mine, plays, n - 1), |rs|)
          == Times(Sum(rs, |rs|), Times(NodeWeights(t, p, mine, avg)[n - 1], Utility(t.children[n - 1], p, mine, avg)))
    ensures Dot(rs, Partial(t, p, mine, plays, n), |rs|)
         == Times(Sum(rs, |rs|), Dot(NodeWeights(t, p, mine, avg), Utilities(t.children, p, mine, avg), n))
  {
    hide *;
    PartialGrows(t, p, mine, plays, n);
    DotGrows(t, p, mine, avg, n);
    DotPlus(rs, Partial(t, p, mine, plays, n - 1), Branch(t, p, mine, plays, n - 1), Partial(t, p, mine, plays, n),
            |rs|);
    SplitTimes(Sum(rs, |rs|), Dot(NodeWeights(t, p, mine, avg), Utilities(t.children, p, mine, avg), n - 1),
               Times(NodeWeights(t, p, mine, avg)[n - 1], Utility(t.children[n - 1], p, mine, avg)));
  }

  /**
   * Playing against the average is playing against all the iterations: below any history, the responder's values
   * over the iterations, weighted by weight and the opponent's reach, add up to its value against the average.
   */
  lemma {:induction false} AverageRealizes(t: Tree, p: nat, q: nat, mine: Strategy, plays: seq<Strategy>, ws: seq<real>,
      avg: Strategy, L: Layout, d: nat, s: seq<Move>)
    requires |ws| == |plays| && ValidMoves(s) && p + q == 1 && WellFormed(t) && Respects(t, q, L, d, s)
    requires Averages(avg, plays, ws, L, OwnInfosets(t, q))
    ensures Realizes(t, p, mine, plays, ws, avg, s)
  {
    var rs := Reaches(ws, plays, s);
    if t.Terminal? {
      DotOnes(rs, Against(t, p, mine, plays), Payoff(t, p), |rs|);
    } else {
      forall i | 0 <= i < |t.children|
        ensures Dot(rs, Branch(t, p, mine, plays, i), |rs|)
             == Times(Sum(rs, |rs|), Times(NodeWeights(t, p, mine, avg)[i], Utility(t.children[i], p, mine, avg)))
      {
        ReachOfChild(t, q, avg, avg, 1.0, s, i);
        ChildAverages(t, q, avg, plays, ws, L, i);
        AverageRealizes(t.children[i], p, q, mine, plays, ws, avg, L, d + 1, Extended(t, q, s, i));
        ChildRealizes(t, p, q, mine, plays, ws, avg, L, s, i);
      }
      ChildrenRealize(t, p, mine, plays, ws, avg, s, |t.children|);
      assert Partial(t, p, mine, plays, |t.children|) == Against(t, p, mine, plays);
    }
  }

  lemma ChildAverages(t: Tree, q: nat, avg: Strategy, plays: seq<Strategy>, ws: seq<real>, L: Layout, i: nat)
    requires |ws| == |plays| && !t.Terminal? && i < |t.children| && Averages(avg, plays, ws, L, OwnInfosets(t, q))
    ensures Averages(avg, plays, ws, L, OwnInfosets(t.children[i], q))
    ensures t.Decision? && t.player == q ==>
              t.infoset in L.past && t.infoset in L.arity && ValidMoves(L.past[t.infoset])
                  && AverageAt(avg, plays, ws, L, t.infoset)
  {
    hide AverageAt, ValidMoves;
    forall J | J in OwnInfosets(t.children[i], q) ensures J in OwnInfosets(t, q) {}
  }

  // ---------------------------------------------------------------- regret, one information set at a time

  /** The rows of `mine` at the information sets of `order`, the rows of `sigma` elsewhere. */
  function Hybrid(sigma: Strategy, mine: Strategy, L: Layout, order: seq<string>): (h: Strategy)
    requires forall I :: I in order ==> I in L.arity
  {
    sigma + map I | I in order :: StrategyFor(mine, I, L.arity[I])
  }

  lemma HybridRow(sigma: Strategy, mine: Strategy, L: Layout, order: seq<string>, I: string, n: nat)
    requires forall J :: J in order ==> J in L.arity
    ensures I in order && L.arity[I] == n ==>
            StrategyFor(Hybrid(sigma, mine, L, order), I, n) == StrategyFor(mine, I, n)
    ensures I !in order ==> AgreeOn(Hybrid(sigma, mine, L, order), sigma, I)
  {
  }

  lemma HybridIsProfile(sigma: Strategy, mine: Strategy, L: Layout, order: seq<string>)
    requires (forall J :: J in order ==> J in L.arity && L.arity[J] > 0) && Profile(sigma) && Profile(mine)
    ensures Profile(Hybrid(sigma, mine, L, order))
  {
    hide Distribution;
    forall k | k in Hybrid(sigma, mine, L, order) ensures Distribution(Hybrid(sigma, mine, L, order)[k]) {
      if k in order {
        RowIsDistribution(mine, k, L.arity[k]);
      }
    }
  }

  /** All information sets of the player, each once, none before a shallower one. */
  ghost predicate ShallowestFirst(order: seq<string>, all: set<string>, L: Layout) {
    && (forall I :: I in order <==> I in all)
    && (forall i, j :: 0 <= i < j < |order| ==> order[i] != order[j])
    && (forall i, j :: 0 <= i < j < |order| ==>
          order[i] in L.depth && order[j] in L.depth && L.depth[order[i]] <= L.depth[order[j]])
  }

  /** Whatever is remembered at an information set happened at a shallower one of the same player. */
  ghost predicate Shallower(s: seq<Move>, all: set<string>, L: Layout, d: int) {
    forall m :: m in s ==>
      m.action < m.count && m.infoset in all && m.infoset in L.depth && L.depth[m.infoset] < d && m.infoset in L.arity
          && L.arity[m.infoset] == m.count
  }

  lemma {:induction false} PastIsShallower(t: Tree, p: nat, L: Layout, d: nat, s: seq<Move>, all: set<string>)
    requires Respects(t, p, L, d, s) && Shallower(s, all, L, d) && OwnInfosets(t, p) <= all
    ensures forall I :: I in OwnInfosets(t, p) ==>
            I in L.past && I in L.depth && Shallower(L.past[I], all, L, L.depth[I])
  {
    if !t.Terminal? {
      forall i | 0 <= i < |t.children|
        ensures forall I :: I in OwnInfosets(t.children[i], p) ==>
                I in L.past && I in L.depth && Shallower(L.past[I], all, L, L.depth[I])
      {
        forall J | J in OwnInfosets(t.children[i], p) ensures J in OwnInfosets(t, p) {}
        PastIsShallower(t.children[i], p, L, d + 1, Extended(t, p, s, i), all);
      }
    }
  }

  /** With rows that agree along the way, the own reach is the same. */
  lemma {:induction false} SameOwnReach(s: seq<Move>, a: Strategy, b: Strategy)
    requires ValidMoves(s) && forall m :: m in s ==>
             StrategyFor(a, m.infoset, m.count) == StrategyFor(b, m.infoset, m.count)
    ensures OwnReach(s, a) == OwnReach(s, b)
  {
    if s != [] {
      assert s[|s| - 1] in s;
      SameOwnReach(s[..|s| - 1], a, b);
    }
  }

  lemma {:induction false} RowAtMostOne(ws: seq<real>, n: nat)
    requires n <= |ws| && forall i :: 0 <= i < n ==> ws[i] >= 0.0
    ensures Sum(ws, n) >= 0.0 && forall i :: 0 <= i < n ==> ws[i] <= Sum(ws, n)
  {
    SumNonNegative(ws, n);
  }

  lemma {:induction false} OwnReachIsProbability(s: seq<Move>, mine: Strategy)
    requires ValidMoves(s) && Profile(mine)
    ensures 0.0 <= OwnReach(s, mine) <= 1.0
  {
    if s != [] {
      var m := s[|s| - 1];
      assert m in s;
      OwnReachIsProbability(s[..|s| - 1], mine);
      RowIsDistribution(mine, m.infoset, m.count);
      var row := StrategyFor(mine, m.infoset, m.count);
      RowAtMostOne(row, m.count);
      UnitProduct(OwnReach(s[..|s| - 1], mine), row[m.action]);
    }
  }

  lemma UnitProduct(x: real, y: real)
    requires 0.0 <= x <= 1.0 && 0.0 <= y <= 1.0
    ensures 0.0 <= Times(x, y) <= 1.0
  {
    var z := 1.0 - x;
    assert x * y >= 0.0 && z * y >= 0.0;
    assert z * y == y - x * y;
  }

  // ---------------------------------------------------------------- one information set, one iteration

  /** How much better `a` is than the strategy in force at the histories of `I`, weighted by counterfactual reach. */
  function Advantage(root: Tree, p: nat, sigma: Strategy, I: string, n: nat, a: nat): real
    requires Playable(Histories(root, p, None, sigma, I, 1.0, 0), n) && a < n
  {
    var es := Histories(root, p, None, sigma, I, 1.0, 0);
    ActionValue(es, a, p, sigma, sigma) - InfosetValue(es, p, sigma, sigma)
  }

  function Advantages(root: Tree, p: nat, sigma: Strategy, I: string, n: nat): (xs: seq<real>)
    requires Playable(Histories(root, p, None, sigma, I, 1.0, 0), n)
    ensures |xs| == n && forall a :: 0 <= a < n ==> xs[a] == Advantage(root, p, sigma, I, n, a)
  {
    seq(n, a requires 0 <= a < n => Advantage(root, p, sigma, I, n, a))
  }

  lemma {:induction false} InfosetValueIsLocal(es: seq<Entry>, p: nat, x: Strategy, y: Strategy, theirs: Strategy)
    requires forall e, I :: e in es && I in OwnInfosets(e.node, p) ==> AgreeOn(x, y, I)
    ensures InfosetValue(es, p, x, theirs) == InfosetValue(es, p, y, theirs)
  {
    if es != [] {
      var k := |es| - 1;
      assert es[k] in es;
      InfosetValueIsLocal(es[..k], p, x, y, theirs);
      UtilityIsLocal(es[k].node, p, x, y, theirs);
    }
  }

  /** Everything at and below the histories of `I` is still played as in `sigma`. */
  lemma BelowIsUntouched(root: Tree, p: nat, sigma: Strategy, mine: Strategy, L: Layout, done: seq<string>, I: string,
      e: Entry, J: string)
    requires AtInfoset(e, p, L, I)
    requires (forall K :: K in done ==> K in L.arity && K in L.depth && L.depth[K] <= L.depth[I])
    requires J in OwnInfosets(e.node, p) && I !in done
    ensures AgreeOn(Hybrid(sigma, mine, L, done), sigma, J)
    ensures J == I || J !in done
  {
    if J != I {
      assert exists i :: 0 <= i < |e.node.children| && J in OwnInfosets(e.node.children[i], p);
      var i :| 0 <= i < |e.node.children| && J in OwnInfosets(e.node.children[i], p);
      InfosetsLieBelow(e.node.children[i], p, L, L.depth[I] + 1, Extended(e.node, p, L.past[I], i));
      assert L.depth[J] > L.depth[I];
    }
    HybridRow(sigma, mine, L, done, J, 0);
  }

  ghost predicate StepReady(root: Tree, p: nat, sigma: Strategy, mine: Strategy, L: Layout, done: seq<string>,
      I: string) {
    && Respects(root, p, L, 0, []) && Profile(sigma) && Profile(mine)
    && I in L.arity && L.arity[I] > 0 && I in L.past && I in L.depth && I !in done
    && (forall K :: K in done ==> K in L.arity && L.arity[K] > 0 && K in L.depth && L.depth[K] <= L.depth[I])
    && ValidMoves(L.past[I])
    && (forall m :: m in L.past[I] ==> m.infoset in done && L.arity[m.infoset] == m.count)
  }

  /** The histories of `I` are playable, and values there are those under `sigma`, own row aside. */
  lemma LocalValues(root: Tree, p: nat, sigma: Strategy, mine: Strategy, L: Layout, done: seq<string>, I: string)
    requires StepReady(root, p, sigma, mine, L, done, I)
    ensures var es, n := Histories(root, p, None, sigma, I, 1.0, 0), L.arity[I];
            && Playable(es, n)
            && InfosetValue(es, p, Hybrid(sigma, mine, L, done), sigma) == InfosetValue(es, p, sigma, sigma)
            && InfosetValue(es, p, Hybrid(sigma, mine, L, done + [I]), sigma)
                == Dot(StrategyFor(mine, I, n), ActionValues(es, n, p, sigma, sigma), n)
  {
    hide Times, Dot, Utility, Histories, Respects, Distribution;
    var es, n := Histories(root, p, None, sigma, I, 1.0, 0), L.arity[I];
    var h, h' := Hybrid(sigma, mine, L, done), Hybrid(sigma, mine, L, done + [I]);
    HistoriesAreAtInfoset(root, p, None, sigma, I, 1.0, L, 0, []);
    forall e, J | e in es && J in OwnInfosets(e.node, p) ensures AgreeOn(h, sigma, J) {
      BelowIsUntouched(root, p, sigma, mine, L, done, I, e, J);
    }
    InfosetValueIsLocal(es, p, h, sigma, sigma);
    InfosetValueByAction(es, p, I, n, h', sigma);
    HybridRow(sigma, mine, L, done + [I], I, n);
    forall a | 0 <= a < n ensures ActionValues(es, n, p, h', sigma)[a] == ActionValues(es, n, p, sigma, sigma)[a] {
      ActionBelow(root, p, sigma, mine, L, done, I, es, a);
    }
    assert ActionValues(es, n, p, h', sigma) == ActionValues(es, n, p, sigma, sigma);
  }

  lemma ActionBelow(root: Tree, p: nat, sigma: Strategy, mine: Strategy, L: Layout, done: seq<string>, I: string,
      es: seq<Entry>, a: nat)
    requires StepReady(root, p, sigma, mine, L, done, I) && a < L.arity[I] && Playable(es, L.arity[I])
    requires forall e :: e in es ==> AtInfoset(e, p, L, I)
    ensures ActionValue(es, a, p, Hybrid(sigma, mine, L, done + [I]), sigma) == ActionValue(es, a, p, sigma, sigma)
  {
    hide Respects, Profile;
    var h' := Hybrid(sigma, mine, L, done + [I]);
    forall e, J | e in es && J in OwnInfosets(e.node.children[a], p) ensures AgreeOn(h', sigma, J) {
      assert J in OwnInfosets(e.node, p);
      BelowIsUntouched(root, p, sigma, mine, L, done, I, e, J);
      InfosetNeverRecurs(e, p, L, I, a);
      HybridRow(sigma, mine, L, done + [I], J, 0);
    }
    ActionValueIsLocal(es, a, p, h', sigma, sigma);
  }

  /** With perfect recall, exchanging one row changes the value by the own reach times the change at the histories. */
  lemma ExchangedRow(root: Tree, p: nat, sigma: Strategy, h: Strategy, h': Strategy, L: Layout, I: string)
    requires Respects(root, p, L, 0, []) && I in L.past && ValidMoves(L.past[I])
    requires forall J :: J != I ==> AgreeOn(h, h', J)
    ensures var es := Histories(root, p, None, sigma, I, 1.0, 0);
            Utility(root, p, h', sigma) - Utility(root, p, h, sigma)
            == Times(OwnReach(L.past[I], h), InfosetValue(es, p, h', sigma) - InfosetValue(es, p, h, sigma))
  {
    hide *;
    var es, full := Histories(root, p, None, sigma, I, 1.0, 0), Histories(root, p, Some(h), sigma, I, 1.0, 0);
    ChangeOverHistories(root, p, sigma, h, h', L, I);
    var rho := OwnReach(L.past[I], h);
    ScaledValue(full, es, rho, p, h, sigma);
    ScaledValue(full, es, rho, p, h', sigma);
    TimesMinus(rho, InfosetValue(es, p, h', sigma), InfosetValue(es, p, h, sigma));
  }

  lemma TimesMinus(a: real, x: real, y: real)
    ensures Times(a, x - y) == Times(a, x) - Times(a, y)
  {
  }

  lemma ChangeOverHistories(root: Tree, p: nat, sigma: Strategy, h: Strategy, h': Strategy, L: Layout, I: string)
    requires Respects(root, p, L, 0, []) && I in L.past && ValidMoves(L.past[I])
    requires forall J :: J != I ==> AgreeOn(h, h', J)
    ensures forall m :: m in L.past[I] ==> m.action < m.count
    ensures var es, full := Histories(root, p, None, sigma, I, 1.0, 0), Histories(root, p, Some(h), sigma, I, 1.0, 0);
            && Utility(root, p, h', sigma) - Utility(root, p, h, sigma)
                == InfosetValue(full, p, h', sigma) - InfosetValue(full, p, h, sigma)
            && Scaled(full, es, OwnReach(L.past[I], h))
  {
    hide Utility, Histories, Respects, InfosetValue, Scaled, StrategyFor, Times, AgreeOn;
    RowChange(root, p, I, h, h', sigma, 1.0, L, 0, []);
    UnitTimes(1.0);
    UnitTimes(Utility(root, p, h', sigma) - Utility(root, p, h, sigma));
    OwnReachIsShared(root, p, I, h, sigma, 1.0, L, 0, []);
  }

  /** Replacing one more row, shallowest first, gains the own reach times the advantage of the new row. */
  lemma OneRow(root: Tree, p: nat, sigma: Strategy, mine: Strategy, L: Layout, done: seq<string>, I: string)
    requires StepReady(root, p, sigma, mine, L, done, I)
    ensures var n := L.arity[I];
            && Playable(Histories(root, p, None, sigma, I, 1.0, 0), n)
            && Utility(root, p, Hybrid(sigma, mine, L, done + [I]), sigma) - Utility(root, p,
                  Hybrid(sigma, mine, L, done), sigma)
               == Times(OwnReach(L.past[I], mine), Dot(StrategyFor(mine, I, n), Advantages(root, p, sigma, I, n), n))
  {
    hide *;
    HybridReach(root, p, sigma, mine, L, done, I);
    ExchangedRow(root, p, sigma, Hybrid(sigma, mine, L, done), Hybrid(sigma, mine, L, done + [I]), L, I);
    LocalValues(root, p, sigma, mine, L, done, I);
    RowAdvantage(root, p, sigma, mine, I, L.arity[I]);
  }

  lemma HybridReach(root: Tree, p: nat, sigma: Strategy, mine: Strategy, L: Layout, done: seq<string>, I: string)
    requires StepReady(root, p, sigma, mine, L, done, I)
    ensures (forall K :: K in done ==> K in L.arity) && (forall K :: K in done + [I] ==> K in L.arity)
    ensures Respects(root, p, L, 0, []) && Profile(mine) && I in L.past && I in L.arity && L.arity[I] > 0
    ensures ValidMoves(L.past[I])
    ensures OwnReach(L.past[I], Hybrid(sigma, mine, L, done)) == OwnReach(L.past[I], mine)
    ensures forall J :: J != I ==> AgreeOn(Hybrid(sigma, mine, L, done), Hybrid(sigma, mine, L, done + [I]), J)
  {
    hide Respects, Profile, OwnReach;
    forall m | m in L.past[I]
      ensures StrategyFor(Hybrid(sigma, mine, L, done), m.infoset, m.count) == StrategyFor(mine, m.infoset, m.count) {
      HybridRow(sigma, mine, L, done, m.infoset, m.count);
    }
    SameOwnReach(L.past[I], Hybrid(sigma, mine, L, done), mine);
  }

  lemma UnitTimes(x: real)
    ensures Times(1.0, x) == x
  {
  }

  lemma RowAdvantage(root: Tree, p: nat, sigma: Strategy, mine: Strategy, I: string, n: nat)
    requires Playable(Histories(root, p, None, sigma, I, 1.0, 0), n) && Profile(mine) && n > 0
    ensures var es := Histories(root, p, None, sigma, I, 1.0, 0);
            Dot(StrategyFor(mine, I, n), ActionValues(es, n, p, sigma, sigma), n) - InfosetValue(es, p, sigma, sigma)
            == Dot(StrategyFor(mine, I, n), Advantages(root, p, sigma, I, n), n)
  {
    hide Histories, ActionValue, InfosetValue;
    var es := Histories(root, p, None, sigma, I, 1.0, 0);
    var row, v := StrategyFor(mine, I, n), InfosetValue(es, p, sigma, sigma);
    RowIsDistribution(mine, I, n);
    var vs := seq(n, _ => v);
    DotOnes(row, vs, v, n);
    DotPlus(row, Advantages(root, p, sigma, I, n), vs, ActionValues(es, n, p, sigma, sigma), n);
  }

  // ---------------------------------------------------------------- regret over all iterations

  /** The advantages of action `a` at `I` over the iterations. */
  function AdvantagesOver(root: Tree, p: nat, plays: seq<Strategy>, I: string, n: nat, a: nat): (xs: seq<real>)
    requires a < n && forall k :: 0 <= k < |plays| ==> Playable(Histories(root, p, None, plays[k], I, 1.0, 0), n)
    ensures |xs| == |plays|
    ensures forall k :: 0 <= k < |plays| ==> xs[k] == Advantage(root, p, plays[k], I, n, a)
  {
    seq(|plays|, k requires 0 <= k < |plays| => Advantage(root, p, plays[k], I, n, a))
  }

  /** The summed regret of action `a` at `I`: its weighted advantages over the iterations. */
  function RegretSum(root: Tree, p: nat, plays: seq<Strategy>, ws: seq<real>, I: string, n: nat, a: nat): real
    requires |ws| == |plays| && a < n
    requires forall k :: 0 <= k < |plays| ==> Playable(Histories(root, p, None, plays[k], I, 1.0, 0), n)
  {
    Dot(ws, AdvantagesOver(root, p, plays, I, n, a), |ws|)
  }

  function RegretSums(root: Tree, p: nat, plays: seq<Strategy>, ws: seq<real>, I: string, n: nat): (rs: seq<real>)
    requires |ws| == |plays|
    requires forall k :: 0 <= k < |plays| ==> Playable(Histories(root, p, None, plays[k], I, 1.0, 0), n)
    ensures |rs| == n && forall a :: 0 <= a < n ==> rs[a] == RegretSum(root, p, plays, ws, I, n, a)
  {
    seq(n, a requires 0 <= a < n => RegretSum(root, p, plays, ws, I, n, a))
  }

  /** The greatest positive entry, or zero. */
  function Top(xs: seq<real>): (top: real)
    ensures top >= 0.0 && forall i :: 0 <= i < |xs| ==> xs[i] <= top
    ensures top == 0.0 || top in xs
  {
    if xs == [] then 0.0 else
    var k := |xs| - 1;
    var rest := Top(xs[..k]);
    assert forall i :: 0 <= i < k ==> xs[i] == xs[..k][i];
    if xs[k] > rest then xs[k] else rest
  }

  /** For each iteration, what the first `m` actions of `row` gain at `I` over the strategy in force. */
  function RowGains(root: Tree, p: nat, plays: seq<Strategy>, I: string, row: seq<real>, m: nat): (gs: seq<real>)
    requires m <= |row| && forall k :: 0 <= k < |plays| ==>
             Playable(Histories(root, p, None, plays[k], I, 1.0, 0), |row|)
    ensures |gs| == |plays|
    ensures forall k :: 0 <= k < |plays| ==> gs[k] == Dot(row, Advantages(root, p, plays[k], I, |row|), m)
  {
    seq(|plays|, k requires 0 <= k < |plays| => Dot(row, Advantages(root, p, plays[k], I, |row|), m))
  }

  /** Summing over iterations first or over actions first gives the same. */
  lemma {:induction false} RowGainsByAction(root: Tree, p: nat, plays: seq<Strategy>, ws: seq<real>, I: string,
      row: seq<real>, m: nat)
    requires |ws| == |plays| && m <= |row|
    requires forall k :: 0 <= k < |plays| ==> Playable(Histories(root, p, None, plays[k], I, 1.0, 0), |row|)
    ensures Dot(ws, RowGains(root, p, plays, I, row, m), |ws|) == Dot(row, RegretSums(root, p, plays, ws, I, |row|), m)
  {
    hide Times, Histories, Playable, Advantage;
    var T := |ws|;
    if m == 0 {
      DotZeros(ws, RowGains(root, p, plays, I, row, 0), T);
    } else {
      var a := m - 1;
      RowGainsByAction(root, p, plays, ws, I, row, a);
      var column := AdvantagesOver(root, p, plays, I, |row|, a);
      DotLinear(ws, RowGains(root, p, plays, I, row, a), column, RowGains(root, p, plays, I, row, m), row[a], T);
    }
  }

  /** Replacing one row in every iteration gains at most the greatest summed regret at that information set. */
  lemma RowGainsBounded(root: Tree, p: nat, plays: seq<Strategy>, ws: seq<real>, I: string, row: seq<real>, rho: real,
      gains: seq<real>)
    requires |ws| == |plays| == |gains| && 0.0 <= rho <= 1.0 && Distribution(row)
    requires forall k :: 0 <= k < |plays| ==> Playable(Histories(root, p, None, plays[k], I, 1.0, 0), |row|)
    requires forall k :: 0 <= k < |plays| ==>
             gains[k] == Times(rho, Dot(row, Advantages(root, p, plays[k], I, |row|), |row|))
    ensures Dot(ws, gains, |ws|) <= Top(RegretSums(root, p, plays, ws, I, |row|))
  {
    var rs, n := RegretSums(root, p, plays, ws, I, |row|), |row|;
    hide *;
    RowGainsByAction(root, p, plays, ws, I, row, n);
    DotFactor(ws, RowGains(root, p, plays, I, row, n), gains, rho, |ws|);
    MixtureAtMost(row, rs, Top(rs));
    ScaledBelow(rho, Dot(row, rs, n), Top(rs));
  }

  /** A mixture of values is at most the greatest of them. */
  lemma MixtureAtMost(row: seq<real>, xs: seq<real>, top: real)
    requires |row| == |xs| && Distribution(row) && forall i :: 0 <= i < |xs| ==> xs[i] <= top
    ensures Dot(row, xs, |row|) <= top
  {
    DotAtMost(row, xs, |row|, top);
  }

  lemma ScaledBelow(rho: real, x: real, top: real)
    requires 0.0 <= rho <= 1.0 && x <= top && top >= 0.0
    ensures Times(rho, x) <= top
  {
    assert rho * (top - x) >= 0.0 && (1.0 - rho) * top >= 0.0;
  }

  /** What the rules of the game and of the solver guarantee of the iterations' strategies. */
  ghost predicate Played(root: Tree, p: nat, plays: seq<Strategy>, L: Layout, order: seq<string>) {
    && Respects(root, p, L, 0, []) && ShallowestFirst(order, OwnInfosets(root, p), L)
    && forall k :: 0 <= k < |plays| ==> Profile(plays[k])
  }

  lemma OrderFacts(root: Tree, p: nat, plays: seq<Strategy>, L: Layout, order: seq<string>, j: nat)
    requires Played(root, p, plays, L, order) && j < |order|
    ensures forall K :: K in order ==> K in L.arity && L.arity[K] > 0 && K in L.depth && K in L.past
    ensures order[j] !in order[..j] && forall K :: K in order[..j] ==> L.depth[K] <= L.depth[order[j]]
    ensures ValidMoves(L.past[order[j]])
    ensures forall m :: m in L.past[order[j]] ==> m.infoset in order[..j] && L.arity[m.infoset] == m.count
  {
    var I := order[j];
    InfosetsLieBelow(root, p, L, 0, []);
    AritiesArePositive(root, p, L, 0, []);
    PastIsShallower(root, p, L, 0, [], OwnInfosets(root, p));
    forall m | m in L.past[I] ensures m.infoset in order[..j] {
      var i :| 0 <= i < |order| && order[i] == m.infoset;
      assert i < j;
      assert order[..j][i] == m.infoset;
    }
  }

  lemma {:induction false} AritiesArePositive(t: Tree, p: nat, L: Layout, d: nat, s: seq<Move>)
    requires Respects(t, p, L, d, s)
    ensures forall I :: I in OwnInfosets(t, p) ==> I in L.arity && L.arity[I] > 0
  {
    if !t.Terminal? {
      forall i | 0 <= i < |t.children|
        ensures forall I :: I in OwnInfosets(t.children[i], p) ==> I in L.arity && L.arity[I] > 0
      {
        AritiesArePositive(t.children[i], p, L, d + 1, Extended(t, p, s, i));
      }
    }
  }

  lemma ReadyForStep(root: Tree, p: nat, plays: seq<Strategy>, mine: Strategy, L: Layout, order: seq<string>, j: nat,
      k: nat)
    requires Played(root, p, plays, L, order) && Profile(mine) && j < |order| && k < |plays|
    ensures StepReady(root, p, plays[k], mine, L, order[..j], order[j])
  {
    hide Respects, Profile, ShallowestFirst;
    OrderFacts(root, p, plays, L, order, j);
    forall K | K in order[..j] ensures K in order {}
  }

  /** What `mine` gains in each iteration once it has taken over the first `j` information sets. */
  function Gains(root: Tree, p: nat, plays: seq<Strategy>, mine: Strategy, L: Layout,
      done: seq<string>): (gs: seq<real>)
    requires forall I :: I in done ==> I in L.arity
    ensures |gs| == |plays|
  {
    seq(|plays|, k requires 0 <= k < |plays| =>
      Utility(root, p, Hybrid(plays[k], mine, L, done), plays[k]) - Utility(root, p, plays[k], plays[k]))
  }

  function TopAt(root: Tree, p: nat, plays: seq<Strategy>, ws: seq<real>, L: Layout, I: string): real
    requires |ws| == |plays| && I in L.arity
    requires forall k :: 0 <= k < |plays| ==> Playable(Histories(root, p, None, plays[k], I, 1.0, 0), L.arity[I])
  {
    Top(RegretSums(root, p, plays, ws, I, L.arity[I]))
  }

  ghost predicate AllPlayable(root: Tree, p: nat, plays: seq<Strategy>, L: Layout, order: seq<string>) {
    forall I :: I in order ==> I in L.arity && forall k :: 0 <= k < |plays| ==>
        Playable(Histories(root, p, None, plays[k], I, 1.0, 0), L.arity[I])
  }

  /** The greatest summed regrets of the first `j` information sets, added up. */
  function TotalTop(root: Tree, p: nat, plays: seq<Strategy>, ws: seq<real>, L: Layout, order: seq<string>,
      j: nat): real
    requires |ws| == |plays| && j <= |order| && AllPlayable(root, p, plays, L, order)
  {
    if j == 0 then 0.0 else TotalTop(root, p, plays, ws, L, order, j - 1) + TopAt(root, p, plays, ws, L, order[j - 1])
  }

  lemma EverythingPlayable(root: Tree, p: nat, plays: seq<Strategy>, L: Layout, order: seq<string>)
    requires Played(root, p, plays, L, order)
    ensures AllPlayable(root, p, plays, L, order)
  {
    forall I, k | I in order && 0 <= k < |plays|
      ensures I in L.arity && Playable(Histories(root, p, None, plays[k], I, 1.0, 0), L.arity[I])
    {
      InfosetsLieBelow(root, p, L, 0, []);
      HistoriesAreAtInfoset(root, p, None, plays[k], I, 1.0, L, 0, []);
    }
    InfosetsLieBelow(root, p, L, 0, []);
  }

  /** Taking over one more information set in every iteration gains at most its greatest summed regret. */
  lemma OneMoreRow(root: Tree, p: nat, plays: seq<Strategy>, ws: seq<real>, mine: Strategy, L: Layout,
      order: seq<string>, j: nat)
    requires |ws| == |plays| && Played(root, p, plays, L, order) && Profile(mine) && j < |order|
    requires AllPlayable(root, p, plays, L, order)
    ensures (forall I :: I in order[..j] ==> I in L.arity) && (forall I :: I in order[..j + 1] ==> I in L.arity)
    ensures Dot(ws, Gains(root, p, plays, mine, L, order[..j + 1]), |ws|)
         <= Dot(ws, Gains(root, p, plays, mine, L, order[..j]), |ws|) + TopAt(root, p, plays, ws, L, order[j])
  {
    hide *;
    StepFacts(root, p, plays, mine, L, order, j);
    var I := order[j];
    var rho, row := OwnReach(L.past[I], mine), StrategyFor(mine, I, L.arity[I]);
    var before, after := Gains(root, p, plays, mine, L, order[..j]), Gains(root, p, plays, mine, L, order[..j + 1]);
    var gains := seq(|plays|, k requires 0 <= k < |plays| => after[k] - before[k]);
    forall k | 0 <= k < |plays|
      ensures gains[k] == Times(rho, Dot(row, Advantages(root, p, plays[k], I, |row|), |row|))
    {
      RowGain(root, p, plays, mine, L, order, j, k);
    }
    RowGainsBounded(root, p, plays, ws, I, row, rho, gains);
    DotPlus(ws, before, gains, after, |ws|);
    TopIs(root, p, plays, ws, L, I);
  }

  lemma StepFacts(root: Tree, p: nat, plays: seq<Strategy>, mine: Strategy, L: Layout, order: seq<string>, j: nat)
    requires Played(root, p, plays, L, order) && Profile(mine) && j < |order| && AllPlayable(root, p, plays, L, order)
    ensures (forall I :: I in order[..j] ==> I in L.arity) && (forall I :: I in order[..j + 1] ==> I in L.arity)
    ensures var I := order[j];
            && I in L.arity && I in L.past && ValidMoves(L.past[I])
                && (forall m :: m in L.past[I] ==> m.action < m.count)
            && 0.0 <= OwnReach(L.past[I], mine) <= 1.0 && Distribution(StrategyFor(mine, I, L.arity[I]))
            && forall k :: 0 <= k < |plays| ==> Playable(Histories(root, p, None, plays[k], I, 1.0, 0), L.arity[I])
  {
    hide Played, Profile, Distribution, OwnReach, StrategyFor, Histories, Playable;
    var I := order[j];
    OrderFacts(root, p, plays, L, order, j);
    OwnReachIsProbability(L.past[I], mine);
    RowIsDistribution(mine, I, L.arity[I]);
    forall K | K in order[..j + 1] ensures K in order {}
    forall K | K in order[..j] ensures K in order {}
  }

  lemma TopIs(root: Tree, p: nat, plays: seq<Strategy>, ws: seq<real>, L: Layout, I: string)
    requires |ws| == |plays| && I in L.arity
    requires forall k :: 0 <= k < |plays| ==> Playable(Histories(root, p, None, plays[k], I, 1.0, 0), L.arity[I])
    ensures TopAt(root, p, plays, ws, L, I) == Top(RegretSums(root, p, plays, ws, I, L.arity[I]))
  {
  }

  lemma RowGain(root: Tree, p: nat, plays: seq<Strategy>, mine: Strategy, L: Layout, order: seq<string>, j: nat, k: nat)
    requires Played(root, p, plays, L, order) && Profile(mine) && j < |order| && k < |plays|
    requires (forall I :: I in order[..j] ==> I in L.arity) && (forall I :: I in order[..j + 1] ==> I in L.arity)
    requires order[j] in L.arity && order[j] in L.past && ValidMoves(L.past[order[j]])
    ensures var I, n := order[j], L.arity[order[j]];
            && Playable(Histories(root, p, None, plays[k], I, 1.0, 0), n)
            && Gains(root, p, plays, mine, L, order[..j + 1])[k] - Gains(root, p, plays, mine, L, order[..j])[k]
               == Times(OwnReach(L.past[I], mine), Dot(StrategyFor(mine, I, n), Advantages(root, p, plays[k], I, n), n))
  {
    hide Played, Profile, ValidMoves, Hybrid, Utility, Histories, OwnReach, StrategyFor, Dot, Times, StepReady;
    ReadyForStep(root, p, plays, mine, L, order, j, k);
    OneRow(root, p, plays[k], mine, L, order[..j], order[j]);
    assert order[..j] + [order[j]] == order[..j + 1];
  }

  lemma {:induction false} GainsBounded(root: Tree, p: nat, plays: seq<Strategy>, ws: seq<real>, mine: Strategy,
      L: Layout, order: seq<string>, j: nat)
    requires |ws| == |plays| && Played(root, p, plays, L, order) && Profile(mine) && j <= |order|
    requires AllPlayable(root, p, plays, L, order)
    ensures forall I :: I in order[..j] ==> I in L.arity
    ensures Dot(ws, Gains(root, p, plays, mine, L, order[..j]), |ws|) <= TotalTop(root, p, plays, ws, L, order, j)
  {
    hide Played, AllPlayable, Profile, TopAt, Utility, Hybrid, Dot;
    if j == 0 {
      NothingGained(root, p, plays, ws, mine, L);
      assert order[..0] == [];
    } else {
      GainsBounded(root, p, plays, ws, mine, L, order, j - 1);
      OneMoreRow(root, p, plays, ws, mine, L, order, j - 1);
    }
  }

  lemma NothingGained(root: Tree, p: nat, plays: seq<Strategy>, ws: seq<real>, mine: Strategy, L: Layout)
    requires |ws| == |plays|
    ensures Dot(ws, Gains(root, p, plays, mine, L, []), |ws|) == 0.0
  {
    hide Utility;
    forall k | 0 <= k < |plays| ensures Gains(root, p, plays, mine, L, [])[k] == 0.0 {
      assert Hybrid(plays[k], mine, L, []) == plays[k];
    }
    DotZeros(ws, Gains(root, p, plays, mine, L, []), |ws|);
  }

  /** Tables with the same rows where it matters have the same value. */
  lemma {:induction false} UtilityByRows(t: Tree, p: nat, a: Strategy, b: Strategy, theirs: Strategy, L: Layout, d: nat,
      s: seq<Move>)
    requires Respects(t, p, L, d, s)
    requires forall I :: I in OwnInfosets(t, p) && I in L.arity ==>
             StrategyFor(a, I, L.arity[I]) == StrategyFor(b, I, L.arity[I])
    ensures Utility(t, p, a, theirs) == Utility(t, p, b, theirs)
  {
    if !t.Terminal? {
      forall i | 0 <= i < |t.children|
        ensures Utility(t.children[i], p, a, theirs) == Utility(t.children[i], p, b, theirs) {
        forall J | J in OwnInfosets(t.children[i], p) ensures J in OwnInfosets(t, p) {}
        UtilityByRows(t.children[i], p, a, b, theirs, L, d + 1, Extended(t, p, s, i));
      }
      assert Utilities(t.children, p, a, theirs) == Utilities(t.children, p, b, theirs);
      assert t.Decision? && t.player == p ==> t.infoset in OwnInfosets(t, p);
      assert NodeWeights(t, p, a, theirs) == NodeWeights(t, p, b, theirs);
    }
  }

  /** What `p` earns in each iteration with the strategy in force. */
  function Earned(root: Tree, p: nat, plays: seq<Strategy>): (us: seq<real>)
    ensures |us| == |plays|
  {
    seq(|plays|, k requires 0 <= k < |plays| => Utility(root, p, plays[k], plays[k]))
  }

  /**
   * No strategy beats the iterations' own by more than the greatest summed regrets of the information sets: over
   * all iterations, what a fixed strategy would have gained is at most their total.
   */
  lemma RegretBounded(root: Tree, p: nat, plays: seq<Strategy>, ws: seq<real>, mine: Strategy, L: Layout,
      order: seq<string>)
    requires |ws| == |plays| && Played(root, p, plays, L, order) && Profile(mine)
    ensures AllPlayable(root, p, plays, L, order)
    ensures Dot(ws, Against(root, p, mine, plays), |ws|)
         <= Dot(ws, Earned(root, p, plays), |ws|) + TotalTop(root, p, plays, ws, L, order, |order|)
  {
    EverythingPlayable(root, p, plays, L, order);
    GainsBounded(root, p, plays, ws, mine, L, order, |order|);
    assert order[..|order|] == order;
    TakenOver(root, p, plays, mine, L, order);
    DotPlus(ws, Earned(root, p, plays), Gains(root, p, plays, mine, L, order), Against(root, p, mine, plays), |ws|);
  }

  /** Once it has taken over every information set, `mine` is what is played. */
  lemma TakenOver(root: Tree, p: nat, plays: seq<Strategy>, mine: Strategy, L: Layout, order: seq<string>)
    requires Played(root, p, plays, L, order) && forall I :: I in order ==> I in L.arity
    ensures forall k :: 0 <= k < |plays| ==>
              Against(root, p, mine, plays)[k] == Earned(root, p, plays)[k] + Gains(root, p, plays, mine, L, order)[k]
  {
    hide Utility;
    forall k | 0 <= k < |plays|
      ensures Utility(root, p, Hybrid(plays[k], mine, L, order), plays[k]) == Utility(root, p, mine, plays[k])
    {
      forall I | I in OwnInfosets(root, p) && I in L.arity
        ensures StrategyFor(Hybrid(plays[k], mine, L, order), I, L.arity[I]) == StrategyFor(mine, I, L.arity[I])
      {
        HybridRow(plays[k], mine, L, order, I, L.arity[I]);
      }
      UtilityByRows(root, p, Hybrid(plays[k], mine, L, order), mine, plays[k], L, 0, []);
    }
  }

  // ---------------------------------------------------------------- close to a Nash equilibrium

  /** Against the average, weighted by the total weight, is against all iterations. */
  lemma AgainstAverage(root: Tree, p: nat, q: nat, mine: Strategy, plays: seq<Strategy>, ws: seq<real>, avg: Strategy,
      L: Layout)
    requires |ws| == |plays| && p + q == 1 && WellFormed(root) && Respects(root, q, L, 0, [])
    requires Averages(avg, plays, ws, L, OwnInfosets(root, q))
    ensures Times(Sum(ws, |ws|), Utility(root, p, mine, avg)) == Dot(ws, Against(root, p, mine, plays), |ws|)
  {
    AverageRealizes(root, p, q, mine, plays, ws, avg, L, 0, []);
    assert Reaches(ws, plays, []) == ws;
  }

  /** In a zero-sum game what the players earn in the iterations cancels. */
  lemma EarnedCancels(root: Tree, plays: seq<Strategy>, ws: seq<real>)
    requires |ws| == |plays| && WellFormed(root) && ZeroSum(root)
    ensures Dot(ws, Earned(root, 0, plays), |ws|) + Dot(ws, Earned(root, 1, plays), |ws|) == 0.0
  {
    forall k | 0 <= k < |plays| ensures Earned(root, 1, plays)[k] == Times(-1.0, Earned(root, 0, plays)[k]) {
      UtilitiesCancel(root, plays[k], plays[k]);
    }
    DotFactor(ws, Earned(root, 0, plays), Earned(root, 1, plays), -1.0, |ws|);
  }

  /** The best response to the average earns no more than was earned in the iterations plus the regrets. */
  lemma OneSide(root: Tree, p: nat, q: nat, plays: seq<Strategy>, ws: seq<real>, avg: Strategy, L: Layout, M: Layout,
      order: seq<string>, v: real)
    requires |ws| == |plays| && p + q == 1 && WellFormed(root) && Respects(root, q, M, 0, [])
    requires Played(root, p, plays, L, order)
    requires Averages(avg, plays, ws, M, OwnInfosets(root, q)) && IsBestResponseValue(v, root, p, avg)
    ensures AllPlayable(root, p, plays, L, order)
    ensures Times(Sum(ws, |ws|), v)
            <= Dot(ws, Earned(root, p, plays), |ws|) + TotalTop(root, p, plays, ws, L, order, |order|)
  {
    var mine :| Profile(mine) && Expected(root, p, mine, avg) == v;
    hide *;
    UtilityIsExpected(root, p, mine, avg);
    AgainstAverage(root, p, q, mine, plays, ws, avg, M);
    RegretBounded(root, p, plays, ws, mine, L, order);
  }

  /**
   * The averaged strategies of any run of strategies: the best responses to them earn, together and times the total
   * weight, at most the greatest summed regrets of both players' information sets.
   */
  lemma AverageIsNearNash(root: Tree, plays: seq<Strategy>, ws: seq<real>, avg: Strategy, L0: Layout, L1: Layout,
      order0: seq<string>, order1: seq<string>, v0: real, v1: real)
    requires |ws| == |plays| && WellFormed(root) && ZeroSum(root)
    requires Played(root, 0, plays, L0, order0) && Played(root, 1, plays, L1, order1)
    requires Averages(avg, plays, ws, L0, OwnInfosets(root, 0)) && Averages(avg, plays, ws, L1, OwnInfosets(root, 1))
    requires IsBestResponseValue(v0, root, 0, avg) && IsBestResponseValue(v1, root, 1, avg)
    ensures AllPlayable(root, 0, plays, L0, order0) && AllPlayable(root, 1, plays, L1, order1)
    ensures Times(Sum(ws, |ws|), v0 + v1)
         <= TotalTop(root, 0, plays, ws, L0, order0, |order0|) + TotalTop(root, 1, plays, ws, L1, order1, |order1|)
  {
    hide *;
    PlayedRespects(root, 0, plays, L0, order0);
    PlayedRespects(root, 1, plays, L1, order1);
    OneSide(root, 0, 1, plays, ws, avg, L0, L1, order0, v0);
    OneSide(root, 1, 0, plays, ws, avg, L1, L0, order1, v1);
    EarnedCancels(root, plays, ws);
    SplitTimes(Sum(ws, |ws|), v0, v1);
  }

  lemma PlayedRespects(root: Tree, p: nat, plays: seq<Strategy>, L: Layout, order: seq<string>)
    requires Played(root, p, plays, L, order)
    ensures Respects(root, p, L, 0, [])
  {
  }

  // ---------------------------------------------------------------- what the solver accumulates

  /** The strategies of the rounds. */
  function Plays(rounds: seq<Cfr.Round>): (plays: seq<Strategy>)
    ensures |plays| == |rounds|
  {
    seq(|rounds|, k requires 0 <= k < |rounds| => rounds[k].sigma)
  }

  /** What iterations 1..n count in the average: alike, or in proportion to their number. */
  ghost function Weights(cfg: Cfr.Config, n: nat): (ws: seq<real>)
    ensures |ws| == n
  {
    seq(n, k requires 0 <= k < n => if cfg.variant.Vanilla? then 1.0 else (k + 1) as real)
  }

  /** What they count in the regrets. */
  ghost function RegretWeights(cfg: Cfr.Config, n: nat): (ws: seq<real>)
    ensures |ws| == n
  {
    seq(n, k requires 0 <= k < n => Cfr.RegretWeight(cfg, k + 1))
  }

  /** Vanilla, linear or CFR+, which floors the regrets and averages linearly; nothing is discounted or pruned. */
  ghost predicate Plain(cfg: Cfr.Config) {
    !cfg.variant.Dcfr? && forall t :: cfg.prune(t).None?
  }

  /** How far the regrets lag behind the average: CFR+ counts an iteration once there and `t` times here. */
  ghost function Lag(cfg: Cfr.Config, n: nat): real {
    if cfg.variant.CfrPlus? then n as real else 1.0
  }

  lemma WeightsAre(cfg: Cfr.Config, n: nat, k: nat)
    requires !cfg.variant.Dcfr? && k < n
    ensures Weights(cfg, n)[k] == Cfr.StrategyWeight(cfg, k + 1)
    ensures !cfg.variant.CfrPlus? ==> Weights(cfg, n) == RegretWeights(cfg, n)
    ensures cfg.variant.CfrPlus? ==> Weights(cfg, n)[k] == (k + 1) as real && RegretWeights(cfg, n)[k] == 1.0
  {
  }

  lemma {:induction false} ActionValueConcat(xs: seq<Entry>, ys: seq<Entry>, a: nat, p: nat, mine: Strategy,
      theirs: Strategy)
    requires forall e :: e in xs + ys ==> e.node.Decision? && a < |e.node.children|
    ensures forall e :: e in xs || e in ys ==> e.node.Decision? && a < |e.node.children|
    ensures ActionValue(xs + ys, a, p, mine, theirs)
            == ActionValue(xs, a, p, mine, theirs) + ActionValue(ys, a, p, mine, theirs)
  {
    forall e | e in xs || e in ys ensures e.node.Decision? && a < |e.node.children| {
      assert e in xs + ys;
    }
    if ys == [] {
      assert xs + ys == xs;
    } else {
      var k := |ys| - 1;
      assert (xs + ys)[..|xs + ys| - 1] == xs + ys[..k];
      assert forall e :: e in xs + ys[..k] ==> e in xs + ys;
      ActionValueConcat(xs, ys[..k], a, p, mine, theirs);
    }
  }

  /** Reach-weighted advantage of action `a` over the strategy in force, history by history. */
  function Edge(es: seq<Entry>, a: nat, p: nat, sigma: Strategy): real
    requires forall e :: e in es ==> e.node.Decision? && a < |e.node.children|
  {
    ActionValue(es, a, p, sigma, sigma) - InfosetValue(es, p, sigma, sigma)
  }

  lemma EdgeConcat(xs: seq<Entry>, ys: seq<Entry>, a: nat, p: nat, sigma: Strategy)
    requires forall e :: e in xs + ys ==> e.node.Decision? && a < |e.node.children|
    ensures forall e :: e in xs || e in ys ==> e.node.Decision? && a < |e.node.children|
    ensures Edge(xs + ys, a, p, sigma) == Edge(xs, a, p, sigma) + Edge(ys, a, p, sigma)
  {
    ActionValueConcat(xs, ys, a, p, sigma, sigma);
    InfosetValueConcat(xs, ys, p, sigma, sigma);
  }

  /** A child's counterfactual reach is the same number on both sides. */
  lemma SameReach(P: Cfr.Pass, t: Tree, reach: Cfr.Reach, k: nat)
    requires !t.Terminal? && k < |t.children| && P.tr < 2 && (t.Decision? ==> t.player < 2)
    ensures Cfr.ChildReach(P, t, reach, k).Counterfactual(P.tr)
         == ChildReach(t, P.tr, None, P.sigma, reach.Counterfactual(P.tr))[k]
  {
    hide Times;
    var w := NodeWeights(t, P.tr, P.sigma, P.sigma)[k];
    var opp := if P.tr == 0 then reach.one else reach.zero;
    TimesAlgebra(opp, reach.chance, w, 0.0);
    TimesCommutes(opp, reach.chance, w);
  }

  ghost predicate Counts(P: Cfr.Pass, t: Tree, I: string, a: nat, reach: Cfr.Reach, d: nat) {
    var es := Histories(t, P.tr, None, P.sigma, I, reach.Counterfactual(P.tr), d);
    && (forall e :: e in es ==> e.node.Decision? && a < |e.node.children|)
    && Cfr.Increment(Cfr.Regret, P, t, I, a, reach, Cfr.Whole(t))
        == Times(Cfr.RegretWeight(P.cfg, P.iter), Edge(es, a, P.tr, P.sigma))
  }

  ghost predicate CountsAmong(P: Cfr.Pass, t: Tree, I: string, a: nat, reach: Cfr.Reach, d: nat, m: nat)
    requires !t.Terminal? && m <= |t.children|
  {
    var es := HistoriesAmong(t.children, P.tr, None, P.sigma, I,
          ChildReach(t, P.tr, None, P.sigma, reach.Counterfactual(P.tr)), d + 1, m);
    && (forall e :: e in es ==> e.node.Decision? && a < |e.node.children|)
    && Cfr.IncrementAmong(Cfr.Regret, P, t, I, a, reach, Cfr.Whole(t).kept[..m])
        == Times(Cfr.RegretWeight(P.cfg, P.iter), Edge(es, a, P.tr, P.sigma))
  }

  /** What a pass adds to a regret is the iteration's weight times the counterfactual advantage. */
  lemma {:induction false} RegretIncrement(P: Cfr.Pass, t: Tree, I: string, a: nat, reach: Cfr.Reach, d: nat)
    requires P.tr < 2 && Cfr.Consistent(t, P.sets) && I in P.sets && a < P.sets[I].arity
    ensures Counts(P, t, I, a, reach, d)
    decreases t, 1, 0
  {
    if t.Terminal? {
      TimesZero(Cfr.RegretWeight(P.cfg, P.iter));
    } else {
      RegretIncrementAmong(P, t, I, a, reach, d, |t.children|);
      RegretHere(P, t, I, a, reach, d);
    }
  }

  lemma {:induction false} RegretIncrementAmong(P: Cfr.Pass, t: Tree, I: string, a: nat, reach: Cfr.Reach, d: nat,
      m: nat)
    requires P.tr < 2 && Cfr.Consistent(t, P.sets) && I in P.sets && a < P.sets[I].arity && !t.Terminal?
    requires m <= |t.children|
    ensures CountsAmong(P, t, I, a, reach, d, m)
    decreases t, 0, m
  {
    if m == 0 {
      TimesZero(Cfr.RegretWeight(P.cfg, P.iter));
    } else {
      RegretIncrementAmong(P, t, I, a, reach, d, m - 1);
      SameReach(P, t, reach, m - 1);
      RegretIncrement(P, t.children[m - 1], I, a, Cfr.ChildReach(P, t, reach, m - 1), d + 1);
      AmongStep(P, t, I, a, reach, d, m);
    }
  }

  lemma AmongStep(P: Cfr.Pass, t: Tree, I: string, a: nat, reach: Cfr.Reach, d: nat, m: nat)
    requires !t.Terminal? && 0 < m <= |t.children| && CountsAmong(P, t, I, a, reach, d, m - 1)
    requires Counts(P, t.children[m - 1], I, a, Cfr.ChildReach(P, t, reach, m - 1), d + 1)
    requires Cfr.ChildReach(P, t, reach, m - 1).Counterfactual(P.tr)
          == ChildReach(t, P.tr, None, P.sigma, reach.Counterfactual(P.tr))[m - 1]
    ensures CountsAmong(P, t, I, a, reach, d, m)
  {
    hide Times, Histories, Edge, Cfr.Increment, Cfr.ChildReach, ChildReach;
    var rs := ChildReach(t, P.tr, None, P.sigma, reach.Counterfactual(P.tr));
    var before := HistoriesAmong(t.children, P.tr, None, P.sigma, I, rs, d + 1, m - 1);
    var here := Histories(t.children[m - 1], P.tr, None, P.sigma, I, rs[m - 1], d + 1);
    EdgeConcat(before, here, a, P.tr, P.sigma);
    SplitTimes(Cfr.RegretWeight(P.cfg, P.iter), Edge(before, a, P.tr, P.sigma), Edge(here, a, P.tr, P.sigma));
    var cuts := Cfr.Whole(t).kept;
    assert cuts[..m][..m - 1] == cuts[..m - 1] && cuts[..m][m - 1] == Some(Cfr.Whole(t.children[m - 1]));
  }

  lemma RegretHere(P: Cfr.Pass, t: Tree, I: string, a: nat, reach: Cfr.Reach, d: nat)
    requires Cfr.Consistent(t, P.sets) && I in P.sets && a < P.sets[I].arity && !t.Terminal?
    requires CountsAmong(P, t, I, a, reach, d, |t.children|)
    ensures Counts(P, t, I, a, reach, d)
  {
    hide Times, Edge, HistoriesAmong, Cfr.IncrementAmong, Utility;
    var w, cf := Cfr.RegretWeight(P.cfg, P.iter), reach.Counterfactual(P.tr);
    var below := HistoriesAmong(t.children, P.tr, None, P.sigma, I, ChildReach(t, P.tr, None, P.sigma, cf), d + 1,
          |t.children|);
    var here := if t.Decision? && t.player == P.tr && t.infoset == I then [Entry(t, cf, d)] else [];
    assert Cfr.Whole(t).kept[..|t.children|] == Cfr.Whole(t).kept;
    assert Histories(t, P.tr, None, P.sigma, I, cf, d) == here + below;
    EdgeConcat(here, below, a, P.tr, P.sigma);
    EdgeHere(P, t, I, a, cf, d);
    SplitTimes(w, Edge(here, a, P.tr, P.sigma), Edge(below, a, P.tr, P.sigma));
  }

  lemma EdgeHere(P: Cfr.Pass, t: Tree, I: string, a: nat, cf: real, d: nat)
    requires t.Decision? ==> (t.infoset == I ==> a < |t.children|)
    ensures Edge([], a, P.tr, P.sigma) == 0.0 && Times(Cfr.RegretWeight(P.cfg, P.iter), 0.0) == 0.0
    ensures t.Decision? && t.infoset == I ==>
              var w := Cfr.RegretWeight(P.cfg, P.iter);
              Times(Times(w, cf), Cfr.Value(P, t.children[a]) - Cfr.Value(P, t))
                  == Times(w, Edge([Entry(t, cf, d)], a, P.tr, P.sigma))
  {
    hide Cfr.RegretWeight;
    TimesZero(Cfr.RegretWeight(P.cfg, P.iter));
    if t.Decision? && t.infoset == I {
      EdgeOfOne(P, t, a, cf, d);
      hide *;
      FactorsOut(Cfr.RegretWeight(P.cfg, P.iter), cf, Cfr.Value(P, t.children[a]), Cfr.Value(P, t));
    }
  }

  lemma EdgeOfOne(P: Cfr.Pass, t: Tree, a: nat, cf: real, d: nat)
    requires t.Decision? && a < |t.children|
    ensures Edge([Entry(t, cf, d)], a, P.tr, P.sigma)
         == Times(cf, Cfr.Value(P, t.children[a])) - Times(cf, Cfr.Value(P, t))
  {
    hide Times, Utility;
    var es := [Entry(t, cf, d)];
    assert es[..0] == [];
    assert ActionValue(es, a, P.tr, P.sigma, P.sigma) == Times(cf, Cfr.Value(P, t.children[a]));
    SingleHistory(es, P.tr, P.sigma, P.sigma);
  }

  lemma FactorsOut(w: real, cf: real, u: real, v: real)
    ensures Times(Times(w, cf), u - v) == Times(w, Times(cf, u) - Times(cf, v))
  {
    assert w * cf * (u - v) == w * (cf * u - cf * v);
  }

  /** The number of histories of `I` below `t`. */
  function HistoryCount(t: Tree, p: nat, I: string): nat {
    if t.Terminal? then 0 else
    (if t.Decision? && t.player == p && t.infoset == I then 1 else 0)
        + HistoryCountAmong(t.children, p, I, |t.children|)
  }

  function HistoryCountAmong(ts: seq<Tree>, p: nat, I: string, m: nat): nat
    requires m <= |ts|
    decreases ts, m
  {
    if m == 0 then 0 else HistoryCountAmong(ts, p, I, m - 1) + HistoryCount(ts[m - 1], p, I)
  }

  lemma {:induction false} SomeHistory(t: Tree, p: nat, I: string)
    requires I in OwnInfosets(t, p)
    ensures HistoryCount(t, p, I) > 0
    decreases t
  {
    if !(t.Decision? && t.player == p && t.infoset == I) {
      var i :| 0 <= i < |t.children| && I in OwnInfosets(t.children[i], p);
      SomeHistory(t.children[i], p, I);
      CountGrows(t.children, p, I, i, |t.children|);
    }
  }

  lemma {:induction false} CountGrows(ts: seq<Tree>, p: nat, I: string, i: nat, m: nat)
    requires i < m <= |ts|
    ensures HistoryCountAmong(ts, p, I, m) >= HistoryCount(ts[i], p, I)
  {
    if i < m - 1 {
      CountGrows(ts, p, I, i, m - 1);
    }
  }

  /** What a history adds to the strategy sum of action `a`: weight, own reach and probability. */
  ghost function Share(P: Cfr.Pass, L: Layout, I: string, n: nat, a: nat): real
    requires I in L.past && ValidMoves(L.past[I]) && a < n
  {
    Times(Times(Cfr.StrategyWeight(P.cfg, P.iter), OwnReach(L.past[I], P.sigma)), StrategyFor(P.sigma, I, n)[a])
  }

  ghost predicate SharesOf(P: Cfr.Pass, t: Tree, L: Layout, I: string, a: nat, reach: Cfr.Reach)
    requires I in P.sets && I in L.past && ValidMoves(L.past[I]) && a < P.sets[I].arity
  {
    Cfr.Increment(Cfr.Average, P, t, I, a, reach, Cfr.Whole(t))
    == Times(HistoryCount(t, P.tr, I) as real, Share(P, L, I, P.sets[I].arity, a))
  }

  /** Each history of an information set adds the same to the strategy sum: with perfect recall own reach is shared. */
  lemma {:induction false} AverageIncrement(P: Cfr.Pass, t: Tree, L: Layout, I: string, a: nat, reach: Cfr.Reach,
      d: nat, s: seq<Move>)
    requires P.tr < 2 && Cfr.Consistent(t, P.sets) && Respects(t, P.tr, L, d, s) && ValidMoves(s)
    requires I in P.sets && I in L.past && ValidMoves(L.past[I]) && a < P.sets[I].arity
    requires reach.Own(P.tr) == OwnReach(s, P.sigma)
    ensures SharesOf(P, t, L, I, a, reach)
    decreases t, 1, 0
  {
    if t.Terminal? {
      assert 0.0 * Share(P, L, I, P.sets[I].arity, a) == 0.0;
    } else {
      AverageIncrementAmong(P, t, L, I, a, reach, d, s, |t.children|);
      assert Cfr.Whole(t).kept[..|t.children|] == Cfr.Whole(t).kept;
      CountSplits(if t.Decision? && t.player == P.tr && t.infoset == I then 1 else 0,
                  HistoryCountAmong(t.children, P.tr, I, |t.children|), Share(P, L, I, P.sets[I].arity, a));
    }
  }

  lemma CountSplits(m: nat, n: nat, x: real)
    ensures Times((m + n) as real, x) == Times(m as real, x) + Times(n as real, x)
    ensures Times(1.0, x) == x && Times(0.0, x) == 0.0
  {
  }

  lemma {:induction false} AverageIncrementAmong(P: Cfr.Pass, t: Tree, L: Layout, I: string, a: nat, reach: Cfr.Reach,
      d: nat, s: seq<Move>, m: nat)
    requires P.tr < 2 && Cfr.Consistent(t, P.sets) && Respects(t, P.tr, L, d, s) && ValidMoves(s) && !t.Terminal?
    requires m <= |t.children|
    requires I in P.sets && I in L.past && ValidMoves(L.past[I]) && a < P.sets[I].arity
    requires reach.Own(P.tr) == OwnReach(s, P.sigma)
    ensures Cfr.IncrementAmong(Cfr.Average, P, t, I, a, reach, Cfr.Whole(t).kept[..m])
         == Times(HistoryCountAmong(t.children, P.tr, I, m) as real, Share(P, L, I, P.sets[I].arity, a))
    decreases t, 0, m
  {
    var x := Share(P, L, I, P.sets[I].arity, a);
    CountSplits(0, 0, x);
    if m > 0 {
      var k := m - 1;
      AverageIncrementAmong(P, t, L, I, a, reach, d, s, k);
      OwnReachOfChild(P, t, reach, s, k);
      AverageIncrement(P, t.children[k], L, I, a, Cfr.ChildReach(P, t, reach, k), d + 1, Extended(t, P.tr, s, k));
      CountSplits(HistoryCountAmong(t.children, P.tr, I, k), HistoryCount(t.children[k], P.tr, I), x);
      hide Times, Cfr.Increment, Share, Respects, Cfr.Consistent, Cfr.Whole, HistoryCount, ValidMoves, OwnReach;
      WholeStep(P, t, I, a, reach, m);
    }
  }

  lemma WholeStep(P: Cfr.Pass, t: Tree, I: string, a: nat, reach: Cfr.Reach, m: nat)
    requires !t.Terminal? && 0 < m <= |t.children|
    ensures Cfr.IncrementAmong(Cfr.Average, P, t, I, a, reach, Cfr.Whole(t).kept[..m])
         == Cfr.IncrementAmong(Cfr.Average, P, t, I, a, reach, Cfr.Whole(t).kept[..m - 1])
            + Cfr.Increment(Cfr.Average, P, t.children[m - 1], I, a, Cfr.ChildReach(P, t, reach, m - 1),
                  Cfr.Whole(t.children[m - 1]))
  {
    hide Cfr.Increment, Cfr.ChildReach;
    var cuts := Cfr.Whole(t).kept;
    assert cuts[..m][..m - 1] == cuts[..m - 1] && cuts[..m][m - 1] == Some(Cfr.Whole(t.children[m - 1]));
  }

  lemma OwnReachOfChild(P: Cfr.Pass, t: Tree, reach: Cfr.Reach, s: seq<Move>, k: nat)
    requires P.tr < 2 && !t.Terminal? && k < |t.children| && ValidMoves(s) && (t.Decision? ==> t.player < 2)
    requires reach.Own(P.tr) == OwnReach(s, P.sigma)
    ensures ValidMoves(Extended(t, P.tr, s, k))
    ensures Cfr.ChildReach(P, t, reach, k).Own(P.tr) == OwnReach(Extended(t, P.tr, s, k), P.sigma)
  {
    if t.Decision? && t.player == P.tr {
      var m := Move(t.infoset, |t.children|, k);
      assert (s + [m])[..|s + [m]| - 1] == s && (s + [m])[|s + [m]| - 1] == m;
    }
  }

  // ---------------------------------------------------------------- the solver's own regrets and averages

  /** A plain run of the solver on a game in which `p` forgets nothing. */
  ghost predicate PlainRun(root: Tree, sets: map<string, Cfr.Info>, cfg: Cfr.Config, rounds: seq<Cfr.Round>, p: nat,
      L: Layout) {
    && p < 2 && Cfr.Consistent(root, sets) && Cfr.GoodSets(sets) && Plain(cfg) && Respects(root, p, L, 0, [])
    && forall k :: 0 <= k < |rounds| ==> Cfr.FairRound(root, sets, cfg, k + 1, rounds[k])
  }

  lemma {:induction false} OwnersMatch(t: Tree, sets: map<string, Cfr.Info>, p: nat, L: Layout, d: nat, s: seq<Move>)
    requires Cfr.Consistent(t, sets) && Respects(t, p, L, d, s)
    ensures forall I :: I in OwnInfosets(t, p) ==> I in sets && I in L.arity && sets[I] == Cfr.Info(p, L.arity[I])
  {
    if !t.Terminal? {
      forall i | 0 <= i < |t.children|
        ensures forall I :: I in OwnInfosets(t.children[i], p) ==>
                I in sets && I in L.arity && sets[I] == Cfr.Info(p, L.arity[I])
      {
        OwnersMatch(t.children[i], sets, p, L, d + 1, Extended(t, p, s, i));
      }
    }
  }

  /** What is known of an information set of `p`. */
  lemma InfosetFacts(root: Tree, sets: map<string, Cfr.Info>, cfg: Cfr.Config, rounds: seq<Cfr.Round>, p: nat,
      L: Layout, I: string)
    requires PlainRun(root, sets, cfg, rounds, p, L) && I in OwnInfosets(root, p)
    ensures I in sets && I in L.arity && I in L.past && sets[I] == Cfr.Info(p, L.arity[I]) && L.arity[I] > 0
    ensures ValidMoves(L.past[I])
    ensures forall k :: 0 <= k < |rounds| ==> Playable(Histories(root, p, None, rounds[k].sigma, I, 1.0, 0), L.arity[I])
  {
    hide Histories;
    OwnersMatch(root, sets, p, L, 0, []);
    InfosetsLieBelow(root, p, L, 0, []);
    PastIsShallower(root, p, L, 0, [], OwnInfosets(root, p));
    forall k | 0 <= k < |rounds| ensures Playable(Histories(root, p, None, rounds[k].sigma, I, 1.0, 0), L.arity[I]) {
      HistoriesAreAtInfoset(root, p, None, rounds[k].sigma, I, 1.0, L, 0, []);
    }
  }

  lemma RoundIsWhole(root: Tree, sets: map<string, Cfr.Info>, cfg: Cfr.Config, rounds: seq<Cfr.Round>, p: nat,
      L: Layout, k: nat)
    requires PlainRun(root, sets, cfg, rounds, p, L) && k < |rounds|
    ensures rounds[k].CutOf(p) == Cfr.Whole(root) && Profile(rounds[k].sigma)
    ensures forall I :: I in sets ==>
            I in rounds[k].sigma && |rounds[k].sigma[I]| == sets[I].arity && Distribution(rounds[k].sigma[I])
  {
    hide Cfr.Legal, Cfr.Consistent, Respects, Cfr.Whole, Distribution;
    assert Cfr.FairRound(root, sets, cfg, k + 1, rounds[k]);
    Cfr.PruningOffIsWhole(Cfr.Pass(cfg, k + 1, p, sets, rounds[k].sigma), root, rounds[k].CutOf(p));
    forall I | I in sets
      ensures I in rounds[k].sigma && |rounds[k].sigma[I]| == sets[I].arity && Distribution(rounds[k].sigma[I])
    {
      assert Cfr.PlaysDistribution(Cfr.Pass(cfg, k + 1, 0, sets, rounds[k].sigma), I);
    }
  }

  lemma OneRegret(root: Tree, sets: map<string, Cfr.Info>, cfg: Cfr.Config, rounds: seq<Cfr.Round>, p: nat, L: Layout,
      I: string, a: nat, k: nat)
    requires PlainRun(root, sets, cfg, rounds, p, L) && I in OwnInfosets(root, p) && k < |rounds|
    requires I in sets && sets[I].owner == p && a < sets[I].arity
    requires Playable(Histories(root, p, None, rounds[k].sigma, I, 1.0, 0), sets[I].arity)
    ensures Cfr.IterationIncrements(Cfr.Regret, root, sets, cfg, k + 1, rounds[k], I)[a]
         == Times(Cfr.RegretWeight(cfg, k + 1), Advantage(root, p, rounds[k].sigma, I, sets[I].arity, a))
  {
    hide Times, Histories, Cfr.Increment, ActionValue, InfosetValue, Respects, Cfr.FairRound, Cfr.Whole;
    var P := Cfr.Pass(cfg, k + 1, p, sets, rounds[k].sigma);
    RoundIsWhole(root, sets, cfg, rounds, p, L, k);
    RegretIncrement(P, root, I, a, Cfr.FULL_REACH, 0);
    UnitTimes(1.0);
  }

  lemma {:induction false} StoredRegret(root: Tree, sets: map<string, Cfr.Info>, cfg: Cfr.Config,
      rounds: seq<Cfr.Round>, p: nat, L: Layout, I: string, a: nat, m: nat)
    requires PlainRun(root, sets, cfg, rounds, p, L) && I in OwnInfosets(root, p) && m <= |rounds|
    requires I in sets && sets[I].owner == p && a < sets[I].arity
    requires forall k :: 0 <= k < |rounds| ==>
             Playable(Histories(root, p, None, Plays(rounds)[k], I, 1.0, 0), sets[I].arity)
    ensures Cfr.Accumulated(Cfr.Regret, root, sets, cfg, rounds[..m], I, a)
         == Dot(RegretWeights(cfg, |rounds|), AdvantagesOver(root, p, Plays(rounds), I, sets[I].arity, a), m)
  {
    hide Times, Histories, PlainRun, Playable, Advantage, Cfr.IterationIncrements, Cfr.RegretWeight;
    if m > 0 {
      StoredRegret(root, sets, cfg, rounds, p, L, I, a, m - 1);
      assert rounds[..m][..m - 1] == rounds[..m - 1] && rounds[..m][m - 1] == rounds[m - 1];
      assert Plays(rounds)[m - 1] == rounds[m - 1].sigma;
      OneRegret(root, sets, cfg, rounds, p, L, I, a, m - 1);
    }
  }

  lemma OneShare(root: Tree, sets: map<string, Cfr.Info>, cfg: Cfr.Config, rounds: seq<Cfr.Round>, p: nat, L: Layout,
      I: string, a: nat, k: nat)
    requires PlainRun(root, sets, cfg, rounds, p, L) && I in OwnInfosets(root, p) && k < |rounds|
    requires I in sets && sets[I].owner == p && a < sets[I].arity && I in L.past && ValidMoves(L.past[I])
    ensures Cfr.IterationIncrements(Cfr.Average, root, sets, cfg, k + 1, rounds[k], I)[a]
         == Times(HistoryCount(root, p, I) as real,
                  Times(Reaches(Weights(cfg, |rounds|), Plays(rounds), L.past[I])[k],
                        Column(Plays(rounds), I, sets[I].arity, a)[k]))
  {
    hide Times, Cfr.Increment, Respects, Cfr.FairRound, Cfr.Whole, OwnReach;
    var P := Cfr.Pass(cfg, k + 1, p, sets, rounds[k].sigma);
    NotDiscounted(root, sets, cfg, rounds, p, L);
    WeightsAre(cfg, |rounds|, k);
    NothingRemembered(rounds[k].sigma);
    AverageIncrement(P, root, L, I, a, Cfr.FULL_REACH, 0, []);
  }

  lemma NothingRemembered(sigma: Strategy)
    ensures OwnReach([], sigma) == 1.0 && ValidMoves([])
  {
  }

  lemma {:induction false} StoredAverage(root: Tree, sets: map<string, Cfr.Info>, cfg: Cfr.Config,
      rounds: seq<Cfr.Round>, p: nat, L: Layout, I: string, a: nat, m: nat)
    requires PlainRun(root, sets, cfg, rounds, p, L) && I in OwnInfosets(root, p) && m <= |rounds|
    requires I in sets && sets[I].owner == p && a < sets[I].arity && I in L.past && ValidMoves(L.past[I])
    ensures Cfr.Accumulated(Cfr.Average, root, sets, cfg, rounds[..m], I, a)
         == Times(HistoryCount(root, p, I) as real,
                  Dot(Reaches(Weights(cfg, |rounds|), Plays(rounds), L.past[I]),
                        Column(Plays(rounds), I, sets[I].arity, a), m))
  {
    hide Times, PlainRun, Cfr.IterationIncrements, Reaches, Column, ValidMoves;
    var c := HistoryCount(root, p, I) as real;
    var rs, xs := Reaches(Weights(cfg, |rounds|), Plays(rounds), L.past[I]), Column(Plays(rounds), I, sets[I].arity, a);
    TimesZero(c);
    if m > 0 {
      StoredAverage(root, sets, cfg, rounds, p, L, I, a, m - 1);
      assert rounds[..m][..m - 1] == rounds[..m - 1] && rounds[..m][m - 1] == rounds[m - 1];
      OneShare(root, sets, cfg, rounds, p, L, I, a, m - 1);
      SplitTimes(c, Dot(rs, xs, m - 1), Times(rs[m - 1], xs[m - 1]));
    }
  }

  /** Over the actions, the columns add up to the reaches: every row is a distribution. */
  lemma {:induction false} ColumnsSum(rs: seq<real>, plays: seq<Strategy>, I: string, n: nat, m: nat, dots: seq<real>,
      rows: seq<real>)
    requires |rs| == |plays| == |rows| && m <= n == |dots|
    requires forall a :: 0 <= a < n ==> dots[a] == Dot(rs, Column(plays, I, n, a), |rs|)
    requires forall k :: 0 <= k < |plays| ==> rows[k] == Sum(StrategyFor(plays[k], I, n), m)
    ensures Sum(dots, m) == Dot(rs, rows, |rs|)
  {
    hide StrategyFor, Times;
    if m == 0 {
      DotZeros(rs, rows, |rs|);
    } else {
      var before := seq(|plays|, k requires 0 <= k < |plays| => Sum(StrategyFor(plays[k], I, n), m - 1));
      ColumnsSum(rs, plays, I, n, m - 1, dots, before);
      DotPlus(rs, before, Column(plays, I, n, m - 1), rows, |rs|);
    }
  }

  lemma ReachesAreColumns(rs: seq<real>, plays: seq<Strategy>, I: string, n: nat, dots: seq<real>)
    requires |rs| == |plays| && n == |dots|
    requires forall a :: 0 <= a < n ==> dots[a] == Dot(rs, Column(plays, I, n, a), |rs|)
    requires forall k :: 0 <= k < |plays| ==> Distribution(StrategyFor(plays[k], I, n))
    ensures Sum(dots, n) == Sum(rs, |rs|)
  {
    var rows := seq(|plays|, k requires 0 <= k < |plays| => Sum(StrategyFor(plays[k], I, n), n));
    ColumnsSum(rs, plays, I, n, n, dots, rows);
    forall k | 0 <= k < |plays| ensures rows[k] == 1.0 {
      assert Distribution(StrategyFor(plays[k], I, n));
    }
    DotOnes(rs, rows, 1.0, |rs|);
  }

  /** What `Solver.AverageStrategy` returns. */
  ghost predicate AveragesOf(averages: Strategy, root: Tree, sets: map<string, Cfr.Info>, cfg: Cfr.Config,
      table: Cfr.Table, rounds: seq<Cfr.Round>)
    requires Cfr.Fits(table, sets)
  {
    && averages.Keys == table.Keys && Profile(averages)
    && forall I, a :: I in table && 0 <= a < sets[I].arity ==>
         |averages[I]| == sets[I].arity
         && Times(Sum(table[I].strategySum, sets[I].arity), averages[I][a])
             == Cfr.Accumulated(Cfr.Average, root, sets, cfg, rounds, I, a)
  }

  lemma {:induction false} SumScaled(xs: seq<real>, c: real, ys: seq<real>, n: nat)
    requires n <= |xs| && n <= |ys| && forall i :: 0 <= i < n ==> ys[i] == Times(c, xs[i])
    ensures Sum(ys, n) == Times(c, Sum(xs, n))
  {
    TimesZero(c);
    if n > 0 {
      SumScaled(xs, c, ys, n - 1);
      SplitTimes(c, Sum(xs, n - 1), xs[n - 1]);
    }
  }

  lemma CancelCount(c: real, total: real, x: real, y: real)
    requires c > 0.0 && Times(Times(c, total), x) == Times(c, y)
    ensures Times(total, x) == y
  {
    assert c * (total * x) == c * y;
  }

  lemma CancelZero(c: real, y: real)
    requires c > 0.0 && Times(c, y) == 0.0
    ensures y == 0.0
  {
  }

  /** The dot products the strategy sums are made of, one per action. */
  ghost function ActionDots(rounds: seq<Cfr.Round>, cfg: Cfr.Config, L: Layout, I: string, n: nat): (dots: seq<real>)
    requires I in L.past && ValidMoves(L.past[I])
    ensures |dots| == n
    ensures forall a :: 0 <= a < n ==>
              dots[a] == Dot(Reaches(Weights(cfg, |rounds|), Plays(rounds), L.past[I]), Column(Plays(rounds), I, n, a),
                    |rounds|)
  {
    seq(n, a requires 0 <= a < n => Dot(Reaches(Weights(cfg, |rounds|), Plays(rounds), L.past[I]),
            Column(Plays(rounds), I, n, a), |rounds|))
  }

  /** The strategy sums are the dot products, once for every history of the information set. */
  lemma StoredSums(root: Tree, sets: map<string, Cfr.Info>, cfg: Cfr.Config, table: Cfr.Table, rounds: seq<Cfr.Round>,
      p: nat, L: Layout, I: string)
    requires PlainRun(root, sets, cfg, rounds, p, L) && Cfr.Sound(root, sets, cfg, table, rounds)
    requires I in OwnInfosets(root, p)
    requires I in sets && sets[I].owner == p && I in L.past && ValidMoves(L.past[I])
    ensures var n, c := sets[I].arity, HistoryCount(root, p, I) as real;
            var dots := ActionDots(rounds, cfg, L, I, n);
            && (forall a :: 0 <= a < n ==>
                  Cfr.Accumulated(Cfr.Average, root, sets, cfg, rounds, I, a) == Times(c, dots[a]))
            && (forall a :: 0 <= a < n ==> Cfr.TotalOf(Cfr.Average, table, sets, I)[a] == Times(c, dots[a]))
            && c > 0.0
  {
    hide Times, PlainRun, Reaches, Column, Cfr.Accumulated, ValidMoves;
    var n, c := sets[I].arity, HistoryCount(root, p, I) as real;
    var dots := ActionDots(rounds, cfg, L, I, n);
    SomeHistory(root, p, I);
    NotDiscounted(root, sets, cfg, rounds, p, L);
    assert Cfr.SoundAt(root, sets, cfg, table, rounds, I);
    forall a: nat | a < n
      ensures Cfr.Accumulated(Cfr.Average, root, sets, cfg, rounds, I, a) == Times(c, dots[a])
      ensures Cfr.TotalOf(Cfr.Average, table, sets, I)[a] == Times(c, dots[a])
    {
      StoredAverage(root, sets, cfg, rounds, p, L, I, a, |rounds|);
      assert rounds[..|rounds|] == rounds;
    }
  }

  lemma NotDiscounted(root: Tree, sets: map<string, Cfr.Info>, cfg: Cfr.Config, rounds: seq<Cfr.Round>, p: nat,
      L: Layout)
    requires PlainRun(root, sets, cfg, rounds, p, L)
    ensures !cfg.variant.Dcfr?
  {
  }

  lemma RowsPlayed(root: Tree, sets: map<string, Cfr.Info>, cfg: Cfr.Config, rounds: seq<Cfr.Round>, p: nat, L: Layout,
      I: string)
    requires PlainRun(root, sets, cfg, rounds, p, L) && I in sets
    ensures forall k :: 0 <= k < |rounds| ==> Distribution(StrategyFor(Plays(rounds)[k], I, sets[I].arity))
  {
    hide PlainRun, Distribution;
    forall k | 0 <= k < |rounds| ensures Distribution(StrategyFor(Plays(rounds)[k], I, sets[I].arity)) {
      RoundIsWhole(root, sets, cfg, rounds, p, L, k);
    }
  }

  lemma AverageRow(averages: Strategy, root: Tree, sets: map<string, Cfr.Info>, cfg: Cfr.Config, table: Cfr.Table,
      rounds: seq<Cfr.Round>, I: string, a: nat)
    requires Cfr.Fits(table, sets) && AveragesOf(averages, root, sets, cfg, table, rounds)
    requires I in table && a < sets[I].arity
    ensures I in averages && |averages[I]| == sets[I].arity
    ensures averages[I] == StrategyFor(averages, I, sets[I].arity)
    ensures Times(Sum(table[I].strategySum, sets[I].arity), averages[I][a])
         == Cfr.Accumulated(Cfr.Average, root, sets, cfg, rounds, I, a)
  {
    hide Times, Sum, Cfr.Accumulated, Distribution;
    var added := Cfr.Accumulated(Cfr.Average, root, sets, cfg, rounds, I, a);
  }

  /** The averaged strategy of the solver is an average in the sense of the realization theorem. */
  lemma SolverAverageAt(root: Tree, sets: map<string, Cfr.Info>, cfg: Cfr.Config, table: Cfr.Table,
      rounds: seq<Cfr.Round>, averages: Strategy, p: nat, L: Layout, I: string)
    requires PlainRun(root, sets, cfg, rounds, p, L) && Cfr.Sound(root, sets, cfg, table, rounds)
    requires I in OwnInfosets(root, p)
    requires AveragesOf(averages, root, sets, cfg, table, rounds)
    ensures I in L.past && I in L.arity && ValidMoves(L.past[I])
    ensures AverageAt(averages, Plays(rounds), Weights(cfg, |rounds|), L, I)
  {
    hide Times, PlainRun, Reaches, Column, Cfr.Accumulated, ValidMoves, Sum, Cfr.SoundAt, Cfr.FairRound, OwnInfosets,
      HistoryCount, Weights, Dot, Playable, Histories, Distribution;
    InfosetFacts(root, sets, cfg, rounds, p, L, I);
    var n, c, rs := L.arity[I], HistoryCount(root, p, I) as real,
        Reaches(Weights(cfg, |rounds|), Plays(rounds), L.past[I]);
    var dots, tot := ActionDots(rounds, cfg, L, I, n), Cfr.TotalOf(Cfr.Average, table, sets, I);
    StoredSums(root, sets, cfg, table, rounds, p, L, I);
    RowsPlayed(root, sets, cfg, rounds, p, L, I);
    ReachesAreColumns(rs, Plays(rounds), I, n, dots);
    SumScaled(dots, c, tot, n);
    forall a | 0 <= a < n ensures Times(Sum(rs, |rs|), StrategyFor(averages, I, n)[a]) == dots[a] {
      if I in table {
        AverageRow(averages, root, sets, cfg, table, rounds, I, a);
        CancelCount(c, Sum(rs, |rs|), averages[I][a], dots[a]);
      } else {
        NeverVisited(c, dots, tot, n);
        ZeroProduct(StrategyFor(averages, I, n)[a]);
      }
    }
  }

  lemma ZeroProduct(x: real)
    ensures Times(0.0, x) == 0.0
  {
  }

  lemma {:induction false} NeverVisited(c: real, dots: seq<real>, tot: seq<real>, n: nat)
    requires c > 0.0 && n == |dots| == |tot| && tot == Cfr.Zeros(n) && forall a :: 0 <= a < n ==>
             tot[a] == Times(c, dots[a])
    ensures (forall a :: 0 <= a < n ==> dots[a] == 0.0) && Sum(dots, n) == 0.0
  {
    forall a | 0 <= a < n ensures dots[a] == 0.0 {
      CancelZero(c, dots[a]);
    }
    SumConstant(dots, n, 0.0);
  }

  lemma SolverAverages(root: Tree, sets: map<string, Cfr.Info>, cfg: Cfr.Config, table: Cfr.Table,
      rounds: seq<Cfr.Round>, averages: Strategy, p: nat, L: Layout)
    requires PlainRun(root, sets, cfg, rounds, p, L) && Cfr.Sound(root, sets, cfg, table, rounds)
    requires AveragesOf(averages, root, sets, cfg, table, rounds)
    ensures Averages(averages, Plays(rounds), Weights(cfg, |rounds|), L, OwnInfosets(root, p))
  {
    hide PlainRun, Cfr.Sound, AveragesOf, AverageAt, ValidMoves, OwnInfosets;
    forall I | I in OwnInfosets(root, p)
      ensures I in L.past && I in L.arity && ValidMoves(L.past[I])
      ensures AverageAt(averages, Plays(rounds), Weights(cfg, |rounds|), L, I)
    {
      SolverAverageAt(root, sets, cfg, table, rounds, averages, p, L, I);
    }
  }

  // ---------------------------------------------------------------- the main results

  /** The greatest stored regrets of the first `j` information sets, added up. */
  ghost function StoredTop(table: Cfr.Table, sets: map<string, Cfr.Info>, order: seq<string>, j: nat): real
    requires Cfr.Fits(table, sets) && j <= |order| && forall I :: I in order ==> I in sets
  {
    if j == 0 then 0.0
    else StoredTop(table, sets, order, j - 1)
         + Top(Cfr.TotalOf(Cfr.Regret, table, sets, order[j - 1]))
  }

  lemma SolverRegretAt(root: Tree, sets: map<string, Cfr.Info>, cfg: Cfr.Config, table: Cfr.Table,
      rounds: seq<Cfr.Round>, p: nat, L: Layout, I: string)
    requires PlainRun(root, sets, cfg, rounds, p, L) && Cfr.Sound(root, sets, cfg, table, rounds)
    requires I in OwnInfosets(root, p)
    ensures I in sets && I in L.arity && Cfr.Fits(table, sets)
    ensures forall k :: 0 <= k < |rounds| ==>
            Playable(Histories(root, p, None, Plays(rounds)[k], I, 1.0, 0), L.arity[I])
    ensures Top(RegretSums(root, p, Plays(rounds), Weights(cfg, |rounds|), I, L.arity[I]))
            <= Times(Lag(cfg, |rounds|), Top(Cfr.TotalOf(Cfr.Regret, table, sets, I)))
  {
    hide *;
    InfosetFacts(root, sets, cfg, rounds, p, L, I);
    PlaysAre(rounds);
    SoundFits(root, sets, cfg, table, rounds);
    var n := L.arity[I];
    var xs := RegretSums(root, p, Plays(rounds), Weights(cfg, |rounds|), I, n);
    forall a: nat | a < n ensures xs[a] <= Times(Lag(cfg, |rounds|), Cfr.TotalOf(Cfr.Regret, table, sets, I)[a]) {
      SolverRegretOf(root, sets, cfg, table, rounds, p, L, I, a);
    }
    LagIsPositive(cfg, |rounds|);
    TopLags(xs, Cfr.TotalOf(Cfr.Regret, table, sets, I), Lag(cfg, |rounds|));
  }

  lemma LagIsPositive(cfg: Cfr.Config, n: nat)
    ensures Lag(cfg, n) >= 0.0
  {
  }

  lemma TopLags(xs: seq<real>, ys: seq<real>, c: real)
    requires |xs| == |ys| && c >= 0.0 && forall a: nat :: a < |xs| ==> xs[a] <= Times(c, ys[a])
    ensures Top(xs) <= Times(c, Top(ys))
  {
    NonNegativeTimes(c, Top(ys));
    if Top(xs) > 0.0 {
      var a :| 0 <= a < |xs| && xs[a] == Top(xs);
      NonNegativeTimes(c, Top(ys) - ys[a]);
      TimesMinus(c, Top(ys), ys[a]);
    }
  }

  lemma NonNegativeTimes(x: real, y: real)
    requires x >= 0.0 && y >= 0.0
    ensures Times(x, y) >= 0.0
  {
  }

  lemma PlaysAre(rounds: seq<Cfr.Round>)
    ensures forall k :: 0 <= k < |rounds| ==> Plays(rounds)[k] == rounds[k].sigma
  {
  }

  lemma SoundFits(root: Tree, sets: map<string, Cfr.Info>, cfg: Cfr.Config, table: Cfr.Table, rounds: seq<Cfr.Round>)
    requires Cfr.Sound(root, sets, cfg, table, rounds)
    ensures Cfr.Fits(table, sets)
  {
    hide Cfr.SoundAt, Cfr.FairRound;
  }

  lemma SolverRegretOf(root: Tree, sets: map<string, Cfr.Info>, cfg: Cfr.Config, table: Cfr.Table,
      rounds: seq<Cfr.Round>, p: nat, L: Layout, I: string, a: nat)
    requires PlainRun(root, sets, cfg, rounds, p, L) && Cfr.Sound(root, sets, cfg, table, rounds)
    requires I in OwnInfosets(root, p)
    requires I in sets && I in L.arity && sets[I] == Cfr.Info(p, L.arity[I]) && a < L.arity[I] && Cfr.Fits(table, sets)
    requires forall k :: 0 <= k < |rounds| ==>
             Playable(Histories(root, p, None, Plays(rounds)[k], I, 1.0, 0), L.arity[I])
    ensures RegretSum(root, p, Plays(rounds), Weights(cfg, |rounds|), I, L.arity[I], a)
            <= Times(Lag(cfg, |rounds|), Cfr.TotalOf(Cfr.Regret, table, sets, I)[a])
  {
    var n := |rounds|;
    NotDiscounted(root, sets, cfg, rounds, p, L);
    var advs := AdvantagesOver(root, p, Plays(rounds), I, L.arity[I], a);
    hide *;
    RegretSumIs(root, p, Plays(rounds), Weights(cfg, n), I, L.arity[I], a);
    forall m: nat | m <= n
      ensures Cfr.Accumulated(Cfr.Regret, root, sets, cfg, rounds[..m], I, a) == Dot(RegretWeights(cfg, n), advs, m)
    {
      StoredRegret(root, sets, cfg, rounds, p, L, I, a, m);
    }
    assert rounds[..n] == rounds;
    SoundRegrets(root, sets, cfg, table, rounds, I, a);
    if cfg.variant.CfrPlus? {
      FlooredRegret(cfg, n, advs, Cfr.TotalOf(Cfr.Regret, table, sets, I)[a], n);
    } else {
      SameWeighting(cfg, n);
      UnitTimes(Cfr.TotalOf(Cfr.Regret, table, sets, I)[a]);
    }
    LagIs(cfg, n);
    UnitTimes(0.0);
  }

  lemma RegretSumIs(root: Tree, p: nat, plays: seq<Strategy>, ws: seq<real>, I: string, n: nat, a: nat)
    requires |ws| == |plays| && a < n
    requires forall k :: 0 <= k < |plays| ==> Playable(Histories(root, p, None, plays[k], I, 1.0, 0), n)
    ensures RegretSum(root, p, plays, ws, I, n, a) == Dot(ws, AdvantagesOver(root, p, plays, I, n, a), |ws|)
  {
  }

  lemma LagIs(cfg: Cfr.Config, n: nat)
    ensures Lag(cfg, n) == if cfg.variant.CfrPlus? then n as real else 1.0
  {
  }

  lemma SameWeighting(cfg: Cfr.Config, n: nat)
    requires !cfg.variant.Dcfr? && !cfg.variant.CfrPlus?
    ensures Weights(cfg, n) == RegretWeights(cfg, n)
  {
  }

  /** What the table stores against what was added: all of it, or with flooring at least any last part of it. */
  lemma SoundRegrets(root: Tree, sets: map<string, Cfr.Info>, cfg: Cfr.Config, table: Cfr.Table,
      rounds: seq<Cfr.Round>, I: string, a: nat)
    requires Cfr.Sound(root, sets, cfg, table, rounds) && !cfg.variant.Dcfr? && I in sets && a < sets[I].arity
    ensures Cfr.Fits(table, sets)
    ensures !cfg.variant.CfrPlus? ==>
              Cfr.TotalOf(Cfr.Regret, table, sets, I)[a] == Cfr.Accumulated(Cfr.Regret, root, sets, cfg, rounds, I, a)
    ensures cfg.variant.CfrPlus? ==> forall m: nat :: m <= |rounds| ==>
              Cfr.TotalOf(Cfr.Regret, table, sets, I)[a]
              >= Cfr.Accumulated(Cfr.Regret, root, sets, cfg, rounds, I, a)
                 - Cfr.Accumulated(Cfr.Regret, root, sets, cfg, rounds[..m], I, a)
  {
    hide Cfr.Accumulated, Cfr.FairRound, Cfr.KeepsAverage, Cfr.Potential;
    assert Cfr.SoundAt(root, sets, cfg, table, rounds, I);
    assert !Cfr.Kind.Regret.Instant?;
  }

  /**
   * Why averaging linearly goes with flooring: if no last part of the regrets exceeds `q`, their linearly weighted
   * sum is no more than `q` for every iteration.
   */
  lemma {:induction false} FlooredRegret(cfg: Cfr.Config, n: nat, xs: seq<real>, q: real, m: nat)
    requires cfg.variant.CfrPlus? && |xs| == n && m <= n
    requires forall k: nat :: k <= n ==> q >= Dot(RegretWeights(cfg, n), xs, n) - Dot(RegretWeights(cfg, n), xs, k)
    ensures Dot(Weights(cfg, n), xs, m)
         <= Times(m as real, q - (Dot(RegretWeights(cfg, n), xs, n) - Dot(RegretWeights(cfg, n), xs, m)))
    ensures m == n ==> Dot(Weights(cfg, n), xs, m) <= Times(m as real, q)
  {
    hide Weights, RegretWeights;
    var all := Dot(RegretWeights(cfg, n), xs, n);
    if m > 0 {
      var k := m - 1;
      FlooredRegret(cfg, n, xs, q, k);
      WeightsAre(cfg, n, k);
      var left := q - (all - Dot(RegretWeights(cfg, n), xs, k));
      assert left >= 0.0;
      OneMoreLeft(k as real, left, xs[k]);
    }
  }

  lemma OneMoreLeft(k: real, left: real, x: real)
    requires left >= 0.0
    ensures Times(k, left) + Times(k + 1.0, x) <= Times(k + 1.0, left + Times(1.0, x))
  {
    assert (k + 1.0) * (left + x) == k * left + left + (k + 1.0) * x;
  }

  lemma {:induction false} StoredIsTotal(root: Tree, sets: map<string, Cfr.Info>, cfg: Cfr.Config, table: Cfr.Table,
      rounds: seq<Cfr.Round>, p: nat, L: Layout, order: seq<string>, j: nat)
    requires PlainRun(root, sets, cfg, rounds, p, L) && Cfr.Sound(root, sets, cfg, table, rounds)
    requires j <= |order| && ShallowestFirst(order, OwnInfosets(root, p), L)
    requires AllPlayable(root, p, Plays(rounds), L, order)
    ensures Cfr.Fits(table, sets) && forall I :: I in order ==> I in sets
    ensures TotalTop(root, p, Plays(rounds), Weights(cfg, |rounds|), L, order, j)
            <= Times(Lag(cfg, |rounds|), StoredTop(table, sets, order, j))
  {
    hide *;
    OrderIsListed(order, OwnInfosets(root, p), L);
    SoundFits(root, sets, cfg, table, rounds);
    forall I | I in order ensures I in sets {
      SolverRegretAt(root, sets, cfg, table, rounds, p, L, I);
    }
    TotalTopSplits(root, p, Plays(rounds), Weights(cfg, |rounds|), L, order, j);
    StoredTopSplits(table, sets, order, j);
    if j > 0 {
      StoredIsTotal(root, sets, cfg, table, rounds, p, L, order, j - 1);
      SolverRegretAt(root, sets, cfg, table, rounds, p, L, order[j - 1]);
      PlayableAt(root, p, Plays(rounds), L, order, order[j - 1]);
      TopIs(root, p, Plays(rounds), Weights(cfg, |rounds|), L, order[j - 1]);
      SplitTimes(Lag(cfg, |rounds|), StoredTop(table, sets, order, j - 1),
                 Top(Cfr.TotalOf(Cfr.Regret, table, sets, order[j - 1])));
    } else {
      TimesZero(Lag(cfg, |rounds|));
    }
  }

  lemma OrderIsListed(order: seq<string>, all: set<string>, L: Layout)
    requires ShallowestFirst(order, all, L)
    ensures forall I :: I in order ==> I in all
  {
  }

  lemma PlayableAt(root: Tree, p: nat, plays: seq<Strategy>, L: Layout, order: seq<string>, I: string)
    requires AllPlayable(root, p, plays, L, order) && I in order
    ensures I in L.arity
    ensures forall k :: 0 <= k < |plays| ==> Playable(Histories(root, p, None, plays[k], I, 1.0, 0), L.arity[I])
  {
    hide Playable, Histories;
  }

  lemma TotalTopSplits(root: Tree, p: nat, plays: seq<Strategy>, ws: seq<real>, L: Layout, order: seq<string>, j: nat)
    requires |ws| == |plays| && j <= |order| && AllPlayable(root, p, plays, L, order)
    ensures j == 0 ==> TotalTop(root, p, plays, ws, L, order, j) == 0.0
    ensures j > 0 ==>
              && order[j - 1] in L.arity
              && (forall k :: 0 <= k < |plays| ==>
                    Playable(Histories(root, p, None, plays[k], order[j - 1], 1.0, 0), L.arity[order[j - 1]]))
              && TotalTop(root, p, plays, ws, L, order, j)
                 == TotalTop(root, p, plays, ws, L, order, j - 1) + TopAt(root, p, plays, ws, L, order[j - 1])
  {
    hide Playable, Histories, TopAt;
  }

  lemma StoredTopSplits(table: Cfr.Table, sets: map<string, Cfr.Info>, order: seq<string>, j: nat)
    requires Cfr.Fits(table, sets) && j <= |order| && forall I :: I in order ==> I in sets
    ensures j == 0 ==> StoredTop(table, sets, order, j) == 0.0
    ensures j > 0 ==>
              StoredTop(table, sets, order, j)
              == StoredTop(table, sets, order, j - 1) + Top(Cfr.TotalOf(Cfr.Regret, table, sets, order[j - 1]))
  {
    hide Top, Cfr.TotalOf;
  }

  lemma Together(v: real, lag: real, t0: real, t1: real, s0: real, s1: real)
    requires v <= t0 + t1 && t0 <= Times(lag, s0) && t1 <= Times(lag, s1)
    ensures v <= Times(lag, s0 + s1)
  {
    SplitTimes(lag, s0, s1);
  }

  lemma SolverSide(root: Tree, sets: map<string, Cfr.Info>, cfg: Cfr.Config, table: Cfr.Table,
      rounds: seq<Cfr.Round>, averages: Strategy, p: nat, L: Layout, order: seq<string>)
    requires PlainRun(root, sets, cfg, rounds, p, L) && Cfr.Sound(root, sets, cfg, table, rounds)
    requires AveragesOf(averages, root, sets, cfg, table, rounds)
    requires ShallowestFirst(order, OwnInfosets(root, p), L)
    ensures Cfr.Fits(table, sets) && forall I :: I in order ==> I in sets
    ensures Played(root, p, Plays(rounds), L, order) && AllPlayable(root, p, Plays(rounds), L, order)
    ensures Averages(averages, Plays(rounds), Weights(cfg, |rounds|), L, OwnInfosets(root, p))
    ensures TotalTop(root, p, Plays(rounds), Weights(cfg, |rounds|), L, order, |order|)
            <= Times(Lag(cfg, |rounds|), StoredTop(table, sets, order, |order|))
  {
    hide *;
    RunIsPlayed(root, sets, cfg, rounds, p, L, order);
    EverythingPlayable(root, p, Plays(rounds), L, order);
    SolverAverages(root, sets, cfg, table, rounds, averages, p, L);
    StoredIsTotal(root, sets, cfg, table, rounds, p, L, order, |order|);
  }

  /**
   * The averaged strategy is the object that converges: the two best responses to it earn, together and times the
   * total iteration weight, at most the sum over all information sets of the greatest regret the solver has stored,
   * with CFR+ once for every iteration.
   */
  lemma SolverIsNearNash(root: Tree, sets: map<string, Cfr.Info>, cfg: Cfr.Config, table: Cfr.Table,
      rounds: seq<Cfr.Round>, averages: Strategy, L0: Layout, L1: Layout, order0: seq<string>, order1: seq<string>,
      v0: real, v1: real)
    requires WellFormed(root) && ZeroSum(root)
    requires PlainRun(root, sets, cfg, rounds, 0, L0) && PlainRun(root, sets, cfg, rounds, 1, L1)
    requires Cfr.Sound(root, sets, cfg, table, rounds) && AveragesOf(averages, root, sets, cfg, table, rounds)
    requires ShallowestFirst(order0, OwnInfosets(root, 0), L0) && ShallowestFirst(order1, OwnInfosets(root, 1), L1)
    requires IsBestResponseValue(v0, root, 0, averages) && IsBestResponseValue(v1, root, 1, averages)
    ensures Cfr.Fits(table, sets) && (forall I :: I in order0 ==> I in sets) && (forall I :: I in order1 ==> I in sets)
    ensures Times(Sum(Weights(cfg, |rounds|), |rounds|), v0 + v1)
         <= Times(Lag(cfg, |rounds|),
                  StoredTop(table, sets, order0, |order0|) + StoredTop(table, sets, order1, |order1|))
  {
    hide *;
    var plays, ws := Plays(rounds), Weights(cfg, |rounds|);
    SolverSide(root, sets, cfg, table, rounds, averages, 0, L0, order0);
    SolverSide(root, sets, cfg, table, rounds, averages, 1, L1, order1);
    AverageIsNearNash(root, plays, ws, averages, L0, L1, order0, order1, v0, v1);
    Together(Times(Sum(ws, |ws|), v0 + v1), Lag(cfg, |rounds|),
             TotalTop(root, 0, plays, ws, L0, order0, |order0|), TotalTop(root, 1, plays, ws, L1, order1, |order1|),
             StoredTop(table, sets, order0, |order0|), StoredTop(table, sets, order1, |order1|));
  }

  lemma RunIsPlayed(root: Tree, sets: map<string, Cfr.Info>, cfg: Cfr.Config, rounds: seq<Cfr.Round>, p: nat, L: Layout,
      order: seq<string>)
    requires PlainRun(root, sets, cfg, rounds, p, L) && ShallowestFirst(order, OwnInfosets(root, p), L)
    ensures Played(root, p, Plays(rounds), L, order)
  {
    hide Profile, ShallowestFirst, OwnInfosets;
    forall k | 0 <= k < |rounds| ensures Profile(Plays(rounds)[k]) {
      RunIsProfile(root, sets, cfg, rounds, p, L, k);
    }
  }

  lemma RunIsProfile(root: Tree, sets: map<string, Cfr.Info>, cfg: Cfr.Config, rounds: seq<Cfr.Round>, p: nat,
      L: Layout, k: nat)
    requires PlainRun(root, sets, cfg, rounds, p, L) && k < |rounds|
    ensures Profile(rounds[k].sigma)
  {
    RoundIsWhole(root, sets, cfg, rounds, p, L, k);
  }

  // ---------------------------------------------------------------- the rate

  lemma {:induction false} EntryWithinSquares(xs: seq<real>, n: nat, i: nat)
    requires i < n <= |xs|
    ensures Cfr.Square(xs[i]) <= Cfr.Squares(xs, n)
  {
    Cfr.SquaresNonNegative(xs, n - 1);
    if i < n - 1 {
      EntryWithinSquares(xs, n - 1, i);
    }
  }

  /** The greatest regret is within the square root of the squared positive regrets. */
  lemma TopWithinPotential(rs: seq<real>, c: real)
    requires c >= 0.0 && Cfr.Potential(rs) <= Cfr.Square(c)
    ensures Top(rs) <= c
  {
    if Top(rs) > 0.0 {
      var i :| 0 <= i < |rs| && rs[i] == Top(rs);
      assert Positives(rs)[i] == Top(rs);
      EntryWithinSquares(Positives(rs), |rs|, i);
      RootOrder(Top(rs), c);
    }
  }

  lemma RootOrder(x: real, c: real)
    requires x > 0.0 && c >= 0.0 && Cfr.Square(x) <= Cfr.Square(c)
    ensures x <= c
  {
    if x > c {
      SquareGrows(x, c);
    }
  }

  lemma SquareGrows(x: real, c: real)
    requires x > c >= 0.0
    ensures Cfr.Square(x) > Cfr.Square(c)
  {
    var d, s := x - c, x + c;
    assert d * s > 0.0;
    assert d * s == (x - c) * x + (x - c) * c == x * x - c * c;
  }

  /** What bounds the squared regrets of `I`: its squared increments, with flooring also its squared gains. */
  ghost function Work(root: Tree, sets: map<string, Cfr.Info>, cfg: Cfr.Config, rounds: seq<Cfr.Round>, I: string): real
    requires I in sets
  {
    if cfg.variant.CfrPlus? then Cfr.GainBudget(root, sets, cfg, rounds, I) else Cfr.Budget(root, sets, cfg, rounds, I)
  }

  lemma PotentialWithinWork(root: Tree, sets: map<string, Cfr.Info>, cfg: Cfr.Config, table: Cfr.Table,
      rounds: seq<Cfr.Round>, I: string)
    requires Cfr.Sound(root, sets, cfg, table, rounds) && I in sets
    requires Cfr.Contracting(cfg) || Cfr.Flooring(cfg)
    ensures Cfr.Fits(table, sets)
    ensures Cfr.Potential(Cfr.TotalOf(Cfr.Regret, table, sets, I)) <= Work(root, sets, cfg, rounds, I)
  {
    hide Cfr.FairRound, Cfr.Potential, Cfr.KeepsAverage, Cfr.KeepsFloor, Cfr.Budget, Cfr.GainBudget;
    assert Cfr.SoundAt(root, sets, cfg, table, rounds, I);
  }

  lemma {:induction false} StoredTopBounded(root: Tree, sets: map<string, Cfr.Info>, cfg: Cfr.Config, table: Cfr.Table,
      rounds: seq<Cfr.Round>, order: seq<string>, j: nat, c: real)
    requires Cfr.Sound(root, sets, cfg, table, rounds) && j <= |order| && c >= 0.0
    requires Cfr.Contracting(cfg) || Cfr.Flooring(cfg)
    requires forall I :: I in order ==> I in sets && Work(root, sets, cfg, rounds, I) <= Cfr.Square(c)
    ensures Cfr.Fits(table, sets) && StoredTop(table, sets, order, j) <= Times(j as real, c)
  {
    hide Cfr.FairRound, Cfr.Square, Cfr.SoundAt, Cfr.Potential, Cfr.Contracting, Cfr.Flooring, Work, Times, Top;
    ZeroProduct(c);
    if j > 0 {
      StoredTopBounded(root, sets, cfg, table, rounds, order, j - 1, c);
      var I := order[j - 1];
      PotentialWithinWork(root, sets, cfg, table, rounds, I);
      TopWithinPotential(Cfr.TotalOf(Cfr.Regret, table, sets, I), c);
      CountSplits(j - 1, 1, c);
    }
  }

  /**
   * The rate: when the squared regret increments of every information set (with flooring, and its squared gains) add
   * up to at most the square of `c`, the best responses earn together at most `c` per information set, divided by the
   * total weight. Increments bounded
   * per iteration make `c` grow like the square root of the number of iterations, and the total weight linearly.
   */
  lemma SolverRate(root: Tree, sets: map<string, Cfr.Info>, cfg: Cfr.Config, table: Cfr.Table, rounds: seq<Cfr.Round>,
      averages: Strategy, L0: Layout, L1: Layout, order0: seq<string>, order1: seq<string>, v0: real, v1: real, c: real)
    requires WellFormed(root) && ZeroSum(root) && cfg.momentum.None?
    requires PlainRun(root, sets, cfg, rounds, 0, L0) && PlainRun(root, sets, cfg, rounds, 1, L1)
    requires Cfr.Sound(root, sets, cfg, table, rounds) && AveragesOf(averages, root, sets, cfg, table, rounds)
    requires ShallowestFirst(order0, OwnInfosets(root, 0), L0) && ShallowestFirst(order1, OwnInfosets(root, 1), L1)
    requires IsBestResponseValue(v0, root, 0, averages) && IsBestResponseValue(v1, root, 1, averages)
    requires c >= 0.0 && forall I :: I in sets && (I in order0 || I in order1) ==>
             Work(root, sets, cfg, rounds, I) <= Cfr.Square(c)
    ensures Times(Sum(Weights(cfg, |rounds|), |rounds|), v0 + v1)
         <= Times(Lag(cfg, |rounds|), Times((|order0| + |order1|) as real, c))
  {
    hide *;
    PlainContracts(root, sets, cfg, rounds, L0);
    SolverIsNearNash(root, sets, cfg, table, rounds, averages, L0, L1, order0, order1, v0, v1);
    StoredTopBounded(root, sets, cfg, table, rounds, order0, |order0|, c);
    StoredTopBounded(root, sets, cfg, table, rounds, order1, |order1|, c);
    CountSplits(|order0|, |order1|, c);
    LagIsPositive(cfg, |rounds|);
    LagKeepsOrder(Lag(cfg, |rounds|),
                  StoredTop(table, sets, order0, |order0|) + StoredTop(table, sets, order1, |order1|),
                  Times((|order0| + |order1|) as real, c));
  }

  lemma LagKeepsOrder(c: real, x: real, y: real)
    requires c >= 0.0 && x <= y
    ensures Times(c, x) <= Times(c, y)
  {
    NonNegativeTimes(c, y - x);
    TimesMinus(c, y, x);
  }

  lemma PlainContracts(root: Tree, sets: map<string, Cfr.Info>, cfg: Cfr.Config, rounds: seq<Cfr.Round>, L: Layout)
    requires PlainRun(root, sets, cfg, rounds, 0, L) && cfg.momentum.None?
    ensures Cfr.Contracting(cfg) || Cfr.Flooring(cfg)
  {
    hide Cfr.FairRound, Cfr.Consistent, Respects;
  }

  // ---------------------------------------------------------------- solving and measuring

  /** Every finite collection of information sets can be listed shallowest first. */
  lemma SomeOrder(all: set<string>, L: Layout) returns (order: seq<string>)
    requires forall I :: I in all ==> I in L.depth
    ensures ShallowestFirst(order, all, L)
    decreases all
  {
    if all == {} {
      order := [];
    } else {
      var last := SomeDeepest(all, L);
      var rest := SomeOrder(all - {last}, L);
      order := rest + [last];
      forall I ensures I in order <==> I in all {
        assert I in rest <==> I in all - {last};
      }
      assert forall i :: 0 <= i < |rest| ==> rest[i] in all - {last};
    }
  }

  lemma SomeDeepest(all: set<string>, L: Layout) returns (last: string)
    requires all != {} && forall I :: I in all ==> I in L.depth
    ensures last in all && forall I :: I in all ==> L.depth[I] <= L.depth[last]
    decreases all
  {
    var I :| I in all;
    last := I;
    if all != {I} {
      assert all - {I} != {} by {
        assert exists J :: J in all && J != I;
      }
      var other := SomeDeepest(all - {I}, L);
      if L.depth[other] > L.depth[I] { last := other; }
    }
  }

  /**
   * Train, average, measure: the exploitability reported for the averaged strategy is at most half the greatest
   * stored regrets of all information sets, added up and divided by the total weight, with CFR+ times the number of
   * iterations.
   */
  method Solve(root: Tree, cfg: Cfr.Config, iterations: nat, ghost sets: map<string, Cfr.Info>, ghost L0: Layout,
      ghost L1: Layout)
    returns (averages: Strategy, e: real, solver: Cfr.Solver, ghost order0: seq<string>, ghost order1: seq<string>,
      ghost rounds: seq<Cfr.Round>)
    requires WellFormed(root) && ZeroSum(root) && Cfr.Consistent(root, sets) && Cfr.GoodSets(sets) && Plain(cfg)
    requires Respects(root, 0, L0, 0, []) && Respects(root, 1, L1, 0, [])
    ensures fresh(solver) && Cfr.Fits(solver.table, sets) && Profile(averages)
    ensures ShallowestFirst(order0, OwnInfosets(root, 0), L0) && ShallowestFirst(order1, OwnInfosets(root, 1), L1)
    ensures (forall I :: I in order0 ==> I in sets) && (forall I :: I in order1 ==> I in sets)
    ensures |rounds| == iterations && Cfr.Sound(root, sets, cfg, solver.table, rounds)
    ensures PlainRun(root, sets, cfg, rounds, 0, L0) && PlainRun(root, sets, cfg, rounds, 1, L1)
    ensures e >= 0.0 && (e == 0.0 <==> Nash(root, averages))
    ensures Times(Sum(Weights(cfg, iterations), iterations), 2.0 * e)
         <= Times(Lag(cfg, iterations),
                  StoredTop(solver.table, sets, order0, |order0|) + StoredTop(solver.table, sets, order1, |order1|))
  {
    hide *;
    order0 := OrderOf(root, 0, L0);
    order1 := OrderOf(root, 1, L1);
    PlainKeeps(cfg);
    solver := new Cfr.Solver(cfg, sets);
    Cfr.NewSolverIsSound(root, sets, cfg);
    rounds := solver.Train(root, iterations, []);
    averages := solver.AverageStrategy(root, rounds);
    SoundRun(root, sets, cfg, solver.table, rounds, 0, L0);
    AveragesFit(averages, root, solver, rounds);
    e := Exploitability(root, averages, L0, L1);
    SoundRun(root, sets, cfg, solver.table, rounds, 1, L1);
    ghost var v0, v1 :| IsBestResponseValue(v0, root, 0, averages) && IsBestResponseValue(v1, root, 1, averages)
        && e == (v0 + v1) / 2.0;
    SolverIsNearNash(root, sets, cfg, solver.table, rounds, averages, L0, L1, order0, order1, v0, v1);
    assert v0 + v1 == 2.0 * e;
  }

  lemma OrderOf(root: Tree, p: nat, L: Layout) returns (order: seq<string>)
    requires Respects(root, p, L, 0, [])
    ensures ShallowestFirst(order, OwnInfosets(root, p), L)
  {
    InfosetsLieBelow(root, p, L, 0, []);
    order := SomeOrder(OwnInfosets(root, p), L);
  }

  lemma PlainKeeps(cfg: Cfr.Config)
    requires Plain(cfg)
    ensures Cfr.KeepsAveragePositive(cfg) && !cfg.variant.Dcfr?
  {
  }

  lemma AveragesFit(averages: Strategy, root: Tree, solver: Cfr.Solver, rounds: seq<Cfr.Round>)
    requires Cfr.Fits(solver.table, solver.sets) && averages.Keys == solver.table.Keys && Profile(averages)
    requires forall I :: I in solver.table ==> |averages[I]| == solver.sets[I].arity
    requires forall I, a :: I in solver.table && 0 <= a < solver.sets[I].arity ==>
               Times(Sum(solver.table[I].strategySum, solver.sets[I].arity), averages[I][a])
               == Cfr.Accumulated(Cfr.Average, root, solver.sets, solver.cfg, rounds, I, a)
    ensures AveragesOf(averages, root, solver.sets, solver.cfg, solver.table, rounds)
  {
    hide Times, Sum, Cfr.Accumulated, Distribution;
  }

  lemma SoundRun(root: Tree, sets: map<string, Cfr.Info>, cfg: Cfr.Config, table: Cfr.Table, rounds: seq<Cfr.Round>,
      p: nat, L: Layout)
    requires p < 2 && Cfr.Consistent(root, sets) && Cfr.GoodSets(sets) && Plain(cfg) && Respects(root, p, L, 0, [])
    requires Cfr.Sound(root, sets, cfg, table, rounds)
    ensures PlainRun(root, sets, cfg, rounds, p, L) && Cfr.Fits(table, sets)
  {
    hide Cfr.SoundAt, Cfr.FairRound, Cfr.Consistent, Respects, Cfr.GoodSets;
  }
}
