// How fast CFR works (crates/poker-darwin/src/cfr.rs): a bound on the exploitability of the averaged strategy that
// is computed from the game, the iterations' weights and the number of iterations alone.
module Rate {
  import opened Reals
  import opened Game
  import opened Exploit
  import opened Paths
  import opened Convergence
  import opened Wrappers
  import Cfr

  // ---------------------------------------------------------------- the game's numbers

  /** Chance probabilities are probabilities. */
  ghost predicate FairChance(t: Tree) {
    match t
    case Terminal(_, _) => true
    case Chance(_, ps, cs) => |ps| == |cs| && Distribution(ps) && forall i :: 0 <= i < |cs| ==> FairChance(cs[i])
    case Decision(_, _, _, cs) => |cs| > 0 && forall i :: 0 <= i < |cs| ==> FairChance(cs[i])
  }

  /** What `p` can be paid. */
  ghost predicate PayoffsWithin(t: Tree, p: nat, lo: real, hi: real) {
    match t
    case Terminal(_, _) => lo <= Payoff(t, p) <= hi
    case Chance(_, _, cs) => forall i :: 0 <= i < |cs| ==> PayoffsWithin(cs[i], p, lo, hi)
    case Decision(_, _, _, cs) => forall i :: 0 <= i < |cs| ==> PayoffsWithin(cs[i], p, lo, hi)
  }

  /** In a zero-sum game both players' payoffs range over equally much. */
  lemma {:induction false} PayoffsMirror(t: Tree, lo: real, hi: real)
    requires ZeroSum(t) && PayoffsWithin(t, 0, lo, hi)
    ensures PayoffsWithin(t, 1, -hi, -lo)
  {
    if !t.Terminal? {
      forall i | 0 <= i < |t.children| ensures PayoffsWithin(t.children[i], 1, -hi, -lo) {
        PayoffsMirror(t.children[i], lo, hi);
      }
    }
  }

  lemma WeightsAreDistribution(t: Tree, p: nat, sigma: Strategy)
    requires FairChance(t) && Profile(sigma) && !t.Terminal?
    ensures Distribution(NodeWeights(t, p, sigma, sigma))
  {
    if t.Decision? {
      RowIsDistribution(sigma, t.infoset, |t.children|);
    }
  }

  lemma {:induction false} DotAtLeast(ws: seq<real>, xs: seq<real>, n: nat, low: real)
    requires n <= |ws| && n <= |xs|
    requires forall i :: 0 <= i < n ==> ws[i] >= 0.0 && xs[i] >= low
    ensures Dot(ws, xs, n) >= low * Sum(ws, n)
  {
    if n > 0 {
      var k := n - 1;
      DotAtLeast(ws, xs, k, low);
      assert ws[k] * (xs[k] - low) >= 0.0;
      assert ws[k] * (xs[k] - low) == Times(ws[k], xs[k]) - low * ws[k];
      assert low * Sum(ws, n) == low * Sum(ws, k) + low * ws[k];
    }
  }

  lemma {:induction false} UtilityWithin(t: Tree, p: nat, sigma: Strategy, lo: real, hi: real)
    requires FairChance(t) && Profile(sigma) && PayoffsWithin(t, p, lo, hi)
    ensures lo <= Utility(t, p, sigma, sigma) <= hi
  {
    hide Dot, Distribution, NodeWeights, Profile;
    if !t.Terminal? {
      var ws, us := NodeWeights(t, p, sigma, sigma), Utilities(t.children, p, sigma, sigma);
      forall i | 0 <= i < |t.children| ensures lo <= us[i] <= hi {
        UtilityWithin(t.children[i], p, sigma, lo, hi);
      }
      WeightsAreDistribution(t, p, sigma);
      MixtureWithin(ws, us, lo, hi);
    }
  }

  lemma MixtureWithin(ws: seq<real>, us: seq<real>, lo: real, hi: real)
    requires Distribution(ws) && |us| == |ws| && forall i :: 0 <= i < |us| ==> lo <= us[i] <= hi
    ensures lo <= Dot(ws, us, |us|) <= hi
  {
    DotAtMost(ws, us, |us|, hi);
    DotAtLeast(ws, us, |us|, lo);
  }

  // ---------------------------------------------------------------- how much reach an information set has

  function TotalReach(es: seq<Entry>): real {
    if es == [] then 0.0 else TotalReach(es[..|es| - 1]) + es[|es| - 1].reach
  }

  lemma {:induction false} TotalReachConcat(xs: seq<Entry>, ys: seq<Entry>)
    ensures TotalReach(xs + ys) == TotalReach(xs) + TotalReach(ys)
  {
    if ys == [] {
      assert xs + ys == xs;
    } else {
      var k := |ys| - 1;
      TotalReachConcat(xs, ys[..k]);
      assert (xs + ys)[..|xs + ys| - 1] == xs + ys[..k];
    }
  }

  /** What was done on the way to a node is remembered at every information set below it. */
  lemma {:induction false} PastExtends(t: Tree, p: nat, L: Layout, d: nat, s: seq<Move>, I: string)
    requires Respects(t, p, L, d, s) && I in OwnInfosets(t, p)
    ensures I in L.past && s <= L.past[I]
  {
    if !(t.Decision? && t.player == p && t.infoset == I) {
      var i :| 0 <= i < |t.children| && I in OwnInfosets(t.children[i], p);
      PastExtends(t.children[i], p, L, d + 1, Extended(t, p, s, i), I);
      assert s <= Extended(t, p, s, i);
    }
  }

  /** An information set lies below at most one action of each earlier decision of its player. */
  lemma OneWayDown(t: Tree, p: nat, L: Layout, d: nat, s: seq<Move>, I: string, i: nat, j: nat)
    requires Respects(t, p, L, d, s) && t.Decision? && t.player == p && i < |t.children| && j < |t.children|
    requires I in OwnInfosets(t.children[i], p) && I in OwnInfosets(t.children[j], p)
    ensures i == j && I != t.infoset
  {
    PastExtends(t.children[i], p, L, d + 1, Extended(t, p, s, i), I);
    PastExtends(t.children[j], p, L, d + 1, Extended(t, p, s, j), I);
    assert L.past[I][|s|] == Move(t.infoset, |t.children|, i) == Move(t.infoset, |t.children|, j);
    InfosetsLieBelow(t.children[i], p, L, d + 1, Extended(t, p, s, i));
  }

  /** The histories' reaches are non-negative and add up to at most `reach`. */
  ghost predicate Spread(es: seq<Entry>, reach: real) {
    TotalReach(es) <= reach && forall e :: e in es ==> e.reach >= 0.0
  }

  lemma SpreadConcat(xs: seq<Entry>, ys: seq<Entry>, x: real, y: real)
    requires Spread(xs, x) && Spread(ys, y)
    ensures Spread(xs + ys, x + y)
  {
    TotalReachConcat(xs, ys);
  }

  /** With perfect recall the counterfactual reaches of an information set add up to at most one. */
  lemma {:induction false} ReachIsSpread(t: Tree, p: nat, L: Layout, d: nat, s: seq<Move>, sigma: Strategy, I: string,
      reach: real)
    requires Respects(t, p, L, d, s) && FairChance(t) && Profile(sigma) && reach >= 0.0
    ensures Spread(Histories(t, p, None, sigma, I, reach, d), reach)
    decreases t, 1, 0
  {
    if t.Terminal? {
    } else if t.Decision? && t.player == p {
      OwnReachIsSpread(t, p, L, d, s, sigma, I, reach, |t.children|);
      if t.infoset == I {
        forall j | 0 <= j < |t.children| ensures I !in OwnInfosets(t.children[j], p) {
          if I in OwnInfosets(t.children[j], p) {
            OneWayDown(t, p, L, d, s, I, j, j);
          }
        }
        OneEntry(Entry(t, reach, d));
        SpreadConcat([Entry(t, reach, d)], Below(t, p, sigma, I, reach, d, |t.children|), reach, 0.0);
      } else {
        assert Histories(t, p, None, sigma, I, reach, d) == Below(t, p, sigma, I, reach, d, |t.children|);
      }
    } else {
      OtherReachIsSpread(t, p, L, d, s, sigma, I, reach, |t.children|);
      WeightsAreDistribution(t, p, sigma);
      assert Times(reach, 1.0) == reach;
      assert Histories(t, p, None, sigma, I, reach, d) == Below(t, p, sigma, I, reach, d, |t.children|);
    }
  }

  lemma OneEntry(e: Entry)
    requires e.reach >= 0.0
    ensures Spread([e], e.reach)
  {
    assert [e][..0] == [];
  }

  /** The histories below the first `m` children. */
  function Below(t: Tree, p: nat, sigma: Strategy, I: string, reach: real, d: nat, m: nat): seq<Entry>
    requires !t.Terminal? && m <= |t.children|
  {
    HistoriesAmong(t.children, p, None, sigma, I, ChildReach(t, p, None, sigma, reach), d + 1, m)
  }

  ghost predicate LiesBelow(t: Tree, p: nat, I: string, m: nat)
    requires !t.Terminal? && m <= |t.children|
  {
    exists j :: 0 <= j < m && I in OwnInfosets(t.children[j], p)
  }

  lemma {:induction false} OwnReachIsSpread(t: Tree, p: nat, L: Layout, d: nat, s: seq<Move>, sigma: Strategy,
      I: string, reach: real, m: nat)
    requires Respects(t, p, L, d, s) && FairChance(t) && Profile(sigma) && reach >= 0.0
    requires t.Decision? && t.player == p && m <= |t.children|
    ensures Spread(Below(t, p, sigma, I, reach, d, m), if LiesBelow(t, p, I, m) then reach else 0.0)
    decreases t, 0, m
  {
    hide *;
    if m == 0 {
      NothingBelow(t, p, sigma, I, reach, d);
      NoneBelow(t, p, I);
    } else {
      var child, past := t.children[m - 1], Extended(t, p, s, m - 1);
      ChildKeeps(t, p, L, d, s, m - 1);
      OwnReachIsSpread(t, p, L, d, s, sigma, I, reach, m - 1);
      ReachIsSpread(child, p, L, d + 1, past, sigma, I, reach);
      HistoriesAreAtInfoset(child, p, None, sigma, I, reach, L, d + 1, past);
      BelowGrows(t, p, sigma, I, reach, d, m);
      SameReachBelow(t, p, sigma, reach, m - 1);
      OwnStep(t, p, L, d, s, I, reach, m, Below(t, p, sigma, I, reach, d, m - 1),
              Histories(child, p, None, sigma, I, reach, d + 1));
    }
  }

  lemma NoneBelow(t: Tree, p: nat, I: string)
    requires !t.Terminal?
    ensures !LiesBelow(t, p, I, 0)
  {
  }

  lemma ChildKeeps(t: Tree, p: nat, L: Layout, d: nat, s: seq<Move>, i: nat)
    requires Respects(t, p, L, d, s) && FairChance(t) && !t.Terminal? && i < |t.children|
    ensures Respects(t.children[i], p, L, d + 1, Extended(t, p, s, i)) && FairChance(t.children[i])
  {
  }

  lemma SameReachBelow(t: Tree, p: nat, sigma: Strategy, reach: real, i: nat)
    requires t.Decision? && t.player == p && i < |t.children|
    ensures ChildReach(t, p, None, sigma, reach)[i] == reach
  {
  }

  lemma OwnStep(t: Tree, p: nat, L: Layout, d: nat, s: seq<Move>, I: string, reach: real, m: nat, before: seq<Entry>,
      here: seq<Entry>)
    requires Respects(t, p, L, d, s) && t.Decision? && t.player == p && 0 < m <= |t.children|
    requires Spread(before, if LiesBelow(t, p, I, m - 1) then reach else 0.0) && Spread(here, reach)
    requires I !in OwnInfosets(t.children[m - 1], p) ==> here == []
    ensures Spread(before + here, if LiesBelow(t, p, I, m) then reach else 0.0)
  {
    hide Respects, OwnInfosets, Spread;
    if I in OwnInfosets(t.children[m - 1], p) {
      if j :| 0 <= j < m - 1 && I in OwnInfosets(t.children[j], p) {
        OneWayDown(t, p, L, d, s, I, j, m - 1);
      }
      SpreadConcat(before, here, 0.0, reach);
    } else {
      assert before + here == before;
      assert LiesBelow(t, p, I, m) <==> LiesBelow(t, p, I, m - 1);
    }
  }

  lemma NothingBelow(t: Tree, p: nat, sigma: Strategy, I: string, reach: real, d: nat)
    requires !t.Terminal?
    ensures Below(t, p, sigma, I, reach, d, 0) == [] && TotalReach([]) == 0.0
    ensures Spread(Below(t, p, sigma, I, reach, d, 0), 0.0)
  {
  }

  lemma BelowGrows(t: Tree, p: nat, sigma: Strategy, I: string, reach: real, d: nat, m: nat)
    requires !t.Terminal? && 0 < m <= |t.children|
    ensures Below(t, p, sigma, I, reach, d, m)
         == Below(t, p, sigma, I, reach, d, m - 1)
            + Histories(t.children[m - 1], p, None, sigma, I, ChildReach(t, p, None, sigma, reach)[m - 1], d + 1)
  {
    hide ChildReach, Histories;
  }

  lemma {:induction false} OtherReachIsSpread(t: Tree, p: nat, L: Layout, d: nat, s: seq<Move>, sigma: Strategy,
      I: string, reach: real, m: nat)
    requires Respects(t, p, L, d, s) && FairChance(t) && Profile(sigma) && reach >= 0.0
    requires !t.Terminal? && !(t.Decision? && t.player == p) && m <= |t.children|
    ensures Spread(Below(t, p, sigma, I, reach, d, m), Times(reach, Sum(NodeWeights(t, p, sigma, sigma), m)))
    decreases t, 0, m
  {
    var ws := NodeWeights(t, p, sigma, sigma);
    if m == 0 {
      TimesZero(reach);
      NothingBelow(t, p, sigma, I, reach, d);
    } else {
      var child, past := t.children[m - 1], Extended(t, p, s, m - 1);
      ChildKeeps(t, p, L, d, s, m - 1);
      WeightsAreDistribution(t, p, sigma);
      var share := Times(reach, ws[m - 1]);
      NonNegativeProduct(reach, ws[m - 1]);
      OtherReachIsSpread(t, p, L, d, s, sigma, I, reach, m - 1);
      ReachIsSpread(child, p, L, d + 1, past, sigma, I, share);
      BelowGrows(t, p, sigma, I, reach, d, m);
      assert ws == NodeWeights(t, p, map[], sigma);
      assert ChildReach(t, p, None, sigma, reach)[m - 1] == share;
      hide Histories, Below, TotalReach, Respects, FairChance, Profile, ChildReach, NodeWeights, Times;
      SpreadConcat(Below(t, p, sigma, I, reach, d, m - 1), Histories(child, p, None, sigma, I, share, d + 1),
                   Times(reach, Sum(ws, m - 1)), share);
      SplitTimes(reach, Sum(ws, m - 1), ws[m - 1]);
    }
  }

  lemma NonNegativeProduct(x: real, y: real)
    requires x >= 0.0 && y >= 0.0
    ensures Times(x, y) >= 0.0
  {
  }

  // ---------------------------------------------------------------- how much one iteration can add

  /** The nodes of the histories are nodes of the game. */
  ghost predicate Inherits(es: seq<Entry>, p: nat, lo: real, hi: real) {
    forall e :: e in es ==> FairChance(e.node) && PayoffsWithin(e.node, p, lo, hi)
  }

  lemma {:induction false} HistoriesInherit(t: Tree, p: nat, sigma: Strategy, I: string, reach: real, d: nat, lo: real,
      hi: real)
    requires FairChance(t) && PayoffsWithin(t, p, lo, hi)
    ensures Inherits(Histories(t, p, None, sigma, I, reach, d), p, lo, hi)
    decreases t, 1, 0
  {
    if !t.Terminal? {
      AmongInherit(t, p, sigma, I, reach, d, lo, hi, |t.children|);
    }
  }

  lemma {:induction false} AmongInherit(t: Tree, p: nat, sigma: Strategy, I: string, reach: real, d: nat, lo: real,
      hi: real, m: nat)
    requires FairChance(t) && PayoffsWithin(t, p, lo, hi) && !t.Terminal? && m <= |t.children|
    ensures Inherits(Below(t, p, sigma, I, reach, d, m), p, lo, hi)
    decreases t, 0, m
  {
    if m > 0 {
      AmongInherit(t, p, sigma, I, reach, d, lo, hi, m - 1);
      HistoriesInherit(t.children[m - 1], p, sigma, I, ChildReach(t, p, None, sigma, reach)[m - 1], d + 1, lo, hi);
    }
  }

  ghost predicate Within(x: real, b: real) {
    -b <= x <= b
  }

  lemma ScaledWithin(w: real, x: real, y: real, lo: real, hi: real)
    requires w >= 0.0 && lo <= x <= hi && lo <= y <= hi
    ensures Within(Times(w, x) - Times(w, y), Times(w, hi - lo))
  {
    var b := hi - lo;
    NonNegativeProduct(w, b - (x - y));
    NonNegativeProduct(w, b - (y - x));
    assert w * (b - (x - y)) == w * b - w * x + w * y;
    assert w * (b - (y - x)) == w * b - w * y + w * x;
  }

  /** Playing `a` throughout instead of the strategy in force changes the value by at most the range of payoffs. */
  lemma {:induction false} EdgeWithin(es: seq<Entry>, a: nat, p: nat, sigma: Strategy, lo: real, hi: real)
    requires forall e :: e in es ==> e.node.Decision? && a < |e.node.children| && e.reach >= 0.0
    requires Profile(sigma) && Inherits(es, p, lo, hi)
    ensures Within(Edge(es, a, p, sigma), Times(TotalReach(es), hi - lo))
  {
    if es == [] {
      ZeroProduct(hi - lo);
    } else {
      var k := |es| - 1;
      assert es[k] in es;
      EdgeWithin(es[..k], a, p, sigma, lo, hi);
      var node := es[k].node;
      UtilityWithin(node, p, sigma, lo, hi);
      UtilityWithin(node.children[a], p, sigma, lo, hi);
      hide Times, Utility, Within, FairChance, PayoffsWithin;
      ScaledWithin(es[k].reach, Utility(node.children[a], p, sigma, sigma), Utility(node, p, sigma, sigma), lo, hi);
      FactorSplits(TotalReach(es[..k]), es[k].reach, hi - lo);
      WithinAdds(Edge(es[..k], a, p, sigma), Times(TotalReach(es[..k]), hi - lo),
                 Times(es[k].reach, Utility(node.children[a], p, sigma, sigma)) - Times(es[k].reach,
                       Utility(node, p, sigma, sigma)),
                 Times(es[k].reach, hi - lo));
    }
  }

  lemma FactorSplits(x: real, y: real, c: real)
    ensures Times(x + y, c) == Times(x, c) + Times(y, c)
  {
  }

  lemma WithinAdds(x: real, b: real, y: real, c: real)
    requires Within(x, b) && Within(y, c)
    ensures Within(x + y, b + c)
  {
  }

  lemma FactorGrows(x: real, c: real)
    requires x <= 1.0 && c >= 0.0
    ensures Times(x, c) <= c
  {
    NonNegativeProduct(1.0 - x, c);
    assert Times(1.0 - x, c) == c - Times(x, c);
  }

  lemma AdvantageWithin(root: Tree, p: nat, L: Layout, sigma: Strategy, I: string, n: nat, a: nat, lo: real, hi: real)
    requires Respects(root, p, L, 0, []) && FairChance(root) && Profile(sigma) && PayoffsWithin(root, p, lo, hi)
    requires lo <= hi && a < n && Playable(Histories(root, p, None, sigma, I, 1.0, 0), n)
    ensures Within(Advantage(root, p, sigma, I, n, a), hi - lo)
  {
    hide Times, Histories, Utility, Respects, FairChance, PayoffsWithin, TotalReach;
    var es := Histories(root, p, None, sigma, I, 1.0, 0);
    ReachIsSpread(root, p, L, 0, [], sigma, I, 1.0);
    HistoriesInherit(root, p, sigma, I, 1.0, 0, lo, hi);
    EdgeWithin(es, a, p, sigma, lo, hi);
    FactorGrows(TotalReach(es), hi - lo);
  }

  // ---------------------------------------------------------------- how much one iteration can gain

  /** What the histories gain for action `a`, each on its own. */
  ghost predicate GainsWithin(P: Cfr.Pass, t: Tree, I: string, a: nat, reach: Cfr.Reach, d: nat, range: real) {
    var es := Histories(t, P.tr, None, P.sigma, I, reach.Counterfactual(P.tr), d);
    0.0 <= Cfr.Increment(Cfr.Gain, P, t, I, a, reach, Cfr.Whole(t)) <= Times(TotalReach(es), range)
  }

  ghost predicate GainsWithinAmong(P: Cfr.Pass, t: Tree, I: string, a: nat, reach: Cfr.Reach, d: nat, range: real,
      m: nat)
    requires !t.Terminal? && m <= |t.children|
  {
    var es := Below(t, P.tr, P.sigma, I, reach.Counterfactual(P.tr), d, m);
    0.0 <= Cfr.IncrementAmong(Cfr.Gain, P, t, I, a, reach, Cfr.Whole(t).kept[..m]) <= Times(TotalReach(es), range)
  }

  lemma SameBelow(t: Tree, p: nat, sigma: Strategy, I: string, reach: real, d: nat)
    requires !t.Terminal?
    ensures Histories(t, p, None, sigma, I, reach, d)
            == (if t.Decision? && t.player == p && t.infoset == I then [Entry(t, reach, d)] else [])
               + Below(t, p, sigma, I, reach, d, |t.children|)
  {
  }

  /** With weight one, what a history gains is at most its reach times the range of payoffs. */
  lemma OwnGain(P: Cfr.Pass, t: Tree, a: nat, reach: Cfr.Reach, lo: real, hi: real)
    requires t.Decision? && a < |t.children| && t.player == P.tr && Cfr.RegretWeight(P.cfg, P.iter) == 1.0
    requires reach.Counterfactual(P.tr) >= 0.0 && lo <= hi
    requires lo <= Cfr.Value(P, t.children[a]) <= hi && lo <= Cfr.Value(P, t) <= hi
    ensures 0.0 <= Cfr.OwnIncrement(Cfr.Gain, P, t, a, reach) <= Times(reach.Counterfactual(P.tr), hi - lo)
  {
    hide Utility, Cfr.RegretWeight, Cfr.Reach.Counterfactual;
    var cf, u, v := reach.Counterfactual(P.tr), Cfr.Value(P, t.children[a]), Cfr.Value(P, t);
    assert Times(1.0, cf) == cf;
    NonNegativeProduct(cf, hi - lo);
    NonNegativeProduct(cf, hi - lo - (u - v));
    assert cf * (hi - lo - (u - v)) == cf * (hi - lo) - cf * (u - v);
  }

  lemma {:induction false} GainWithin(P: Cfr.Pass, t: Tree, I: string, a: nat, reach: Cfr.Reach, d: nat, lo: real,
      hi: real)
    requires P.tr < 2 && Cfr.Consistent(t, P.sets) && I in P.sets && a < P.sets[I].arity
    requires FairChance(t) && PayoffsWithin(t, P.tr, lo, hi) && Profile(P.sigma) && lo <= hi
    requires Cfr.RegretWeight(P.cfg, P.iter) == 1.0 && reach.Counterfactual(P.tr) >= 0.0
    ensures GainsWithin(P, t, I, a, reach, d, hi - lo)
    decreases t, 1, 0
  {
    if t.Terminal? {
      ZeroProduct(hi - lo);
    } else {
      GainWithinAmong(P, t, I, a, reach, d, lo, hi, |t.children|);
      GainHere(P, t, I, a, reach, d, lo, hi);
    }
  }

  lemma GainHere(P: Cfr.Pass, t: Tree, I: string, a: nat, reach: Cfr.Reach, d: nat, lo: real, hi: real)
    requires P.tr < 2 && Cfr.Consistent(t, P.sets) && I in P.sets && a < P.sets[I].arity && !t.Terminal?
    requires FairChance(t) && PayoffsWithin(t, P.tr, lo, hi) && Profile(P.sigma) && lo <= hi
    requires Cfr.RegretWeight(P.cfg, P.iter) == 1.0 && reach.Counterfactual(P.tr) >= 0.0
    requires GainsWithinAmong(P, t, I, a, reach, d, hi - lo, |t.children|)
    ensures GainsWithin(P, t, I, a, reach, d, hi - lo)
  {
    Cfr.WholeKeeps(t);
    assert Cfr.Whole(t).kept[..|t.children|] == Cfr.Whole(t).kept;
    hide Times, Utility, Histories, Below, Cfr.IncrementAmong, Cfr.OwnIncrement, Cfr.RegretWeight,
      Cfr.Reach.Counterfactual, Cfr.Whole;
    var cf := reach.Counterfactual(P.tr);
    var below := Below(t, P.tr, P.sigma, I, cf, d, |t.children|);
    SameBelow(t, P.tr, P.sigma, I, cf, d);
    if t.Decision? && t.player == P.tr && t.infoset == I {
      UtilityWithin(t, P.tr, P.sigma, lo, hi);
      UtilityWithin(t.children[a], P.tr, P.sigma, lo, hi);
      OwnGain(P, t, a, reach, lo, hi);
      OneReach(Entry(t, cf, d));
      TotalReachConcat([Entry(t, cf, d)], below);
      FactorSplits(cf, TotalReach(below), hi - lo);
    } else {
      assert [] + below == below;
    }
  }

  lemma OneReach(e: Entry)
    ensures TotalReach([e]) == e.reach
  {
    assert [e][..0] == [];
  }

  lemma {:induction false} GainWithinAmong(P: Cfr.Pass, t: Tree, I: string, a: nat, reach: Cfr.Reach, d: nat, lo: real,
      hi: real, m: nat)
    requires P.tr < 2 && Cfr.Consistent(t, P.sets) && I in P.sets && a < P.sets[I].arity
    requires FairChance(t) && PayoffsWithin(t, P.tr, lo, hi) && Profile(P.sigma) && lo <= hi
    requires Cfr.RegretWeight(P.cfg, P.iter) == 1.0 && reach.Counterfactual(P.tr) >= 0.0
    requires !t.Terminal? && m <= |t.children|
    ensures GainsWithinAmong(P, t, I, a, reach, d, hi - lo, m)
    decreases t, 0, m
  {
    hide Times, Histories, Below, Cfr.Increment, Cfr.ChildReach, ChildReach, Cfr.RegretWeight,
      Cfr.Reach.Counterfactual, Cfr.Whole;
    var cf := reach.Counterfactual(P.tr);
    if m == 0 {
      NothingBelow(t, P.tr, P.sigma, I, cf, d);
      ZeroProduct(hi - lo);
    } else {
      var k := m - 1;
      GainWithinAmong(P, t, I, a, reach, d, lo, hi, k);
      var r := Cfr.ChildReach(P, t, reach, k);
      SameReach(P, t, reach, k);
      ReachStaysPositive(t, P.tr, P.sigma, cf, k);
      GainWithin(P, t.children[k], I, a, r, d + 1, lo, hi);
      Cfr.WholeKeeps(t);
      var cuts := Cfr.Whole(t).kept;
      assert cuts[..m][..k] == cuts[..k] && cuts[..m][k] == Some(Cfr.Whole(t.children[k]));
      BelowGrows(t, P.tr, P.sigma, I, cf, d, m);
      var before, here := Below(t, P.tr, P.sigma, I, cf, d, k),
        Histories(t.children[k], P.tr, None, P.sigma, I, ChildReach(t, P.tr, None, P.sigma, cf)[k], d + 1);
      TotalReachConcat(before, here);
      FactorSplits(TotalReach(before), TotalReach(here), hi - lo);
    }
  }

  lemma ReachStaysPositive(t: Tree, p: nat, sigma: Strategy, reach: real, k: nat)
    requires FairChance(t) && Profile(sigma) && !t.Terminal? && k < |t.children| && reach >= 0.0
    ensures ChildReach(t, p, None, sigma, reach)[k] >= 0.0
  {
    var ws := NodeWeights(t, p, map[], sigma);
    if !(t.Decision? && t.player == p) {
      if t.Decision? {
        RowIsDistribution(sigma, t.infoset, |t.children|);
      }
      NonNegativeProduct(reach, ws[k]);
    }
  }

  lemma SquareWithin(x: real, b: real)
    requires Within(x, b)
    ensures Cfr.Square(x) <= Cfr.Square(b)
  {
    assert (b - x) * (b + x) >= 0.0;
    assert (b - x) * (b + x) == b * b - x * x;
  }

  lemma ScaledSquare(w: real, x: real, b: real)
    requires Within(x, b)
    ensures Cfr.Square(Times(w, x)) <= Times(Cfr.Square(w), Cfr.Square(b))
  {
    SquareWithin(x, b);
    var ww, gap := w * w, b * b - x * x;
    assert ww >= 0.0 && gap >= 0.0;
    assert ww * gap >= 0.0;
    assert (w * x) * (w * x) == ww * (x * x);
    assert ww * gap == ww * (b * b) - ww * (x * x);
  }

  lemma {:induction false} SquaresAtMost(xs: seq<real>, n: nat, b: real)
    requires n <= |xs| && forall i :: 0 <= i < n ==> Cfr.Square(xs[i]) <= b
    ensures Cfr.Squares(xs, n) <= Times(n as real, b)
  {
    hide Cfr.Square, Times;
    CountSplits(0, 1, b);
    if n > 0 {
      SquaresAtMost(xs, n - 1, b);
      CountSplits(n - 1, 1, b);
    }
  }

  lemma MoreActions(n: nat, most: nat, b: real)
    requires n <= most && b >= 0.0
    ensures Times(n as real, b) <= Times(most as real, b)
  {
    assert (most - n) as real * b >= 0.0;
  }

  /** What iteration `n` counts in the bound on the squared regrets: its squared weight, twice with flooring. */
  ghost function Toil(cfg: Cfr.Config, n: nat): (t: real)
    ensures t >= 0.0
  {
    SquareIsNonNegative(Cfr.RegretWeight(cfg, n));
    if cfg.variant.CfrPlus? then 2.0 else Cfr.Square(Cfr.RegretWeight(cfg, n))
  }

  ghost function Effort(cfg: Cfr.Config, n: nat): (e: real)
    ensures e >= 0.0
  {
    if n == 0 then 0.0 else Effort(cfg, n - 1) + Toil(cfg, n)
  }

  lemma SquareIsNonNegative(x: real)
    ensures Cfr.Square(x) >= 0.0
  {
  }

  /** What one iteration adds to the work on an information set. */
  ghost function IterationWork(root: Tree, sets: map<string, Cfr.Info>, cfg: Cfr.Config, n: nat, round: Cfr.Round,
      I: string): real
    requires I in sets
  {
    Cfr.Squares(Cfr.IterationIncrements(Cfr.Regret, root, sets, cfg, n, round, I), sets[I].arity)
    + if cfg.variant.CfrPlus? then
        Cfr.Squares(Cfr.IterationIncrements(Cfr.Gain, root, sets, cfg, n, round, I), sets[I].arity)
      else 0.0
  }

  /** What an iteration adds to the squared regrets of an information set. */
  lemma RegretsWithin(root: Tree, sets: map<string, Cfr.Info>, cfg: Cfr.Config, rounds: seq<Cfr.Round>, p: nat,
      L: Layout, I: string, lo: real, hi: real, most: nat, k: nat)
    requires PlainRun(root, sets, cfg, rounds, p, L) && I in OwnInfosets(root, p) && k < |rounds|
    requires FairChance(root) && PayoffsWithin(root, p, lo, hi) && lo <= hi
    requires I in sets && sets[I].arity <= most
    ensures Cfr.Squares(Cfr.IterationIncrements(Cfr.Regret, root, sets, cfg, k + 1, rounds[k], I), sets[I].arity)
         <= Times(most as real, Times(Cfr.Square(Cfr.RegretWeight(cfg, k + 1)), Cfr.Square(hi - lo)))
  {
    hide *;
    InfosetFacts(root, sets, cfg, rounds, p, L, I);
    RunIsProfile(root, sets, cfg, rounds, p, L, k);
    PlainRespects(root, sets, cfg, rounds, p, L);
    var n, w := sets[I].arity, Cfr.RegretWeight(cfg, k + 1);
    var xs := Cfr.IterationIncrements(Cfr.Regret, root, sets, cfg, k + 1, rounds[k], I);
    var b := Times(Cfr.Square(w), Cfr.Square(hi - lo));
    forall a: nat | a < n ensures Cfr.Square(xs[a]) <= b {
      OneRegret(root, sets, cfg, rounds, p, L, I, a, k);
      AdvantageWithin(root, p, L, rounds[k].sigma, I, n, a, lo, hi);
      ScaledSquare(w, Advantage(root, p, rounds[k].sigma, I, n, a), hi - lo);
    }
    SquaresAtMost(xs, n, b);
    ProductOfSquares(w, hi - lo);
    MoreActions(n, most, b);
  }

  lemma ProductOfSquares(x: real, y: real)
    ensures Times(Cfr.Square(x), Cfr.Square(y)) >= 0.0
  {
    assert (x * y) * (x * y) >= 0.0;
    assert (x * y) * (x * y) == (x * x) * (y * y);
  }

  lemma PlainRespects(root: Tree, sets: map<string, Cfr.Info>, cfg: Cfr.Config, rounds: seq<Cfr.Round>, p: nat,
      L: Layout)
    requires PlainRun(root, sets, cfg, rounds, p, L)
    ensures Respects(root, p, L, 0, [])
  {
  }

  lemma OneGain(root: Tree, sets: map<string, Cfr.Info>, cfg: Cfr.Config, rounds: seq<Cfr.Round>, p: nat, L: Layout,
      I: string, lo: real, hi: real, a: nat, k: nat)
    requires PlainRun(root, sets, cfg, rounds, p, L) && cfg.variant.CfrPlus? && k < |rounds|
    requires I in OwnInfosets(root, p) && I in sets && sets[I].owner == p && a < sets[I].arity
    requires FairChance(root) && PayoffsWithin(root, p, lo, hi) && lo <= hi
    ensures Within(Cfr.IterationIncrements(Cfr.Gain, root, sets, cfg, k + 1, rounds[k], I)[a], hi - lo)
  {
    RoundIsWhole(root, sets, cfg, rounds, p, L, k);
    hide Times, Histories, TotalReach, FairChance, PayoffsWithin, Cfr.Increment, Profile, Respects, Cfr.FairRound,
      Cfr.Whole, Distribution;
    var P := Cfr.Pass(cfg, k + 1, p, sets, rounds[k].sigma);
    var es := Histories(root, p, None, rounds[k].sigma, I, 1.0, 0);
    FullCounterfactual(p);
    GainWithin(P, root, I, a, Cfr.FULL_REACH, 0, lo, hi);
    ReachIsSpread(root, p, L, 0, [], rounds[k].sigma, I, 1.0);
    FactorGrows(TotalReach(es), hi - lo);
  }

  lemma FullCounterfactual(p: nat)
    ensures Cfr.FULL_REACH.Counterfactual(p) == 1.0
  {
  }

  /** What it adds to the squared gains, with weight one. */
  lemma SquaredGainsWithin(root: Tree, sets: map<string, Cfr.Info>, cfg: Cfr.Config, rounds: seq<Cfr.Round>, p: nat,
      L: Layout, I: string, lo: real, hi: real, most: nat, k: nat)
    requires PlainRun(root, sets, cfg, rounds, p, L) && I in OwnInfosets(root, p) && k < |rounds|
    requires FairChance(root) && PayoffsWithin(root, p, lo, hi) && lo <= hi && cfg.variant.CfrPlus?
    requires I in sets && sets[I].arity <= most
    ensures Cfr.Squares(Cfr.IterationIncrements(Cfr.Gain, root, sets, cfg, k + 1, rounds[k], I), sets[I].arity)
         <= Times(most as real, Cfr.Square(hi - lo))
  {
    hide *;
    InfosetFacts(root, sets, cfg, rounds, p, L, I);
    var n := sets[I].arity;
    var gs := Cfr.IterationIncrements(Cfr.Gain, root, sets, cfg, k + 1, rounds[k], I);
    forall a: nat | a < n ensures Cfr.Square(gs[a]) <= Cfr.Square(hi - lo) {
      OneGain(root, sets, cfg, rounds, p, L, I, lo, hi, a, k);
      SquareWithin(gs[a], hi - lo);
    }
    SquaresAtMost(gs, n, Cfr.Square(hi - lo));
    SquareIsNonNegative(hi - lo);
    MoreActions(n, most, Cfr.Square(hi - lo));
  }

  lemma IterationWithin(root: Tree, sets: map<string, Cfr.Info>, cfg: Cfr.Config, rounds: seq<Cfr.Round>, p: nat,
      L: Layout, I: string, lo: real, hi: real, most: nat, k: nat)
    requires PlainRun(root, sets, cfg, rounds, p, L) && I in OwnInfosets(root, p) && k < |rounds|
    requires FairChance(root) && PayoffsWithin(root, p, lo, hi) && lo <= hi
    requires I in sets && sets[I].arity <= most
    ensures IterationWork(root, sets, cfg, k + 1, rounds[k], I)
         <= Times(most as real, Times(Toil(cfg, k + 1), Cfr.Square(hi - lo)))
  {
    hide PlainRun, OwnInfosets, FairChance, PayoffsWithin, Cfr.Squares, Cfr.IterationIncrements, Cfr.Square, Times,
      Cfr.RegretWeight;
    RegretsWithin(root, sets, cfg, rounds, p, L, I, lo, hi, most, k);
    if cfg.variant.CfrPlus? {
      SquaredGainsWithin(root, sets, cfg, rounds, p, L, I, lo, hi, most, k);
      UnweightedToil(cfg, k + 1, most as real, Cfr.Square(hi - lo));
    }
  }

  lemma UnweightedToil(cfg: Cfr.Config, n: nat, m: real, b: real)
    requires cfg.variant.CfrPlus?
    ensures Times(m, Times(Cfr.Square(Cfr.RegretWeight(cfg, n)), b)) + Times(m, b) == Times(m, Times(2.0, b))
  {
    assert m * (2.0 * b) == m * b + m * b;
  }

  /** So the work of a run stays within the action count times the squared payoff range and weights. */
  lemma {:induction false} BudgetWithin(root: Tree, sets: map<string, Cfr.Info>, cfg: Cfr.Config,
      rounds: seq<Cfr.Round>, p: nat, L: Layout, I: string, lo: real, hi: real, most: nat)
    requires PlainRun(root, sets, cfg, rounds, p, L) && I in OwnInfosets(root, p)
    requires FairChance(root) && PayoffsWithin(root, p, lo, hi) && lo <= hi
    requires I in sets && sets[I].arity <= most
    ensures Work(root, sets, cfg, rounds, I)
         <= Times(most as real, Times(Effort(cfg, |rounds|), Cfr.Square(hi - lo)))
    decreases |rounds|
  {
    hide *;
    if rounds == [] {
      NoBudget(root, sets, cfg, rounds, I, most, Cfr.Square(hi - lo));
    } else {
      var n := |rounds|;
      ShorterRun(root, sets, cfg, rounds, p, L);
      BudgetWithin(root, sets, cfg, rounds[..n - 1], p, L, I, lo, hi, most);
      IterationWithin(root, sets, cfg, rounds, p, L, I, lo, hi, most, n - 1);
      BudgetGrows(root, sets, cfg, rounds, I, most, Cfr.Square(hi - lo));
    }
  }

  lemma NoBudget(root: Tree, sets: map<string, Cfr.Info>, cfg: Cfr.Config, rounds: seq<Cfr.Round>, I: string, most: nat,
      b: real)
    requires rounds == [] && I in sets
    ensures Work(root, sets, cfg, rounds, I) <= Times(most as real, Times(Effort(cfg, |rounds|), b))
  {
    ZeroProduct(b);
    TimesZero(most as real);
  }

  lemma BudgetGrows(root: Tree, sets: map<string, Cfr.Info>, cfg: Cfr.Config, rounds: seq<Cfr.Round>, I: string,
      most: nat, b: real)
    requires rounds != [] && I in sets
    requires var n := |rounds|;
             && Work(root, sets, cfg, rounds[..n - 1], I) <= Times(most as real, Times(Effort(cfg, n - 1), b))
             && IterationWork(root, sets, cfg, n, rounds[n - 1], I) <= Times(most as real, Times(Toil(cfg, n), b))
    ensures Work(root, sets, cfg, rounds, I) <= Times(most as real, Times(Effort(cfg, |rounds|), b))
  {
    hide *;
    var n := |rounds|;
    BudgetSplits(root, sets, cfg, rounds, I);
    EffortSplits(cfg, n);
    FactorSplits(Effort(cfg, n - 1), Toil(cfg, n), b);
    SplitTimes(most as real, Times(Effort(cfg, n - 1), b), Times(Toil(cfg, n), b));
  }

  lemma BudgetSplits(root: Tree, sets: map<string, Cfr.Info>, cfg: Cfr.Config, rounds: seq<Cfr.Round>, I: string)
    requires rounds != [] && I in sets
    ensures var n := |rounds|;
            Work(root, sets, cfg, rounds, I)
            == Work(root, sets, cfg, rounds[..n - 1], I) + IterationWork(root, sets, cfg, n, rounds[n - 1], I)
  {
    hide Cfr.Squares, Cfr.IterationIncrements;
  }

  lemma EffortSplits(cfg: Cfr.Config, n: nat)
    requires n > 0
    ensures Effort(cfg, n) == Effort(cfg, n - 1) + Toil(cfg, n)
  {
    hide Toil;
  }

  lemma ShorterRun(root: Tree, sets: map<string, Cfr.Info>, cfg: Cfr.Config, rounds: seq<Cfr.Round>, p: nat, L: Layout)
    requires PlainRun(root, sets, cfg, rounds, p, L) && rounds != []
    ensures PlainRun(root, sets, cfg, rounds[..|rounds| - 1], p, L)
  {
    hide Cfr.FairRound, Cfr.Consistent, Respects, Cfr.GoodSets, Plain;
  }

  // ---------------------------------------------------------------- the rate

  /** An information set's stored regrets stay within any `c` whose square bounds what the game allows. */
  ghost predicate Bounds(c: real, cfg: Cfr.Config, n: nat, most: nat, range: real) {
    c >= 0.0 && Times(most as real, Times(Effort(cfg, n), Cfr.Square(range))) <= Cfr.Square(c)
  }

  /** The greatest stored regrets of one player add up to at most `c` for each information set. */
  lemma TopsWithin(root: Tree, sets: map<string, Cfr.Info>, cfg: Cfr.Config, table: Cfr.Table, rounds: seq<Cfr.Round>,
      p: nat, L: Layout, order: seq<string>, lo: real, hi: real, most: nat, c: real)
    requires PlainRun(root, sets, cfg, rounds, p, L) && cfg.momentum.None? && Cfr.Sound(root, sets, cfg, table, rounds)
    requires ShallowestFirst(order, OwnInfosets(root, p), L)
    requires FairChance(root) && PayoffsWithin(root, p, lo, hi) && lo <= hi
    requires forall I :: I in sets ==> sets[I].arity <= most
    requires Bounds(c, cfg, |rounds|, most, hi - lo)
    ensures Cfr.Fits(table, sets) && (forall I :: I in order ==> I in sets)
    ensures StoredTop(table, sets, order, |order|) <= Times(|order| as real, c)
  {
    hide *;
    PlainParts(cfg, root, sets, rounds, p, L);
    BoundsParts(c, cfg, |rounds|, most, hi - lo);
    Listed(order, OwnInfosets(root, p), L);
    forall I | I in order ensures I in sets && Work(root, sets, cfg, rounds, I) <= Cfr.Square(c) {
      InfosetFacts(root, sets, cfg, rounds, p, L, I);
      BudgetWithin(root, sets, cfg, rounds, p, L, I, lo, hi, most);
    }
    StoredTopBounded(root, sets, cfg, table, rounds, order, |order|, c);
  }

  lemma PlainParts(cfg: Cfr.Config, root: Tree, sets: map<string, Cfr.Info>, rounds: seq<Cfr.Round>, p: nat, L: Layout)
    requires PlainRun(root, sets, cfg, rounds, p, L) && cfg.momentum.None?
    ensures (Cfr.Contracting(cfg) || Cfr.Flooring(cfg)) && Plain(cfg)
  {
    hide Cfr.FairRound, Cfr.Consistent, Respects;
  }

  lemma BoundsParts(c: real, cfg: Cfr.Config, n: nat, most: nat, range: real)
    requires Bounds(c, cfg, n, most, range)
    ensures c >= 0.0 && Times(most as real, Times(Effort(cfg, n), Cfr.Square(range))) <= Cfr.Square(c)
  {
  }

  lemma Listed(order: seq<string>, all: set<string>, L: Layout)
    requires ShallowestFirst(order, all, L)
    ensures forall I :: I in order ==> I in all
  {
  }

  // ---------------------------------------------------------------- weights against iterations

  ghost function TotalWeight(cfg: Cfr.Config, n: nat): real {
    Sum(Weights(cfg, n), n)
  }

  lemma {:induction false} SumOfPrefix(xs: seq<real>, ys: seq<real>, n: nat)
    requires n <= |xs| && n <= |ys| && forall i :: 0 <= i < n ==> xs[i] == ys[i]
    ensures Sum(xs, n) == Sum(ys, n)
  {
    if n > 0 {
      SumOfPrefix(xs, ys, n - 1);
    }
  }

  lemma TotalGrows(cfg: Cfr.Config, n: nat)
    requires n > 0
    ensures TotalWeight(cfg, n) == TotalWeight(cfg, n - 1) + if cfg.variant.Vanilla? then 1.0 else n as real
  {
    SumOfPrefix(Weights(cfg, n), Weights(cfg, n - 1), n - 1);
  }

  function Triangle(t: real): real {
    t * (t + 1.0) / 2.0
  }

  function Pyramid(t: real): real {
    t * (t + 1.0) * (2.0 * t + 1.0) / 6.0
  }

  lemma PyramidGrows(u: real)
    ensures Triangle(u) + (u + 1.0) == Triangle(u + 1.0) && Pyramid(u) + Cfr.Square(u + 1.0) == Pyramid(u + 1.0)
  {
    var t, q := u + 1.0, u * (u + 1.0);
    assert t * (t + 1.0) == q + 2.0 * t;
    assert q * (2.0 * t + 1.0) == q * (2.0 * u + 1.0) + 2.0 * q;
    assert q == t * t - t;
    assert 2.0 * t * (2.0 * t + 1.0) == 4.0 * (t * t) + 2.0 * t;
  }

  /** Constant weights add up to the number of iterations, linear ones to the triangle and pyramid numbers. */
  lemma {:induction false} WeightsAdd(cfg: Cfr.Config, n: nat)
    requires Plain(cfg)
    ensures var t := n as real;
            && TotalWeight(cfg, n) == (if cfg.variant.Vanilla? then t else Triangle(t))
            && Effort(cfg, n) == if cfg.variant.Linear? then Pyramid(t) else if cfg.variant.CfrPlus? then 2.0 * t else t
  {
    hide TotalWeight, Effort, Triangle, Pyramid, Cfr.Square;
    if n == 0 {
      NoWeights(cfg);
    } else {
      WeightsAdd(cfg, n - 1);
      TotalGrows(cfg, n);
      EffortSplits(cfg, n);
      PyramidGrows((n - 1) as real);
      SquareOfOne();
    }
  }

  lemma NoWeights(cfg: Cfr.Config)
    ensures TotalWeight(cfg, 0) == 0.0 && Effort(cfg, 0) == 0.0 && Triangle(0.0) == 0.0 && Pyramid(0.0) == 0.0
  {
  }

  lemma SquareOfOne()
    ensures Cfr.Square(1.0) == 1.0
  {
  }

  /** How many iterations an accuracy takes: with flooring the bound on the regrets is less sharp. */
  ghost function Pace(cfg: Cfr.Config): real {
    if cfg.variant.CfrPlus? then 0.5 else 3.0
  }

  /** The effort, as far as the regrets lag behind the average. */
  ghost function Drag(cfg: Cfr.Config, n: nat): real {
    Times(Effort(cfg, n), Cfr.Square(Lag(cfg, n)))
  }

  /** However the iterations are weighted, the squared total weight outgrows the squared weights. */
  lemma WeightsOutgrow(cfg: Cfr.Config, n: nat)
    requires Plain(cfg)
    ensures Pace(cfg) * Times(n as real, Drag(cfg, n)) <= 4.0 * Cfr.Square(TotalWeight(cfg, n))
    ensures n > 0 ==> TotalWeight(cfg, n) > 0.0 && Lag(cfg, n) > 0.0
    ensures Drag(cfg, n) >= 0.0
  {
    hide TotalWeight, Effort, Times, Cfr.Square, Triangle, Pyramid;
    WeightsAdd(cfg, n);
    TriangleOutgrows(n as real);
    SquareOfOne();
    UnitFactor(Effort(cfg, n));
    SquareIsNonNegative(Lag(cfg, n));
    NonNegativeProduct(Effort(cfg, n), Cfr.Square(Lag(cfg, n)));
    if cfg.variant.CfrPlus? {
      TriangleOutgrowsFourth(n as real);
    }
  }

  lemma UnitFactor(x: real)
    ensures Times(x, 1.0) == x
  {
  }

  lemma TriangleOutgrows(t: real)
    requires t >= 0.0
    ensures 3.0 * Times(t, Pyramid(t)) <= 4.0 * Cfr.Square(Triangle(t))
    ensures 3.0 * Times(t, t) <= 4.0 * Cfr.Square(t)
    ensures t > 0.0 ==> Triangle(t) > 0.0
  {
    var q, r := t * (t + 1.0), t * (2.0 * t + 1.0) / 2.0;
    assert t * t >= 0.0 && q == t * t + t;
    assert q - r == t / 2.0;
    assert q * (t / 2.0) >= 0.0;
    assert q * (t / 2.0) == q * q - q * r;
    assert t * (t * (t + 1.0) * (2.0 * t + 1.0) / 6.0) == t * (q * (2.0 * t + 1.0) / 6.0);
    assert 3.0 * (t * (q * (2.0 * t + 1.0) / 6.0)) == q * r;
    assert 4.0 * ((q / 2.0) * (q / 2.0)) == q * q;
  }

  lemma TriangleOutgrowsFourth(t: real)
    requires t >= 0.0
    ensures 0.5 * Times(t, Times(2.0 * t, Cfr.Square(t))) <= 4.0 * Cfr.Square(Triangle(t))
  {
    var s, q := t * t, t * (t + 1.0);
    assert q == s + t && s >= 0.0;
    assert 0.5 * (t * (2.0 * t * s)) == s * s;
    assert 4.0 * ((q / 2.0) * (q / 2.0)) == q * q;
    assert q * q - s * s == t * (2.0 * s + t);
    assert t * (2.0 * s + t) >= 0.0;
  }

  // ---------------------------------------------------------------- how many iterations are enough

  /**
   * Enough iterations for `eps`: the variant's pace times its square times their number reaches the squared number of
   * information sets, times the action count, times the squared payoff range.
   */
  ghost predicate Enough(cfg: Cfr.Config, eps: real, n: nat, infosets: nat, most: nat, lo: real, hi: real) {
    && n > 0 && eps > 0.0
    && Times(Cfr.Square(infosets as real), Times(most as real, Cfr.Square(hi - lo)))
        <= Times(Pace(cfg) * Cfr.Square(eps), n as real)
  }

  /** Chained inequalities between products. */
  lemma ProductsChain(k: real, m: real, g: real, s: real, e: real, n: real, w: real)
    requires Times(m, g) <= Times(k * e, n) && k * Times(n, s) <= 4.0 * w && s >= 0.0 && e >= 0.0
    ensures Times(m, Times(g, s)) <= 4.0 * Times(e, w)
  {
    assert (k * e * n - m * g) * s >= 0.0;
    assert (4.0 * w - k * (n * s)) * e >= 0.0;
    assert (k * e * n - m * g) * s == k * e * n * s - m * g * s;
    assert (4.0 * w - k * (n * s)) * e == 4.0 * w * e - k * n * s * e;
  }

  lemma SquareOfProduct(x: real, y: real)
    ensures Cfr.Square(Times(x, y)) == Times(Cfr.Square(x), Cfr.Square(y))
  {
    assert (x * y) * (x * y) == (x * x) * (y * y);
  }

  lemma SquareCancels(m: real, x: real, y: real)
    requires m > 0.0 && Times(m, x) <= Times(m, y)
    ensures x <= y
  {
    assert m * (x - y) == Times(m, x) - Times(m, y);
    if x > y {
      PositiveProduct(m, x - y);
    }
  }

  /** With enough iterations some `c` bounds the regrets and is small against the total weight. */
  lemma EnoughIsSmall(cfg: Cfr.Config, n: nat, eps: real, infosets: nat, most: nat, lo: real, hi: real)
    returns (c: real)
    requires Plain(cfg) && infosets > 0 && Enough(cfg, eps, n, infosets, most, lo, hi)
    ensures Bounds(c, cfg, n, most, hi - lo)
    ensures Times(Lag(cfg, n), Times(infosets as real, c)) == Times(TotalWeight(cfg, n), 2.0 * eps)
  {
    WeightsOutgrow(cfg, n);
    var N, W, G := infosets as real, TotalWeight(cfg, n), Lag(cfg, n);
    hide TotalWeight, Effort, Plain, Lag, Drag, Pace;
    PositiveProduct(W, 2.0 * eps);
    PositiveProduct(G, N);
    var total, share := Times(W, 2.0 * eps), Times(G, N);
    c := total / share;
    QuotientUndone(total, share);
    QuotientIsPositive(total, share);
    hide Times, Cfr.Square;
    TimesAlgebra(G, N, c, 0.0);
    EnoughBounds(cfg, n, eps, infosets, most, hi - lo, c);
  }

  lemma QuotientIsPositive(x: real, y: real)
    requires x > 0.0 && y > 0.0
    ensures x / y > 0.0
  {
  }

  lemma EnoughBounds(cfg: Cfr.Config, n: nat, eps: real, infosets: nat, most: nat, range: real, c: real)
    requires infosets > 0 && c > 0.0 && Lag(cfg, n) > 0.0 && Drag(cfg, n) >= 0.0
    requires Times(Cfr.Square(infosets as real), Times(most as real, Cfr.Square(range)))
          <= Times(Pace(cfg) * Cfr.Square(eps), n as real)
    requires Pace(cfg) * Times(n as real, Drag(cfg, n)) <= 4.0 * Cfr.Square(TotalWeight(cfg, n))
    requires Times(Times(Lag(cfg, n), infosets as real), c) == Times(TotalWeight(cfg, n), 2.0 * eps)
    ensures Bounds(c, cfg, n, most, range)
  {
    hide TotalWeight, Effort, Lag, Pace, Times, Cfr.Square;
    var N, W, S, G := infosets as real, TotalWeight(cfg, n), Effort(cfg, n), Lag(cfg, n);
    var g, g2, n2 := Times(most as real, Cfr.Square(range)), Cfr.Square(G), Cfr.Square(N);
    SquareIsNonNegative(eps);
    ProductsChain(Pace(cfg), n2, g, Drag(cfg, n), Cfr.Square(eps), n as real, Cfr.Square(W));
    SquareOfProduct(Times(G, N), c);
    SquareOfProduct(G, N);
    SquareOfProduct(W, 2.0 * eps);
    DoubleSquare(eps);
    FourTimes(Cfr.Square(W), Cfr.Square(eps));
    SquareIsPositive(N);
    SquareIsPositive(G);
    PositiveProduct(g2, n2);
    Rearranged(n2, g, S, g2);
    SquareCancels(Times(g2, n2), Times(g, S), Cfr.Square(c));
    TimesCommutes3(most as real, S, Cfr.Square(range));
  }

  lemma Rearranged(n: real, g: real, s: real, l: real)
    ensures Times(n, Times(g, Times(s, l))) == Times(Times(l, n), Times(g, s))
  {
    assert n * (g * (s * l)) == (l * n) * (g * s);
  }

  lemma DoubleSquare(eps: real)
    ensures Cfr.Square(2.0 * eps) == 4.0 * Cfr.Square(eps)
  {
  }

  lemma FourTimes(w: real, e: real)
    ensures Times(w, 4.0 * e) == 4.0 * Times(e, w)
  {
    assert w * (4.0 * e) == 4.0 * (e * w);
  }

  lemma SquareIsPositive(x: real)
    requires x > 0.0
    ensures Cfr.Square(x) > 0.0
  {
    PositiveProduct(x, x);
  }

  lemma TimesCommutes3(a: real, s: real, r: real)
    ensures Times(Times(a, r), s) == Times(a, Times(s, r))
  {
    assert (a * r) * s == a * (s * r);
  }

  /** A listing without repetition is as long as the set it lists. */
  lemma ListedOnce(order: seq<string>, all: set<string>)
    requires (forall I :: I in order <==> I in all) && forall i, j :: 0 <= i < j < |order| ==> order[i] != order[j]
    ensures |order| == |all|
    decreases |order|
  {
    assert all == set I | I in order;
    if order != [] {
      var k := |order| - 1;
      assert order[k] in order;
      forall I ensures I in order[..k] <==> I in all - {order[k]} {
        if I in all && I != order[k] {
          var i :| 0 <= i < |order| && order[i] == I;
          assert order[..k][i] == I;
        }
      }
      ListedOnce(order[..k], all - {order[k]});
    }
  }

  /** The number of information sets of both players. */
  function Infosets(root: Tree): nat {
    |OwnInfosets(root, 0)| + |OwnInfosets(root, 1)|
  }

  lemma OrdersCount(root: Tree, L0: Layout, L1: Layout, order0: seq<string>, order1: seq<string>)
    requires ShallowestFirst(order0, OwnInfosets(root, 0), L0) && ShallowestFirst(order1, OwnInfosets(root, 1), L1)
    ensures |order0| + |order1| == Infosets(root)
  {
    ListedOnce(order0, OwnInfosets(root, 0));
    ListedOnce(order1, OwnInfosets(root, 1));
  }

  lemma HalfCancels(w: real, x: real, y: real)
    requires w > 0.0 && Times(w, 2.0 * x) <= Times(w, 2.0 * y)
    ensures x <= y
  {
    SquareCancels(w, 2.0 * x, 2.0 * y);
  }

  /**
   * The solver converges, and this fast: after enough iterations, counted from the number of information sets, the
   * action count and the range of payoffs, the exploitability reported for the averaged strategy is at most `eps`.
   * It falls like one over the square root of the iterations.
   */
  method SolveWithin(root: Tree, cfg: Cfr.Config, iterations: nat, ghost sets: map<string, Cfr.Info>, ghost L0: Layout,
      ghost L1: Layout, ghost lo: real, ghost hi: real, ghost most: nat)
    returns (averages: Strategy, e: real)
    requires WellFormed(root) && ZeroSum(root) && FairChance(root) && PayoffsWithin(root, 0, lo, hi) && lo <= hi
    requires Cfr.Consistent(root, sets) && Cfr.GoodSets(sets) && forall I :: I in sets ==> sets[I].arity <= most
    requires Respects(root, 0, L0, 0, []) && Respects(root, 1, L1, 0, [])
    requires Plain(cfg) && cfg.momentum.None?
    ensures Profile(averages) && e >= 0.0 && (e == 0.0 <==> Nash(root, averages))
    ensures forall eps :: Enough(cfg, eps, iterations, Infosets(root), most, lo, hi) ==> e <= eps
  {
    hide *;
    PayoffsMirror(root, lo, hi);
    var solver;
    ghost var order0, order1, rounds;
    averages, e, solver, order0, order1, rounds := Solve(root, cfg, iterations, sets, L0, L1);
    OrdersCount(root, L0, L1, order0, order1);
    forall eps | Enough(cfg, eps, iterations, Infosets(root), most, lo, hi) ensures e <= eps {
      SmallAfter(root, sets, cfg, solver.table, rounds, L0, L1, order0, order1, lo, hi, most, e, eps);
    }
  }

  lemma SmallAfter(root: Tree, sets: map<string, Cfr.Info>, cfg: Cfr.Config, table: Cfr.Table, rounds: seq<Cfr.Round>,
      L0: Layout, L1: Layout, order0: seq<string>, order1: seq<string>, lo: real, hi: real, most: nat, e: real,
      eps: real)
    requires PlainRun(root, sets, cfg, rounds, 0, L0) && PlainRun(root, sets, cfg, rounds, 1, L1)
    requires cfg.momentum.None? && Plain(cfg) && Cfr.Sound(root, sets, cfg, table, rounds)
    requires ShallowestFirst(order0, OwnInfosets(root, 0), L0) && ShallowestFirst(order1, OwnInfosets(root, 1), L1)
    requires FairChance(root) && PayoffsWithin(root, 0, lo, hi) && PayoffsWithin(root, 1, -hi, -lo) && lo <= hi
    requires forall I :: I in sets ==> sets[I].arity <= most
    requires Cfr.Fits(table, sets) && (forall I :: I in order0 ==> I in sets) && (forall I :: I in order1 ==> I in sets)
    requires Times(Sum(Weights(cfg, |rounds|), |rounds|), 2.0 * e)
          <= Times(Lag(cfg, |rounds|),
                   StoredTop(table, sets, order0, |order0|) + StoredTop(table, sets, order1, |order1|))
    requires Enough(cfg, eps, |rounds|, |order0| + |order1|, most, lo, hi)
    ensures e <= eps
  {
    hide *;
    var n, N := |rounds|, |order0| + |order1|;
    WeightIsSum(cfg, n);
    var c := SmallBound(cfg, n, eps, N, most, lo, hi);
    assert hi - lo == -lo - (-hi);
    TopsWithin(root, sets, cfg, table, rounds, 0, L0, order0, lo, hi, most, c);
    TopsWithin(root, sets, cfg, table, rounds, 1, L1, order1, -hi, -lo, most, c);
    CountSplits(|order0|, |order1|, c);
    Concludes(TotalWeight(cfg, n), Lag(cfg, n), e, eps,
              StoredTop(table, sets, order0, |order0|) + StoredTop(table, sets, order1, |order1|),
              Times(N as real, c));
  }

  lemma SmallBound(cfg: Cfr.Config, n: nat, eps: real, infosets: nat, most: nat, lo: real, hi: real)
    returns (c: real)
    requires Plain(cfg) && Enough(cfg, eps, n, infosets, most, lo, hi)
    ensures Bounds(c, cfg, n, most, hi - lo) && TotalWeight(cfg, n) > 0.0 && Lag(cfg, n) >= 0.0
    ensures Times(Lag(cfg, n), Times(infosets as real, c)) <= Times(TotalWeight(cfg, n), 2.0 * eps)
  {
    hide *;
    WeightsOutgrow(cfg, n);
    EnoughParts(cfg, eps, n, infosets, most, lo, hi);
    if infosets > 0 {
      c := EnoughIsSmall(cfg, n, eps, infosets, most, lo, hi);
    } else {
      c := AnyBound(cfg, n, most, hi - lo);
      CountSplits(0, 0, c);
      TimesZero(Lag(cfg, n));
      PositiveProduct(TotalWeight(cfg, n), 2.0 * eps);
    }
  }

  lemma Concludes(w: real, lag: real, e: real, eps: real, tops: real, bound: real)
    requires w > 0.0 && lag >= 0.0 && tops <= bound
    requires Times(w, 2.0 * e) <= Times(lag, tops) && Times(lag, bound) <= Times(w, 2.0 * eps)
    ensures e <= eps
  {
    hide *;
    LagKeepsOrder(lag, tops, bound);
    HalfCancels(w, e, eps);
  }

  lemma WeightIsSum(cfg: Cfr.Config, n: nat)
    ensures TotalWeight(cfg, n) == Sum(Weights(cfg, n), n)
  {
  }

  lemma EnoughParts(cfg: Cfr.Config, eps: real, n: nat, infosets: nat, most: nat, lo: real, hi: real)
    requires Enough(cfg, eps, n, infosets, most, lo, hi)
    ensures n > 0 && eps > 0.0
  {
  }

  lemma PositiveProduct(x: real, y: real)
    requires x > 0.0 && y > 0.0
    ensures Times(x, y) > 0.0
  {
  }

  lemma AnyBound(cfg: Cfr.Config, n: nat, most: nat, range: real) returns (c: real)
    ensures Bounds(c, cfg, n, most, range)
  {
    var b := Times(most as real, Times(Effort(cfg, n), Cfr.Square(range)));
    c := if b > 1.0 then b else 1.0;
    assert c * c >= c by {
      assert c * (c - 1.0) >= 0.0;
    }
  }
}
