// The CFR recursion of crates/poker-darwin/src/cfr.rs over a mutable table of nodes.
module Cfr {
  import opened Reals
  import opened Game
  import opened Paths
  import opened Wrappers

  /** DCFR multipliers of one iteration; the real powers that produce them are parameters here. */
  datatype Factors = Factors(pos: real, neg: real, strat: real)

  datatype Variant = Vanilla | CfrPlus | Linear | Dcfr(factors: nat -> Factors)

  datatype Config = Config(
    variant: Variant,
    momentum: Option<nat -> real>,
    prune: nat -> Option<real>)

  datatype Node = Node(
    regretSum: seq<real>,
    strategySum: seq<real>,
    curStrategy: seq<real>,
    thisInstant: seq<real>,
    lastInstant: seq<real>,
    curIter: nat)

  function Zeros(n: nat): (zs: seq<real>)
    ensures |zs| == n
  {
    seq(n, _ => 0.0)
  }

  function NewNode(n: nat): (node: Node)
    ensures Sized(node, n)
  {
    Node(Zeros(n), Zeros(n), Uniform(n), Zeros(n), Zeros(n), 0)
  }

  predicate Sized(node: Node, n: nat) {
    |node.regretSum| == |node.strategySum| == |node.curStrategy| == |node.thisInstant| == |node.lastInstant| == n
  }

  // ---------------------------------------------------------------- preparing a node

  function Discounted(rs: seq<real>, f: Factors): (ds: seq<real>)
    ensures |ds| == |rs|
  {
    seq(|rs|, i requires 0 <= i < |rs| => Times(if rs[i] > 0.0 then f.pos else f.neg, rs[i]))
  }

  function Shrunk(ss: seq<real>, k: real): (ds: seq<real>)
    ensures |ds| == |ss|
  {
    seq(|ss|, i requires 0 <= i < |ss| => Times(k, ss[i]))
  }

  /** The regrets the next strategy is matched to: with momentum, the extrapolated ones. */
  function Predicted(rs: seq<real>, last: seq<real>, omega: real): (ps: seq<real>)
    requires |last| == |rs|
    ensures |ps| == |rs|
  {
    seq(|rs|, i requires 0 <= i < |rs| => rs[i] + Times(omega, last[i]))
  }

  /** What once-per-iteration preparation turns a node into. */
  function Prepared(node: Node, cfg: Config, t: nat): Node
    requires Sized(node, |node.regretSum|)
    ensures Sized(Prepared(node, cfg, t), |node.regretSum|) && Prepared(node, cfg, t).curIter == t
  {
    if node.curIter == t then node else
    var n := |node.regretSum|;
    var last := if cfg.momentum.Some? then node.thisInstant else node.lastInstant;
    var regrets := if cfg.variant.Dcfr? then Discounted(node.regretSum, cfg.variant.factors(t)) else node.regretSum;
    var strategies := if cfg.variant.Dcfr? && t > 1 then Shrunk(node.strategySum, cfg.variant.factors(t).strat)
        else node.strategySum;
    var basis := if cfg.momentum.Some? then Predicted(regrets, last, cfg.momentum.value(t)) else regrets;
    Node(regrets, strategies, Matched(basis), Zeros(n), last, t)
  }

  /**
   * Preparation, entry by entry: once per iteration the regret window moves on, DCFR discounts positive and negative
   * regrets and, after the first iteration, the strategy sums, and the strategy is matched to the regrets, with
   * momentum to those extrapolated by the last iteration's.
   */
  ghost predicate Prepares(cfg: Config, t: nat, was: Node, node: Node) {
    if was.curIter == t then node == was
    else
      var n := |was.regretSum|;
      && Sized(was, n) && Sized(node, n) && node.curIter == t
      && node.lastInstant == (if cfg.momentum.Some? then was.thisInstant else was.lastInstant)
      && (forall i :: 0 <= i < n ==> node.thisInstant[i] == 0.0)
      && (forall i :: 0 <= i < n ==>
            node.regretSum[i] == if !cfg.variant.Dcfr? then was.regretSum[i]
              else if was.regretSum[i] > 0.0 then Times(cfg.variant.factors(t).pos, was.regretSum[i])
              else Times(cfg.variant.factors(t).neg, was.regretSum[i]))
      && (forall i :: 0 <= i < n ==>
            node.strategySum[i] == if cfg.variant.Dcfr? && t > 1
              then Times(cfg.variant.factors(t).strat, was.strategySum[i]) else was.strategySum[i])
      && (forall basis: seq<real> :: |basis| == n && Extrapolates(cfg, t, node, basis) ==>
            node.curStrategy == Matched(basis))
  }

  ghost predicate Extrapolates(cfg: Config, t: nat, node: Node, basis: seq<real>)
    requires |basis| == |node.regretSum| == |node.lastInstant|
  {
    forall i :: 0 <= i < |basis| ==>
      basis[i] == if cfg.momentum.Some? then node.regretSum[i] + Times(cfg.momentum.value(t), node.lastInstant[i])
        else node.regretSum[i]
  }

  lemma PreparedPrepares(node: Node, cfg: Config, t: nat)
    requires Sized(node, |node.regretSum|)
    ensures Prepares(cfg, t, node, Prepared(node, cfg, t))
  {
    hide Times, Matched;
    var ready := Prepared(node, cfg, t);
    if node.curIter != t {
      forall basis: seq<real> | |basis| == |node.regretSum| && Extrapolates(cfg, t, ready, basis)
        ensures ready.curStrategy == Matched(basis)
      {
        if cfg.momentum.Some? {
          assert basis == Predicted(ready.regretSum, ready.lastInstant, cfg.momentum.value(t));
        } else {
          assert basis == ready.regretSum;
        }
      }
    }
  }

  ghost function RegretWeight(cfg: Config, t: nat): real {
    if cfg.variant.Linear? then t as real else 1.0
  }

  ghost function StrategyWeight(cfg: Config, t: nat): real {
    if cfg.variant.CfrPlus? || cfg.variant.Linear? then t as real else 1.0
  }

  // ---------------------------------------------------------------- what one pass adds

  /** Owner and action count of an information set. */
  datatype Info = Info(owner: nat, arity: nat)

  ghost predicate Consistent(t: Tree, sets: map<string, Info>) {
    match t
    case Terminal(_, _) => true
    case Chance(_, _, cs) => forall i :: 0 <= i < |cs| ==> Consistent(cs[i], sets)
    case Decision(_, q, I, cs) =>
      && I in sets && sets[I] == Info(q, |cs|) && q < 2 && |cs| > 0
      && forall i :: 0 <= i < |cs| ==> Consistent(cs[i], sets)
  }

  /** Reach of player 0, of player 1 and of chance. */
  datatype Reach = Reach(zero: real, one: real, chance: real) {
    function Own(p: nat): real {
      if p == 0 then zero else one
    }

    /** Everyone but `p`: the opponent's and chance's reach. */
    function Counterfactual(p: nat): real {
      Times(if p == 0 then one else zero, chance)
    }

    function Scale(p: nat, w: real): Reach {
      if p == 0 then Reach(Times(zero, w), one, chance) else Reach(zero, Times(one, w), chance)
    }
  }

  /** One traversal: configuration, iteration, traverser, and the strategies in force. */
  datatype Pass = Pass(cfg: Config, iter: nat, tr: nat, sets: map<string, Info>, sigma: Strategy)

  /** Which actions a pass evaluated: a pruned one has no entry, an evaluated one the cut of its subtree. */
  datatype Cut = Cut(kept: seq<Option<Cut>>)

  /** Nothing pruned. */
  function Whole(t: Tree): (cut: Cut) {
    if t.Terminal? then Cut([])
        else Cut(seq(|t.children|, i requires 0 <= i < |t.children| => Some(Whole(t.children[i]))))
  }

  /** The pass may skip action `i`: pruning is on and the traverser plays it with probability zero. */
  ghost predicate Prunable(P: Pass, t: Tree, i: nat)
    requires !t.Terminal? && i < |t.children|
  {
    && t.Decision? && t.player == P.tr && P.cfg.prune(P.iter).Some?
    && StrategyFor(P.sigma, t.infoset, |t.children|)[i] == 0.0
  }

  ghost predicate Legal(P: Pass, t: Tree, cut: Cut)
    decreases t, 1
  {
    if t.Terminal? then cut.kept == [] else |cut.kept| == |t.children| && LegalAmong(P, t, cut.kept)
  }

  ghost predicate LegalAmong(P: Pass, t: Tree, cuts: seq<Option<Cut>>)
    requires !t.Terminal? && |cuts| <= |t.children|
    decreases t, 0
  {
    forall i :: 0 <= i < |cuts| ==>
      if cuts[i].Some? then Legal(P, t.children[i], cuts[i].value) else Prunable(P, t, i)
  }

  /** With pruning off a pass evaluates every action. */
  lemma {:induction false} PruningOffIsWhole(P: Pass, t: Tree, cut: Cut)
    requires Legal(P, t, cut) && P.cfg.prune(P.iter).None?
    ensures cut == Whole(t)
  {
    if !t.Terminal? {
      forall i | 0 <= i < |t.children| ensures cut.kept[i] == Some(Whole(t.children[i])) {
        PruningOffIsWhole(P, t.children[i], cut.kept[i].value);
      }
    }
  }

  /**
   * The accumulators a pass adds to: regrets, average strategy, and this iteration's regret alone. Regrets are also
   * measured against their gains, the positive parts of what is added to them.
   */
  datatype Kind = Regret | Gain | Average | Instant

  function Total(kind: Kind, node: Node): seq<real> {
    match kind
    case Regret => node.regretSum
    case Gain => node.regretSum
    case Average => node.strategySum
    case Instant => node.thisInstant
  }

  function ChildReach(P: Pass, t: Tree, reach: Reach, k: nat): Reach
    requires !t.Terminal? && k < |t.children|
  {
    var w := NodeWeights(t, P.tr, P.sigma, P.sigma)[k];
    if t.Chance? then reach.(chance := Times(reach.chance, w)) else reach.Scale(t.player, w)
  }

  function Value(P: Pass, t: Tree): real {
    Utility(t, P.tr, P.sigma, P.sigma)
  }

  /** What a history of the traverser adds for action `a`. */
  ghost function OwnIncrement(kind: Kind, P: Pass, t: Tree, a: nat, reach: Reach): real
    requires t.Decision? && a < |t.children|
  {
    if kind.Average? then
      Times(Times(StrategyWeight(P.cfg, P.iter), reach.Own(t.player)), StrategyFor(P.sigma, t.infoset, |t.children|)[a])
    else if kind.Instant? && P.cfg.momentum.None? then 0.0
    else if kind.Gain? then Positive(OwnRegret(P, t, a, reach))
    else OwnRegret(P, t, a, reach)
  }

  /** Weight, counterfactual reach, and how much better `a` is than the strategy in force. */
  ghost function OwnRegret(P: Pass, t: Tree, a: nat, reach: Reach): real
    requires t.Decision? && a < |t.children|
  {
    Times(Times(RegretWeight(P.cfg, P.iter), reach.Counterfactual(t.player)), Value(P, t.children[a]) - Value(P, t))
  }

  ghost function Here(kind: Kind, P: Pass, t: Tree, I: string, a: nat, reach: Reach, cuts: seq<Option<Cut>>): real
    requires |cuts| <= if t.Decision? then |t.children| else |cuts|
  {
    if t.Decision? && t.player == P.tr && t.infoset == I && a < |cuts| && cuts[a].Some? then
      OwnIncrement(kind, P, t, a, reach)
    else 0.0
  }

  /** Sum over the evaluated histories of `I` below `t` of what each adds for action `a`. */
  ghost function Increment(kind: Kind, P: Pass, t: Tree, I: string, a: nat, reach: Reach, cut: Cut): real
    decreases t, 1, 0
  {
    if t.Terminal? || |cut.kept| > |t.children| then 0.0
    else IncrementAmong(kind, P, t, I, a, reach, cut.kept) + Here(kind, P, t, I, a, reach, cut.kept)
  }

  ghost function IncrementAmong(kind: Kind, P: Pass, t: Tree, I: string, a: nat, reach: Reach,
      cuts: seq<Option<Cut>>): real
    requires !t.Terminal? && |cuts| <= |t.children|
    decreases t, 0, |cuts|
  {
    if cuts == [] then 0.0 else
    var n := |cuts| - 1;
    IncrementAmong(kind, P, t, I, a, reach, cuts[..n])
      + if cuts[n].Some? then Increment(kind, P, t.children[n], I, a, ChildReach(P, t, reach, n), cuts[n].value)
          else 0.0
  }

  lemma {:induction false} OnlyTraverserAccumulates(kind: Kind, P: Pass, t: Tree, I: string, a: nat, reach: Reach,
      cut: Cut)
    requires Consistent(t, P.sets) && I in P.sets && P.sets[I].owner != P.tr
    ensures Increment(kind, P, t, I, a, reach, cut) == 0.0
    decreases t, 1, 0
  {
    if !t.Terminal? && |cut.kept| <= |t.children| {
      OnlyTraverserAccumulatesAmong(kind, P, t, I, a, reach, cut.kept);
    }
  }

  lemma {:induction false} OnlyTraverserAccumulatesAmong(kind: Kind, P: Pass, t: Tree, I: string, a: nat, reach: Reach,
      cuts: seq<Option<Cut>>)
    requires Consistent(t, P.sets) && I in P.sets && P.sets[I].owner != P.tr && !t.Terminal? && |cuts| <= |t.children|
    ensures IncrementAmong(kind, P, t, I, a, reach, cuts) == 0.0
    decreases t, 0, |cuts|
  {
    if cuts != [] {
      var n := |cuts| - 1;
      OnlyTraverserAccumulatesAmong(kind, P, t, I, a, reach, cuts[..n]);
      if cuts[n].Some? {
        OnlyTraverserAccumulates(kind, P, t.children[n], I, a, ChildReach(P, t, reach, n), cuts[n].value);
      }
    }
  }

  // ---------------------------------------------------------------- pruning and the average strategy

  /** Below a history the traverser never plays to, nothing is added to the average strategy. */
  lemma {:induction false} UnreachedAddsNothing(P: Pass, t: Tree, I: string, a: nat, reach: Reach, cut: Cut)
    requires reach.Own(P.tr) == 0.0
    ensures Increment(Average, P, t, I, a, reach, cut) == 0.0
    decreases t, 1, 0
  {
    if !t.Terminal? && |cut.kept| <= |t.children| {
      UnreachedAddsNothingAmong(P, t, I, a, reach, cut.kept);
    }
  }

  lemma {:induction false} UnreachedAddsNothingAmong(P: Pass, t: Tree, I: string, a: nat, reach: Reach,
      cuts: seq<Option<Cut>>)
    requires reach.Own(P.tr) == 0.0 && !t.Terminal? && |cuts| <= |t.children|
    ensures IncrementAmong(Average, P, t, I, a, reach, cuts) == 0.0
    decreases t, 0, |cuts|
  {
    if cuts != [] {
      var n := |cuts| - 1;
      UnreachedAddsNothingAmong(P, t, I, a, reach, cuts[..n]);
      if cuts[n].Some? {
        UnreachedAddsNothing(P, t.children[n], I, a, ChildReach(P, t, reach, n), cuts[n].value);
      }
    }
  }

  /** Pruning loses nothing of the average strategy: it adds what the whole tree would have added. */
  lemma {:induction false} PruningKeepsAverages(P: Pass, t: Tree, I: string, a: nat, reach: Reach, cut: Cut)
    requires Legal(P, t, cut)
    ensures Increment(Average, P, t, I, a, reach, cut) == Increment(Average, P, t, I, a, reach, Whole(t))
    decreases t, 1, 0
  {
    if !t.Terminal? {
      PruningKeepsAveragesAmong(P, t, I, a, reach, cut.kept);
      assert Whole(t).kept[..|t.children|] == Whole(t).kept;
      PrunedRowAddsNothing(P, t, a, reach);
    }
  }

  lemma {:induction false} PruningKeepsAveragesAmong(P: Pass, t: Tree, I: string, a: nat, reach: Reach,
      cuts: seq<Option<Cut>>)
    requires !t.Terminal? && |cuts| <= |t.children| && LegalAmong(P, t, cuts)
    ensures IncrementAmong(Average, P, t, I, a, reach, cuts)
            == IncrementAmong(Average, P, t, I, a, reach, Whole(t).kept[..|cuts|])
    decreases t, 0, |cuts|
  {
    hide Increment, Whole, Legal, ChildReach;
    WholeKeeps(t);
    if cuts != [] {
      var n := |cuts| - 1;
      var all := Whole(t).kept[..n + 1];
      assert all[..n] == Whole(t).kept[..n] && all[n] == Some(Whole(t.children[n]));
      PruningKeepsAveragesAmong(P, t, I, a, reach, cuts[..n]);
      var r := ChildReach(P, t, reach, n);
      if cuts[n].Some? {
        PruningKeepsAverages(P, t.children[n], I, a, r, cuts[n].value);
      } else {
        PrunedIsUnreached(P, t, reach, n);
        UnreachedAddsNothing(P, t.children[n], I, a, r, Whole(t.children[n]));
      }
    }
  }

  lemma PrunedIsUnreached(P: Pass, t: Tree, reach: Reach, k: nat)
    requires !t.Terminal? && k < |t.children| && Prunable(P, t, k)
    ensures ChildReach(P, t, reach, k).Own(P.tr) == 0.0
  {
  }

  lemma PrunedRowAddsNothing(P: Pass, t: Tree, a: nat, reach: Reach)
    ensures !t.Terminal? && a < |t.children| && Prunable(P, t, a) ==> OwnIncrement(Average, P, t, a, reach) == 0.0
  {
    if !t.Terminal? && a < |t.children| && Prunable(P, t, a) {
      TimesZero(Times(StrategyWeight(P.cfg, P.iter), reach.Own(t.player)));
    }
  }

  ghost predicate NonNegative(xs: seq<real>) {
    forall i :: 0 <= i < |xs| ==> xs[i] >= 0.0
  }

  lemma {:induction false} AverageGrows(P: Pass, t: Tree, I: string, a: nat, reach: Reach, cut: Cut)
    requires Consistent(t, P.sets) && PlaysDistributions(P) && reach.Own(P.tr) >= 0.0
    ensures Increment(Average, P, t, I, a, reach, cut) >= 0.0
    decreases t, 1, 0
  {
    if !t.Terminal? && |cut.kept| <= |t.children| {
      AverageGrowsAmong(P, t, I, a, reach, cut.kept);
      OwnAverageGrows(P, t, a, reach);
    }
  }

  lemma {:induction false} AverageGrowsAmong(P: Pass, t: Tree, I: string, a: nat, reach: Reach, cuts: seq<Option<Cut>>)
    requires Consistent(t, P.sets) && PlaysDistributions(P) && reach.Own(P.tr) >= 0.0
    requires !t.Terminal? && |cuts| <= |t.children|
    ensures IncrementAmong(Average, P, t, I, a, reach, cuts) >= 0.0
    decreases t, 0, |cuts|
  {
    if cuts != [] {
      var n := |cuts| - 1;
      AverageGrowsAmong(P, t, I, a, reach, cuts[..n]);
      if cuts[n].Some? {
        ChildReachGrows(P, t, reach, n);
        AverageGrows(P, t.children[n], I, a, ChildReach(P, t, reach, n), cuts[n].value);
      }
    }
  }

  lemma OwnAverageGrows(P: Pass, t: Tree, a: nat, reach: Reach)
    requires Consistent(t, P.sets) && PlaysDistributions(P) && reach.Own(P.tr) >= 0.0
    ensures t.Decision? && t.player == P.tr && a < |t.children| ==> OwnIncrement(Average, P, t, a, reach) >= 0.0
  {
    if t.Decision? && t.player == P.tr && a < |t.children| {
      assert PlaysDistribution(P, t.infoset);
      TimesNonNegative(StrategyWeight(P.cfg, P.iter), reach.Own(P.tr));
      TimesNonNegative(Times(StrategyWeight(P.cfg, P.iter), reach.Own(P.tr)), P.sigma[t.infoset][a]);
    }
  }

  lemma ChildReachGrows(P: Pass, t: Tree, reach: Reach, k: nat)
    requires Consistent(t, P.sets) && PlaysDistributions(P) && reach.Own(P.tr) >= 0.0 && !t.Terminal?
    requires k < |t.children|
    ensures ChildReach(P, t, reach, k).Own(P.tr) >= 0.0
  {
    if t.Decision? {
      assert PlaysDistribution(P, t.infoset);
      TimesNonNegative(reach.Own(P.tr), P.sigma[t.infoset][k]);
    }
  }

  lemma TimesNonNegative(x: real, y: real)
    requires x >= 0.0 && y >= 0.0
    ensures Times(x, y) >= 0.0
  {
  }

  // ---------------------------------------------------------------- increments are orthogonal to the strategy

  ghost function Increments(kind: Kind, P: Pass, t: Tree, I: string, reach: Reach, cut: Cut, m: nat): (xs: seq<real>)
    ensures |xs| == m
    ensures forall a :: 0 <= a < m ==> xs[a] == Increment(kind, P, t, I, a, reach, cut)
  {
    seq(m, a requires 0 <= a < m => Increment(kind, P, t, I, a, reach, cut))
  }

  ghost function IncrementsAmong(kind: Kind, P: Pass, t: Tree, I: string, reach: Reach, cuts: seq<Option<Cut>>,
      m: nat): (xs: seq<real>)
    requires !t.Terminal? && |cuts| <= |t.children|
    ensures |xs| == m
    ensures forall a :: 0 <= a < m ==> xs[a] == IncrementAmong(kind, P, t, I, a, reach, cuts)
  {
    seq(m, a requires 0 <= a < m => IncrementAmong(kind, P, t, I, a, reach, cuts))
  }

  ghost predicate PlaysDistribution(P: Pass, I: string) {
    I in P.sets && I in P.sigma && |P.sigma[I]| == P.sets[I].arity && Distribution(P.sigma[I])
  }

  ghost predicate PlaysDistributions(P: Pass) {
    forall I :: I in P.sets ==> PlaysDistribution(P, I)
  }

  lemma DotAdds(ws: seq<real>, xs: seq<real>, ys: seq<real>, zs: seq<real>, n: nat)
    requires n <= |ws| && n <= |xs| && n <= |ys| && n <= |zs|
    requires forall i :: 0 <= i < n ==> zs[i] == xs[i] + ys[i]
    ensures Dot(ws, zs, n) == Dot(ws, xs, n) + Dot(ws, ys, n)
  {
    DotLinear(ws, xs, ys, zs, 1.0, n);
  }

  /** The strategy in force is orthogonal to the regrets a pass adds. */
  lemma {:induction false} IncrementsBalance(P: Pass, t: Tree, I: string, reach: Reach, cut: Cut)
    requires Consistent(t, P.sets) && PlaysDistribution(P, I) && Legal(P, t, cut)
    ensures Dot(P.sigma[I], Increments(Regret, P, t, I, reach, cut, P.sets[I].arity), P.sets[I].arity) == 0.0
    decreases t, 1, 0
  {
    var m := P.sets[I].arity;
    var row, xs := P.sigma[I], Increments(Regret, P, t, I, reach, cut, m);
    if t.Terminal? {
      DotZeros(row, xs, m);
    } else {
      IncrementsBalanceAmong(P, t, I, reach, cut.kept);
      var hs := HereRow(P, t, I, reach, cut.kept, m);
      HereBalances(P, t, I, reach, cut.kept);
      DotAdds(row, IncrementsAmong(Regret, P, t, I, reach, cut.kept, m), hs, xs, m);
    }
  }

  lemma {:induction false} IncrementsBalanceAmong(P: Pass, t: Tree, I: string, reach: Reach, cuts: seq<Option<Cut>>)
    requires Consistent(t, P.sets) && PlaysDistribution(P, I) && !t.Terminal? && |cuts| <= |t.children|
    requires LegalAmong(P, t, cuts)
    ensures Dot(P.sigma[I], IncrementsAmong(Regret, P, t, I, reach, cuts, P.sets[I].arity), P.sets[I].arity) == 0.0
    decreases t, 0, |cuts|
  {
    var m := P.sets[I].arity;
    var row, xs := P.sigma[I], IncrementsAmong(Regret, P, t, I, reach, cuts, m);
    if cuts == [] {
      DotZeros(row, xs, m);
    } else {
      var n := |cuts| - 1;
      var r, others := ChildReach(P, t, reach, n), IncrementsAmong(Regret, P, t, I, reach, cuts[..n], m);
      IncrementsBalanceAmong(P, t, I, reach, cuts[..n]);
      if cuts[n].Some? {
        IncrementsBalance(P, t.children[n], I, r, cuts[n].value);
        DotAdds(row, others, Increments(Regret, P, t.children[n], I, r, cuts[n].value, m), xs, m);
      } else {
        assert xs == others;
      }
    }
  }

  ghost function HereRow(P: Pass, t: Tree, I: string, reach: Reach, cuts: seq<Option<Cut>>, m: nat): (xs: seq<real>)
    requires !t.Terminal? && |cuts| <= |t.children|
    ensures |xs| == m
    ensures forall a :: 0 <= a < m ==> xs[a] == Here(Regret, P, t, I, a, reach, cuts)
  {
    seq(m, a requires 0 <= a < m => Here(Regret, P, t, I, a, reach, cuts))
  }

  lemma HereBalances(P: Pass, t: Tree, I: string, reach: Reach, cuts: seq<Option<Cut>>)
    requires Consistent(t, P.sets) && PlaysDistribution(P, I) && !t.Terminal? && |cuts| == |t.children|
    requires LegalAmong(P, t, cuts)
    ensures Dot(P.sigma[I], HereRow(P, t, I, reach, cuts, P.sets[I].arity), P.sets[I].arity) == 0.0
  {
    var m := P.sets[I].arity;
    var row, hs := P.sigma[I], HereRow(P, t, I, reach, cuts, m);
    if t.Decision? && t.player == P.tr && t.infoset == I {
      var full := seq(m, a requires 0 <= a < m => OwnIncrement(Regret, P, t, a, reach));
      OwnBalances(P, t, reach, full);
      HereIsOwn(P, t, reach, cuts, hs, full);
      DotAgree(row, hs, row, full, m);
    } else {
      DotZeros(row, hs, m);
    }
  }

  lemma OwnBalances(P: Pass, t: Tree, reach: Reach, full: seq<real>)
    requires t.Decision? && t.player == P.tr && Consistent(t, P.sets) && PlaysDistribution(P, t.infoset)
    requires |full| == |t.children| && forall a :: 0 <= a < |full| ==> full[a] == OwnIncrement(Regret, P, t, a, reach)
    ensures Dot(P.sigma[t.infoset], full, |full|) == 0.0
  {
    hide Utility, Distribution, Dot, Times;
    NodeSummary(P, t);
    var us := Utilities(t.children, P.tr, P.sigma, P.sigma);
    var w := Times(RegretWeight(P.cfg, P.iter), reach.Counterfactual(t.player));
    AdvantagesCancel(P.sigma[t.infoset], us, full, |full|, w, Value(P, t));
  }

  /** A pruned action adds nothing, and had weight zero. */
  lemma HereIsOwn(P: Pass, t: Tree, reach: Reach, cuts: seq<Option<Cut>>, hs: seq<real>, full: seq<real>)
    requires t.Decision? && t.player == P.tr && Consistent(t, P.sets) && PlaysDistribution(P, t.infoset)
    requires |cuts| == |t.children| && LegalAmong(P, t, cuts)
    requires hs == HereRow(P, t, t.infoset, reach, cuts, |t.children|)
    requires |full| == |t.children| && forall a :: 0 <= a < |full| ==> full[a] == OwnIncrement(Regret, P, t, a, reach)
    ensures forall a :: 0 <= a < |full| ==> P.sigma[t.infoset][a] * hs[a] == P.sigma[t.infoset][a] * full[a]
  {
    hide OwnIncrement, Distribution, Legal;
    forall a: nat | a < |full| ensures P.sigma[t.infoset][a] * hs[a] == P.sigma[t.infoset][a] * full[a] {
      if cuts[a].None? {
        assert P.sigma[t.infoset][a] == 0.0;
      }
    }
  }

  lemma AdvantagesCancel(row: seq<real>, us: seq<real>, hs: seq<real>, m: nat, w: real, u: real)
    requires m == |row| == |us| == |hs| && Distribution(row) && u == Dot(row, us, m)
    requires forall a :: 0 <= a < m ==> hs[a] == Times(w, us[a] - u)
    ensures Dot(row, hs, m) == 0.0
  {
    var neg, adv := seq(m, _ => -u), seq(m, a requires 0 <= a < m => us[a] - u);
    DotConstant(row, neg, m, -u);
    DotAdds(row, us, neg, adv, m);
    DotZeros(row, Zeros(m), m);
    DotLinear(row, Zeros(m), adv, hs, w, m);
    assert Times(w, 0.0) == 0.0;
  }

  lemma {:induction false} DotConstant(ws: seq<real>, xs: seq<real>, n: nat, c: real)
    requires n <= |ws| && n <= |xs| && forall i :: 0 <= i < n ==> xs[i] == c
    ensures Dot(ws, xs, n) == Times(c, Sum(ws, n))
  {
    if n > 0 {
      DotConstant(ws, xs, n - 1, c);
    }
  }

  // ---------------------------------------------------------------- the regret potential

  function Square(x: real): real {
    Times(x, x)
  }

  function Squares(xs: seq<real>, n: nat): real
    requires n <= |xs|
  {
    if n == 0 then 0.0 else Squares(xs, n - 1) + Square(xs[n - 1])
  }

  /** Sum of squared positive regrets. */
  function Potential(rs: seq<real>): real {
    Squares(Positives(rs), |rs|)
  }

  lemma PositiveSquareBound(r: real, x: real, k: real, w: real)
    requires Positive(r) == Times(k, w)
    ensures Square(Positive(r + x)) <= Square(Positive(r)) + 2.0 * Times(k, Times(w, x)) + Square(x)
  {
    var q := Positive(r);
    assert Times(k, Times(w, x)) == q * x;
    assert (q + x) * (q + x) == q * q + 2.0 * (q * x) + x * x;
    if r + x > 0.0 {
      assert 0.0 <= r + x <= q + x;
      assert (r + x) * (r + x) <= (q + x) * (q + x);
    } else {
      assert 0.0 <= (q + x) * (q + x);
    }
  }

  lemma {:induction false} PotentialPrefix(rs: seq<real>, xs: seq<real>, after: seq<real>, n: nat)
    requires |rs| == |xs| == |after| && n <= |rs|
    requires forall i :: 0 <= i < |rs| ==> after[i] == rs[i] + xs[i]
    ensures Squares(Positives(after), n)
         <= Squares(Positives(rs), n) + 2.0 * Times(Sum(Positives(rs), |rs|), Dot(Matched(rs), xs, n)) + Squares(xs, n)
  {
    hide Times, Matched, Square;
    var k := Sum(Positives(rs), |rs|);
    if n == 0 {
      TimesZero(k);
    } else {
      var i := n - 1;
      PotentialPrefix(rs, xs, after, i);
      MatchedIsProportional(rs, i);
      PositiveSquareBound(rs[i], xs[i], k, Matched(rs)[i]);
      TimesAlgebra(k, 0.0, Dot(Matched(rs), xs, i), Times(Matched(rs)[i], xs[i]));
    }
  }

  /** Blackwell's condition: increments orthogonal to the matched row add at most their own squares. */
  lemma PotentialStep(rs: seq<real>, xs: seq<real>, after: seq<real>)
    requires |rs| == |xs| == |after|
    requires forall i :: 0 <= i < |rs| ==> after[i] == rs[i] + xs[i]
    requires Dot(Matched(rs), xs, |rs|) == 0.0
    ensures Potential(after) <= Potential(rs) + Squares(xs, |xs|)
  {
    PotentialPrefix(rs, xs, after, |rs|);
    TimesZero(Sum(Positives(rs), |rs|));
  }

  // ---------------------------------------------------------------- compute accounting

  /** Actions of the traverser's that were looked at, and those of them that were skipped. */
  datatype SolveStats = SolveStats(actionVisits: nat, prunedVisits: nat) {
    function Plus(other: SolveStats): SolveStats {
      SolveStats(actionVisits + other.actionVisits, prunedVisits + other.prunedVisits)
    }
  }

  function Looked(tr: nat, t: Tree): SolveStats {
    SolveStats(if t.Decision? && t.player == tr then 1 else 0, 0)
  }

  /** What a pass that evaluated `cut` counts. */
  function Visits(tr: nat, t: Tree, cut: Cut): SolveStats
    decreases t, 1, 0
  {
    if t.Terminal? || |cut.kept| > |t.children| then SolveStats(0, 0) else VisitsAmong(tr, t, cut.kept)
  }

  function VisitsAmong(tr: nat, t: Tree, cuts: seq<Option<Cut>>): SolveStats
    requires !t.Terminal? && |cuts| <= |t.children|
    decreases t, 0, |cuts|
  {
    if cuts == [] then SolveStats(0, 0) else
    var n := |cuts| - 1;
    VisitsAmong(tr, t, cuts[..n]).Plus(Looked(tr, t)).Plus(
      if cuts[n].None? then SolveStats(0, 1) else Visits(tr, t.children[n], cuts[n].value))
  }

  lemma NothingVisited(tr: nat, t: Tree)
    ensures !t.Terminal? ==> VisitsAmong(tr, t, []) == SolveStats(0, 0)
    ensures forall s: SolveStats :: s.Plus(SolveStats(0, 0)) == s
  {
  }

  lemma VisitsOf(tr: nat, t: Tree, cuts: seq<Option<Cut>>)
    requires !t.Terminal? && |cuts| == |t.children|
    ensures Visits(tr, t, Cut(cuts)) == VisitsAmong(tr, t, cuts)
  {
  }

  lemma VisitsSkip(tr: nat, t: Tree, cuts: seq<Option<Cut>>)
    requires !t.Terminal? && |cuts| < |t.children|
    ensures VisitsAmong(tr, t, cuts + [None]) == VisitsAmong(tr, t, cuts).Plus(Looked(tr, t)).Plus(SolveStats(0, 1))
  {
    assert (cuts + [None])[..|cuts|] == cuts;
  }

  // ---------------------------------------------------------------- the table as seen in one iteration

  type Table = map<string, Node>

  ghost predicate Fits(table: Table, sets: map<string, Info>) {
    forall I :: I in table ==> I in sets && Sized(table[I], sets[I].arity)
  }

  /** The table with every information set prepared for iteration `t`, visited or not. */
  ghost function View(table: Table, sets: map<string, Info>, cfg: Config, t: nat): (view: Table)
    requires Fits(table, sets)
    ensures view.Keys == sets.Keys
    ensures forall I :: I in sets ==> Sized(view[I], sets[I].arity) && view[I].curIter == t
  {
    map I | I in sets :: Prepared(if I in table then table[I] else NewNode(sets[I].arity), cfg, t)
  }

  /** The one strategy per information set that iteration uses. */
  ghost function Rows(view: Table): Strategy {
    map I | I in view :: view[I].curStrategy
  }

  /**
   * How one entry of an accumulator grows; flooring may lift regrets above the sum of what was added, but not above
   * the sum of the gains.
   */
  predicate Adds(cfg: Config, kind: Kind, before: real, inc: real, after: real) {
    if kind.Regret? && cfg.variant.CfrPlus? then after >= before + inc && (before >= 0.0 ==> after >= 0.0)
    else if kind.Gain? && cfg.variant.CfrPlus? then before >= 0.0 ==> 0.0 <= after <= before + inc
    else if kind.Gain? then after <= before + inc
    else after == before + inc
  }

  /** A floored regret is the sum of what was added, unless it was lifted; then it is no more than what was gained. */
  ghost predicate Lifts(cfg: Config, before: real, inc: real, gain: real, after: real) {
    cfg.variant.CfrPlus? ==>
      0.0 <= gain && inc <= gain && (before >= 0.0 ==> after >= 0.0 && (after == before + inc || after <= gain))
  }

  ghost predicate SameRow(P: Pass, I: string, b: Node, a: Node)
    requires I in P.sets
  {
    && Sized(b, P.sets[I].arity) && Sized(a, P.sets[I].arity)
    && a.curStrategy == b.curStrategy && a.lastInstant == b.lastInstant && a.curIter == b.curIter == P.iter
    && (P.sets[I].owner != P.tr ==> a == b)
  }

  /** Every accumulator entry takes its increment; the opponent's node stays as it was. */
  ghost predicate NodeStep(P: Pass, I: string, b: Node, a: Node, t: Tree, reach: Reach, cut: Cut)
    requires I in P.sets
  {
    && SameRow(P, I, b, a)
    && (forall kind, x :: 0 <= x < P.sets[I].arity ==>
          Adds(P.cfg, kind, Total(kind, b)[x], Increment(kind, P, t, I, x, reach, cut), Total(kind, a)[x]))
    && (forall x :: 0 <= x < P.sets[I].arity ==>
          Lifts(P.cfg, b.regretSum[x], Increment(Regret, P, t, I, x, reach, cut),
                Increment(Gain, P, t, I, x, reach, cut), a.regretSum[x]))
  }

  ghost predicate NodeStepAmong(P: Pass, I: string, b: Node, a: Node, t: Tree, reach: Reach, cuts: seq<Option<Cut>>)
    requires I in P.sets && !t.Terminal? && |cuts| <= |t.children|
  {
    && SameRow(P, I, b, a)
    && (forall kind, x :: 0 <= x < P.sets[I].arity ==>
          Adds(P.cfg, kind, Total(kind, b)[x], IncrementAmong(kind, P, t, I, x, reach, cuts), Total(kind, a)[x]))
    && (forall x :: 0 <= x < P.sets[I].arity ==>
          Lifts(P.cfg, b.regretSum[x], IncrementAmong(Regret, P, t, I, x, reach, cuts),
                IncrementAmong(Gain, P, t, I, x, reach, cuts), a.regretSum[x]))
  }

  ghost predicate Step(P: Pass, before: Table, after: Table, t: Tree, reach: Reach, cut: Cut) {
    && before.Keys == after.Keys == P.sets.Keys
    && forall I :: I in P.sets ==> NodeStep(P, I, before[I], after[I], t, reach, cut)
  }

  ghost predicate StepAmong(P: Pass, before: Table, after: Table, t: Tree, reach: Reach, cuts: seq<Option<Cut>>)
    requires !t.Terminal? && |cuts| <= |t.children|
  {
    && before.Keys == after.Keys == P.sets.Keys
    && forall I :: I in P.sets ==> NodeStepAmong(P, I, before[I], after[I], t, reach, cuts)
  }

  /** Preparing a node early changes nothing about the iteration's view. */
  lemma PreparingKeepsView(table: Table, sets: map<string, Info>, cfg: Config, t: nat, I: string)
    requires Fits(table, sets) && I in sets
    ensures var node := Prepared(if I in table then table[I] else NewNode(sets[I].arity), cfg, t);
            Fits(table[I := node], sets) && View(table[I := node], sets, cfg, t) == View(table, sets, cfg, t)
  {
    var was := if I in table then table[I] else NewNode(sets[I].arity);
    StaysPrepared(Prepared(was, cfg, t), cfg, t);
    hide Prepared;
    var node := Prepared(was, cfg, t);
    forall J | J in sets
      ensures View(table[I := node], sets, cfg, t)[J] == View(table, sets, cfg, t)[J]
    {
      assert J == I ==> View(table[I := node], sets, cfg, t)[J] == Prepared(node, cfg, t);
    }
  }

  lemma StaysPrepared(node: Node, cfg: Config, t: nat)
    requires Sized(node, |node.regretSum|) && node.curIter == t
    ensures Prepared(node, cfg, t) == node
  {
  }

  ghost function ViewOf(P: Pass, table: Table): Table
    requires Fits(table, P.sets)
  {
    View(table, P.sets, P.cfg, P.iter)
  }

  /** The pass's strategies are the ones the table holds for this iteration. */
  ghost predicate InPass(P: Pass, table: Table) {
    Fits(table, P.sets) && P.sigma == Rows(ViewOf(P, table))
  }

  predicate Visited(table: Table, I: string, t: nat) {
    I in table && table[I].curIter == t
  }

  /** Nodes are only added or prepared: what iteration `t` has not visited is still as it was. */
  ghost predicate Evolves(was: Table, now: Table, t: nat) {
    && (forall I :: Visited(was, I, t) ==> Visited(now, I, t))
    && (forall I :: I in was ==> I in now)
    && (forall I :: I in now ==> Visited(now, I, t) || (I in was && now[I] == was[I]))
  }

  /** The information sets a pass comes to. */
  ghost function Reached(t: Tree, cut: Cut): set<string>
    decreases t, 1, 0
  {
    if t.Terminal? || |cut.kept| > |t.children| then {} else Entered(t) + ReachedAmong(t, cut.kept)
  }

  ghost function Entered(t: Tree): set<string> {
    if t.Decision? then {t.infoset} else {}
  }

  ghost function ReachedAmong(t: Tree, cuts: seq<Option<Cut>>): set<string>
    requires !t.Terminal? && |cuts| <= |t.children|
    decreases t, 0, |cuts|
  {
    if cuts == [] then {} else
    var n := |cuts| - 1;
    ReachedAmong(t, cuts[..n]) + if cuts[n].Some? then Reached(t.children[n], cuts[n].value) else {}
  }

  /** The nodes prepared for iteration `t` in between are those of `sets`. */
  ghost predicate Touches(was: Table, now: Table, sets: set<string>, t: nat) {
    forall I :: Visited(now, I, t) <==> Visited(was, I, t) || I in sets
  }

  /** From `was` to `now`: the strategies stand, visited nodes stay visited, accumulators take the step. */
  ghost predicate After(P: Pass, was: Table, now: Table, t: Tree, reach: Reach, cut: Cut) {
    && InPass(P, was) && InPass(P, now)
    && Evolves(was, now, P.iter) && Touches(was, now, Reached(t, cut), P.iter)
    && Legal(P, t, cut)
    && Step(P, ViewOf(P, was), ViewOf(P, now), t, reach, cut)
  }

  ghost predicate AfterAmong(P: Pass, was: Table, now: Table, t: Tree, reach: Reach, cuts: seq<Option<Cut>>)
    requires !t.Terminal? && |cuts| <= |t.children|
  {
    && InPass(P, was) && InPass(P, now)
    && Evolves(was, now, P.iter) && Touches(was, now, Entered(t) + ReachedAmong(t, cuts), P.iter)
    && LegalAmong(P, t, cuts)
    && StepAmong(P, ViewOf(P, was), ViewOf(P, now), t, reach, cuts)
  }

  lemma PassStarts(P: Pass, was: Table, now: Table, t: Tree, reach: Reach)
    requires InPass(P, was) && Fits(now, P.sets) && ViewOf(P, now) == ViewOf(P, was)
    requires Evolves(was, now, P.iter) && Touches(was, now, Entered(t), P.iter)
    ensures t.Terminal? ==> After(P, was, now, t, reach, Cut([]))
    ensures !t.Terminal? ==> AfterAmong(P, was, now, t, reach, [])
  {
    hide View, Rows;
  }

  lemma PassBegins(P: Pass, table: Table, t: Tree, reach: Reach)
    requires InPass(P, table)
    ensures t.Terminal? ==> After(P, table, table, t, reach, Cut([]))
    ensures t.Chance? ==> AfterAmong(P, table, table, t, reach, [])
  {
    if !t.Decision? {
      PassStarts(P, table, table, t, reach);
    }
  }

  lemma PassSkips(P: Pass, was: Table, now: Table, t: Tree, reach: Reach, cuts: seq<Option<Cut>>)
    requires !t.Terminal? && |cuts| < |t.children| && Prunable(P, t, |cuts|)
    requires AfterAmong(P, was, now, t, reach, cuts)
    ensures AfterAmong(P, was, now, t, reach, cuts + [None])
  {
    hide View, Rows, Legal, StepAmong, Step, Evolves, Touches, Prunable, ReachedAmong;
    StepSkips(P, ViewOf(P, was), ViewOf(P, now), t, reach, cuts);
    ReachedSkips(t, cuts);
  }

  lemma ReachedSkips(t: Tree, cuts: seq<Option<Cut>>)
    requires !t.Terminal? && |cuts| < |t.children|
    ensures ReachedAmong(t, cuts + [None]) == ReachedAmong(t, cuts)
  {
    assert (cuts + [None])[..|cuts|] == cuts;
  }

  lemma StepSkips(P: Pass, before: Table, after: Table, t: Tree, reach: Reach, cuts: seq<Option<Cut>>)
    requires !t.Terminal? && |cuts| < |t.children| && StepAmong(P, before, after, t, reach, cuts)
    ensures StepAmong(P, before, after, t, reach, cuts + [None])
  {
    hide NodeStepAmong;
    forall I | I in P.sets ensures NodeStepAmong(P, I, before[I], after[I], t, reach, cuts + [None]) {
      NodeSkips(P, I, before[I], after[I], t, reach, cuts);
    }
  }

  lemma NodeSkips(P: Pass, I: string, b: Node, a: Node, t: Tree, reach: Reach, cuts: seq<Option<Cut>>)
    requires I in P.sets && !t.Terminal? && |cuts| < |t.children| && NodeStepAmong(P, I, b, a, t, reach, cuts)
    ensures NodeStepAmong(P, I, b, a, t, reach, cuts + [None])
  {
    hide Adds, Lifts;
    assert (cuts + [None])[..|cuts|] == cuts;
    forall kind, x: nat
      ensures IncrementAmong(kind, P, t, I, x, reach, cuts + [None]) == IncrementAmong(kind, P, t, I, x, reach, cuts) {
    }
  }

  lemma PassContinues(P: Pass, was: Table, mid: Table, now: Table, t: Tree, reach: Reach, cuts: seq<Option<Cut>>,
      cut: Cut)
    requires !t.Terminal? && |cuts| < |t.children|
    requires AfterAmong(P, was, mid, t, reach, cuts)
    requires After(P, mid, now, t.children[|cuts|], ChildReach(P, t, reach, |cuts|), cut)
    ensures AfterAmong(P, was, now, t, reach, cuts + [Some(cut)])
  {
    hide Step, StepAmong, ChildReach, View, Rows, Touches, ReachedAmong, Entered, Reached, Legal;
    TouchesMore(was, mid, now, t, cuts, cut, P.iter);
    StepTaken(P, ViewOf(P, was), ViewOf(P, mid), ViewOf(P, now), t, reach, cuts, cut);
  }

  lemma TouchesMore(was: Table, mid: Table, now: Table, t: Tree, cuts: seq<Option<Cut>>, cut: Cut, iter: nat)
    requires !t.Terminal? && |cuts| < |t.children|
    requires Touches(was, mid, Entered(t) + ReachedAmong(t, cuts), iter)
    requires Touches(mid, now, Reached(t.children[|cuts|], cut), iter)
    ensures Touches(was, now, Entered(t) + ReachedAmong(t, cuts + [Some(cut)]), iter)
  {
    hide Visited, Reached;
    assert (cuts + [Some(cut)])[..|cuts|] == cuts;
  }

  lemma PassIsUnderWay(P: Pass, was: Table, now: Table, t: Tree, reach: Reach, cuts: seq<Option<Cut>>)
    requires !t.Terminal? && |cuts| <= |t.children| && AfterAmong(P, was, now, t, reach, cuts)
    ensures InPass(P, now)
  {
  }

  lemma PassKeepsVisited(P: Pass, was: Table, now: Table, t: Tree, reach: Reach, cut: Cut)
    requires After(P, was, now, t, reach, cut)
    ensures forall I :: Visited(was, I, P.iter) ==> Visited(now, I, P.iter)
  {
  }

  lemma VisitsGrow(base: SolveStats, tr: nat, t: Tree, cuts: seq<Option<Cut>>, cut: Cut)
    requires !t.Terminal? && |cuts| < |t.children|
    ensures base.Plus(VisitsAmong(tr, t, cuts)).Plus(Looked(tr, t)).Plus(Visits(tr, t.children[|cuts|], cut))
         == base.Plus(VisitsAmong(tr, t, cuts + [Some(cut)]))
  {
    assert (cuts + [Some(cut)])[..|cuts|] == cuts;
  }

  lemma StepTaken(P: Pass, before: Table, mid: Table, after: Table, t: Tree, reach: Reach, cuts: seq<Option<Cut>>,
      cut: Cut)
    requires !t.Terminal? && |cuts| < |t.children|
    requires StepAmong(P, before, mid, t, reach, cuts)
    requires Step(P, mid, after, t.children[|cuts|], ChildReach(P, t, reach, |cuts|), cut)
    ensures StepAmong(P, before, after, t, reach, cuts + [Some(cut)])
  {
    hide NodeStep, NodeStepAmong, ChildReach;
    forall I | I in P.sets ensures NodeStepAmong(P, I, before[I], after[I], t, reach, cuts + [Some(cut)]) {
      NodeStepTaken(P, I, before[I], mid[I], after[I], t, reach, cuts, cut);
    }
  }

  lemma NodeStepTaken(P: Pass, I: string, b: Node, m: Node, a: Node, t: Tree, reach: Reach, cuts: seq<Option<Cut>>,
      cut: Cut)
    requires I in P.sets && !t.Terminal? && |cuts| < |t.children|
    requires NodeStepAmong(P, I, b, m, t, reach, cuts)
    requires NodeStep(P, I, m, a, t.children[|cuts|], ChildReach(P, t, reach, |cuts|), cut)
    ensures NodeStepAmong(P, I, b, a, t, reach, cuts + [Some(cut)])
  {
    hide Increment, ChildReach;
    assert (cuts + [Some(cut)])[..|cuts|] == cuts;
  }

  lemma PassLeaves(P: Pass, was: Table, now: Table, t: Tree, reach: Reach, cuts: seq<Option<Cut>>)
    requires !t.Terminal? && !(t.Decision? && t.player == P.tr) && |cuts| == |t.children|
    requires AfterAmong(P, was, now, t, reach, cuts)
    ensures After(P, was, now, t, reach, Cut(cuts))
  {
    hide Step, StepAmong, View, Rows;
    StepPassesThrough(P, ViewOf(P, was), ViewOf(P, now), t, reach, cuts);
  }

  lemma StepPassesThrough(P: Pass, before: Table, after: Table, t: Tree, reach: Reach, cuts: seq<Option<Cut>>)
    requires !t.Terminal? && !(t.Decision? && t.player == P.tr) && |cuts| == |t.children|
    requires StepAmong(P, before, after, t, reach, cuts)
    ensures Step(P, before, after, t, reach, Cut(cuts))
  {
    hide IncrementAmong;
  }

  function Floored(cfg: Config, r: real): real {
    if cfg.variant.CfrPlus? && r < 0.0 then 0.0 else r
  }

  /** The update a traverser node receives once its actions have been evaluated. */
  ghost predicate Updates(P: Pass, t: Tree, reach: Reach, b: Node, a: Node, cuts: seq<Option<Cut>>)
    requires t.Decision? && |cuts| == |t.children|
  {
    var m := |t.children|;
    && Sized(b, m) && Sized(a, m)
    && a.curStrategy == b.curStrategy && a.curIter == b.curIter && a.lastInstant == b.lastInstant
    && forall i :: 0 <= i < m ==>
         if cuts[i].None? then
           a.regretSum[i] == b.regretSum[i] && a.strategySum[i] == b.strategySum[i]
               && a.thisInstant[i] == b.thisInstant[i]
         else
           && a.regretSum[i] == Floored(P.cfg, b.regretSum[i] + OwnIncrement(Regret, P, t, i, reach))
           && a.strategySum[i] == b.strategySum[i] + OwnIncrement(Average, P, t, i, reach)
           && a.thisInstant[i] == b.thisInstant[i] + OwnIncrement(Instant, P, t, i, reach)
  }

  lemma PassUpdates(P: Pass, was: Table, mid: Table, node: Node, cuts: seq<Option<Cut>>, t: Tree, reach: Reach)
    requires t.Decision? && t.player == P.tr && Consistent(t, P.sets) && |cuts| == |t.children|
    requires AfterAmong(P, was, mid, t, reach, cuts) && Visited(mid, t.infoset, P.iter)
    requires Updates(P, t, reach, mid[t.infoset], node, cuts)
    ensures After(P, was, mid[t.infoset := node], t, reach, Cut(cuts))
  {
    hide Updates, View, NodeWeights, Step, StepAmong, Rows, LegalAmong, StrategyFor, ViewOf, Matched;
    UpdateStaysInPass(P, mid, node, cuts, t, reach);
    EnteredNode(P, mid, t);
    StepUpdates(P, ViewOf(P, was), ViewOf(P, mid), node, cuts, t, reach);
  }

  lemma UpdateStaysInPass(P: Pass, mid: Table, node: Node, cuts: seq<Option<Cut>>, t: Tree, reach: Reach)
    requires t.Decision? && Consistent(t, P.sets) && |cuts| == |t.children|
    requires InPass(P, mid) && Visited(mid, t.infoset, P.iter)
    requires Updates(P, t, reach, mid[t.infoset], node, cuts)
    ensures InPass(P, mid[t.infoset := node]) && ViewOf(P, mid[t.infoset := node]) == ViewOf(P, mid)[t.infoset := node]
    ensures Visited(mid[t.infoset := node], t.infoset, P.iter)
  {
    hide Updates, View, NodeWeights, Rows, StrategyFor;
    EnteredNode(P, mid, t);
    UpdatesKeepRow(P, t, reach, mid[t.infoset], node, cuts);
    ViewUpdated(P, mid, t.infoset, node);
    SameRows(ViewOf(P, mid), t.infoset, node);
  }

  lemma UpdatesKeepRow(P: Pass, t: Tree, reach: Reach, b: Node, a: Node, cuts: seq<Option<Cut>>)
    requires t.Decision? && |cuts| == |t.children| && Updates(P, t, reach, b, a, cuts)
    ensures Sized(a, |t.children|) && a.curStrategy == b.curStrategy && a.curIter == b.curIter
  {
  }

  lemma SameRows(view: Table, I: string, node: Node)
    requires I in view && node.curStrategy == view[I].curStrategy
    ensures Rows(view[I := node]) == Rows(view)
  {
  }

  lemma StepUpdates(P: Pass, before: Table, mid: Table, node: Node, cuts: seq<Option<Cut>>, t: Tree, reach: Reach)
    requires t.Decision? && t.player == P.tr && Consistent(t, P.sets) && |cuts| == |t.children|
    requires StepAmong(P, before, mid, t, reach, cuts)
    requires Updates(P, t, reach, mid[t.infoset], node, cuts)
    ensures Step(P, before, mid[t.infoset := node], t, reach, Cut(cuts))
  {
    hide IncrementAmong, OwnIncrement, NodeStep, NodeStepAmong, Updates;
    var after := mid[t.infoset := node];
    forall I | I in P.sets
      ensures NodeStep(P, I, before[I], after[I], t, reach, Cut(cuts))
    {
      if I == t.infoset {
        OwnStep(P, before[I], mid[I], node, cuts, t, reach);
      } else {
        OtherStep(P, I, before[I], mid[I], cuts, t, reach);
      }
    }
  }

  lemma GainsAre(P: Pass, t: Tree, reach: Reach)
    requires t.Decision?
    ensures forall x :: 0 <= x < |t.children| ==>
            OwnIncrement(Gain, P, t, x, reach) == Positive(OwnIncrement(Regret, P, t, x, reach))
  {
    hide OwnRegret;
  }

  lemma OwnStep(P: Pass, b: Node, m: Node, a: Node, cuts: seq<Option<Cut>>, t: Tree, reach: Reach)
    requires t.Decision? && t.player == P.tr && Consistent(t, P.sets) && |cuts| == |t.children|
    requires NodeStepAmong(P, t.infoset, b, m, t, reach, cuts) && Updates(P, t, reach, m, a, cuts)
    ensures NodeStep(P, t.infoset, b, a, t, reach, Cut(cuts))
  {
    GainsAre(P, t, reach);
    hide IncrementAmong, OwnIncrement;
  }

  lemma OtherStep(P: Pass, I: string, b: Node, m: Node, cuts: seq<Option<Cut>>, t: Tree, reach: Reach)
    requires t.Decision? && t.player == P.tr && |cuts| == |t.children| && I in P.sets && I != t.infoset
    requires NodeStepAmong(P, I, b, m, t, reach, cuts)
    ensures NodeStep(P, I, b, m, t, reach, Cut(cuts))
  {
    hide IncrementAmong, OwnIncrement;
  }

  /** What the traversal reads at a decision node is what the iteration's view holds. */
  lemma EnteredNode(P: Pass, table: Table, t: Tree)
    requires t.Decision? && Consistent(t, P.sets) && InPass(P, table) && Visited(table, t.infoset, P.iter)
    ensures t.infoset in ViewOf(P, table) && ViewOf(P, table)[t.infoset] == table[t.infoset]
    ensures Sized(table[t.infoset], |t.children|)
    ensures NodeWeights(t, P.tr, P.sigma, P.sigma) == table[t.infoset].curStrategy
            == StrategyFor(P.sigma, t.infoset, |t.children|)
  {
  }

  lemma ViewUpdated(P: Pass, table: Table, I: string, node: Node)
    requires Fits(table, P.sets) && I in P.sets && Sized(node, P.sets[I].arity) && node.curIter == P.iter
    ensures Fits(table[I := node], P.sets)
    ensures ViewOf(P, table[I := node]) == ViewOf(P, table)[I := node]
  {
    StaysPrepared(node, P.cfg, P.iter);
    hide Prepared;
    forall J | J in P.sets
      ensures ViewOf(P, table[I := node])[J] == ViewOf(P, table)[I := node][J]
    {
      assert J == I ==> ViewOf(P, table[I := node])[J] == Prepared(node, P.cfg, P.iter);
    }
  }

  /** An action is skipped exactly when it has probability zero and regret below the threshold on entering the node. */
  ghost predicate PrunedExactly(P: Pass, view: Table, t: Tree, cuts: seq<Option<Cut>>) {
    && t.Decision? && |cuts| <= |t.children|
    && t.infoset in view && Sized(view[t.infoset], |t.children|)
    && forall i :: 0 <= i < |cuts| ==>
         var threshold := P.cfg.prune(P.iter);
         cuts[i].None? <==>
           && threshold.Some? && view[t.infoset].curStrategy[i] == 0.0
           && view[t.infoset].regretSum[i] < threshold.value
  }

  predicate Shows(view: Table, t: Tree, sigma: seq<real>, snapshot: seq<real>)
    requires t.Decision?
  {
    && t.infoset in view && Sized(view[t.infoset], |t.children|)
    && sigma == view[t.infoset].curStrategy && snapshot == view[t.infoset].regretSum
  }

  lemma TraverserChildren(P: Pass, t: Tree, reach: Reach)
    requires t.Decision? && t.player == P.tr
    ensures forall i :: 0 <= i < |t.children| ==>
              ChildReach(P, t, reach, i) == reach.Scale(t.player, NodeWeights(t, P.tr, P.sigma, P.sigma)[i])
    ensures P.cfg.prune(P.iter).Some? ==>
              forall i :: 0 <= i < |t.children| && NodeWeights(t, P.tr, P.sigma, P.sigma)[i] == 0.0 ==>
                Prunable(P, t, i)
  {
  }

  lemma PrunedGrows(P: Pass, view: Table, t: Tree, cuts: seq<Option<Cut>>, entry: Option<Cut>)
    requires PrunedExactly(P, view, t, cuts) && |cuts| < |t.children|
    requires var threshold := P.cfg.prune(P.iter);
             entry.None? <==> (&& threshold.Some? && view[t.infoset].curStrategy[|cuts|] == 0.0
                               && view[t.infoset].regretSum[|cuts|] < threshold.value)
    ensures PrunedExactly(P, view, t, cuts + [entry])
  {
  }

  lemma NothingPruned(P: Pass, view: Table, t: Tree)
    requires t.Decision? && t.infoset in view && Sized(view[t.infoset], |t.children|)
    ensures PrunedExactly(P, view, t, [])
  {
  }

  lemma ZeroTimes(x: real)
    ensures Times(0.0, x) == 0.0
  {
  }

  lemma NodeSummary(P: Pass, t: Tree)
    requires Consistent(t, P.sets)
    ensures t.Terminal? ==> Value(P, t) == Payoff(t, P.tr)
    ensures !t.Terminal? ==>
              && (forall i :: 0 <= i < |t.children| ==> Consistent(t.children[i], P.sets))
              && Value(P, t) == Dot(NodeWeights(t, P.tr, P.sigma, P.sigma),
                    Utilities(t.children, P.tr, P.sigma, P.sigma), |t.children|)
    ensures t.Chance? ==> NodeWeights(t, P.tr, P.sigma, P.sigma) == NodeWeights(t, P.tr, map[], map[])
    ensures t.Decision? ==> t.infoset in P.sets && P.sets[t.infoset] == Info(t.player, |t.children|) && t.player < 2
  {
  }

  // ---------------------------------------------------------------- whole runs

  const FULL_REACH := Reach(1.0, 1.0, 1.0)

  /** One finished iteration: the strategies everyone used, and what each player's pass pruned. */
  datatype Round = Round(sigma: Strategy, cut0: Cut, cut1: Cut) {
    function CutOf(p: nat): Cut {
      if p == 0 then cut0 else cut1
    }
  }

  /** What iteration `t` adds at `I`; the average strategy is credited with the whole tree. */
  ghost function IterationIncrements(kind: Kind, root: Tree, sets: map<string, Info>, cfg: Config, t: nat, round: Round,
      I: string): (xs: seq<real>)
    requires I in sets
    ensures |xs| == sets[I].arity
  {
    var p := sets[I].owner;
    var cut := if kind.Average? then Whole(root) else round.CutOf(p);
    Increments(kind, Pass(cfg, t, p, sets, round.sigma), root, I, FULL_REACH, cut, sets[I].arity)
  }

  ghost function TotalOf(kind: Kind, table: Table, sets: map<string, Info>, I: string): (rs: seq<real>)
    requires I in sets && Fits(table, sets)
    ensures |rs| == sets[I].arity
  {
    if I in table then Total(kind, table[I]) else Zeros(sets[I].arity)
  }

  /** Iterations 1..n of `rounds` summed for one action. */
  ghost function Accumulated(kind: Kind, root: Tree, sets: map<string, Info>, cfg: Config, rounds: seq<Round>,
      I: string, a: nat): real
    requires I in sets && a < sets[I].arity
  {
    if rounds == [] then 0.0 else
    var n := |rounds|;
    Accumulated(kind, root, sets, cfg, rounds[..n - 1], I, a)
      + IterationIncrements(kind, root, sets, cfg, n, rounds[n - 1], I)[a]
  }

  /** One of the players' passes came to `I`. */
  ghost predicate Met(root: Tree, round: Round, I: string) {
    I in Reached(root, round.cut0) || I in Reached(root, round.cut1)
  }

  /** What is left, after iteration `n`, of the strategy sum `I` had before it. */
  ghost function Fade(root: Tree, cfg: Config, n: nat, round: Round, I: string): real {
    if cfg.variant.Dcfr? && n > 1 && Met(root, round, I) then cfg.variant.factors(n).strat else 1.0
  }

  /** The strategy increments of iterations 1..n, each as much as the later iterations have left of it. */
  ghost function Faded(root: Tree, sets: map<string, Info>, cfg: Config, rounds: seq<Round>, I: string, a: nat): real
    requires I in sets && a < sets[I].arity
  {
    if rounds == [] then 0.0 else
    var n := |rounds|;
    Times(Fade(root, cfg, n, rounds[n - 1], I), Faded(root, sets, cfg, rounds[..n - 1], I, a))
      + IterationIncrements(Average, root, sets, cfg, n, rounds[n - 1], I)[a]
  }

  /** The strategy sums are the faded sums of their increments. */
  ghost predicate KeepsAverage(root: Tree, sets: map<string, Info>, cfg: Config, table: Table, rounds: seq<Round>,
      I: string)
    requires I in sets && Fits(table, sets)
  {
    forall a :: 0 <= a < sets[I].arity ==>
      TotalOf(Average, table, sets, I)[a] == Faded(root, sets, cfg, rounds, I, a)
  }

  /** Floored regrets are at least what was added since any earlier iteration. */
  ghost predicate KeepsFloor(root: Tree, sets: map<string, Info>, cfg: Config, table: Table, rounds: seq<Round>,
      I: string)
    requires I in sets && Fits(table, sets)
  {
    forall a, m :: 0 <= a < sets[I].arity && 0 <= m <= |rounds| ==>
      TotalOf(Regret, table, sets, I)[a]
        >= Accumulated(Regret, root, sets, cfg, rounds, I, a) - Accumulated(Regret, root, sets, cfg, rounds[..m], I, a)
  }

  /** The squared per-iteration regret increments of `I`, summed over the run. */
  ghost function Budget(root: Tree, sets: map<string, Info>, cfg: Config, rounds: seq<Round>, I: string): real
    requires I in sets
  {
    if rounds == [] then 0.0 else
    var n := |rounds|;
    Budget(root, sets, cfg, rounds[..n - 1], I)
      + Squares(IterationIncrements(Regret, root, sets, cfg, n, rounds[n - 1], I), sets[I].arity)
  }

  /** Momentum off, no flooring, and discounts (if any) that only shrink. */
  ghost predicate Contracting(cfg: Config) {
    && cfg.momentum.None? && !cfg.variant.CfrPlus?
    && (cfg.variant.Dcfr? ==> forall t :: 0.0 <= cfg.variant.factors(t).pos <= 1.0 && cfg.variant.factors(t).neg >= 0.0)
  }

  /** Flooring alone: no momentum to keep the strategy from matching the regrets. */
  ghost predicate Flooring(cfg: Config) {
    cfg.momentum.None? && cfg.variant.CfrPlus?
  }

  /** The squared increments and the squared gains of `I`, summed over the run. */
  ghost function GainBudget(root: Tree, sets: map<string, Info>, cfg: Config, rounds: seq<Round>, I: string): real
    requires I in sets
  {
    if rounds == [] then 0.0 else
    var n := |rounds|;
    GainBudget(root, sets, cfg, rounds[..n - 1], I)
      + Squares(IterationIncrements(Regret, root, sets, cfg, n, rounds[n - 1], I), sets[I].arity)
      + Squares(IterationIncrements(Gain, root, sets, cfg, n, rounds[n - 1], I), sets[I].arity)
  }

  ghost predicate KeepsAveragePositive(cfg: Config) {
    cfg.variant.Dcfr? ==> forall t :: cfg.variant.factors(t).strat >= 0.0
  }

  /**
   * Squared positive regrets stay within the budget; undiscounted accumulators are the sums of their increments
   * (floored regrets at least that, never negative, and at most the sum of their gains); average strategies stay
   * non-negative and are the faded sums of their increments; floored regrets are at least what was added since any
   * earlier iteration, and their squares stay within the squared increments and gains; and the last instantaneous
   * regret is that of the iteration that last prepared the node.
   */
  ghost predicate SoundAt(root: Tree, sets: map<string, Info>, cfg: Config, table: Table, rounds: seq<Round>, I: string)
    requires I in sets && Fits(table, sets)
  {
    && (Contracting(cfg) ==> Potential(TotalOf(Regret, table, sets, I)) <= Budget(root, sets, cfg, rounds, I))
    && (!cfg.variant.Dcfr? ==> forall kind: Kind, a :: !kind.Instant? && 0 <= a < sets[I].arity ==>
          Adds(cfg, kind, 0.0, Accumulated(kind, root, sets, cfg, rounds, I, a), TotalOf(kind, table, sets, I)[a]))
    && (KeepsAveragePositive(cfg) ==> NonNegative(TotalOf(Average, table, sets, I)))
    && KeepsAverage(root, sets, cfg, table, rounds, I)
    && (cfg.variant.CfrPlus? ==> KeepsFloor(root, sets, cfg, table, rounds, I))
    && (Flooring(cfg) ==> Potential(TotalOf(Regret, table, sets, I)) <= GainBudget(root, sets, cfg, rounds, I))
    && (I in table && 0 < table[I].curIter <= |rounds| ==>
          table[I].thisInstant == IterationIncrements(Instant, root, sets, cfg, table[I].curIter,
                rounds[table[I].curIter - 1], I))
  }

  /** Everyone played a distribution at every information set, and only zero-probability actions were pruned. */
  ghost predicate FairRound(root: Tree, sets: map<string, Info>, cfg: Config, t: nat, round: Round) {
    && PlaysDistributions(Pass(cfg, t, 0, sets, round.sigma)) && round.sigma.Keys == sets.Keys
    && forall p :: 0 <= p < 2 ==> Legal(Pass(cfg, t, p, sets, round.sigma), root, round.CutOf(p))
  }

  ghost predicate Sound(root: Tree, sets: map<string, Info>, cfg: Config, table: Table, rounds: seq<Round>) {
    && Fits(table, sets)
    && (forall I :: I in table ==> 0 < table[I].curIter <= |rounds|)
    && (forall k :: 0 <= k < |rounds| ==> FairRound(root, sets, cfg, k + 1, rounds[k]))
    && (forall I :: I in sets ==> SoundAt(root, sets, cfg, table, rounds, I))
  }

  lemma {:induction false} ZeroPotential(rs: seq<real>, n: nat)
    requires n <= |rs| && forall i :: 0 <= i < n ==> rs[i] == 0.0
    ensures Squares(rs, n) == 0.0
  {
    if n > 0 {
      ZeroPotential(rs, n - 1);
    }
  }

  /** Where `Train` starts from: the empty table of a new solver. */
  lemma NewSolverIsSound(root: Tree, sets: map<string, Info>, cfg: Config)
    ensures Sound(root, sets, cfg, map[], [])
  {
    forall I | I in sets ensures SoundAt(root, sets, cfg, map[], [], I) {
      ZeroPotential(Positives(Zeros(sets[I].arity)), sets[I].arity);
    }
  }

  lemma SecondPass(P0: Pass, P1: Pass, start: Table, mid: Table, root: Tree, cut: Cut)
    requires After(P0, start, mid, root, FULL_REACH, cut) && P1 == P0.(tr := 1)
    ensures InPass(P1, mid)
  {
  }

  /** Both passes of an iteration, from the table it started with to the table it leaves. */
  datatype Iteration = Iteration(P0: Pass, start: Table, mid: Table, end: Table, round: Round) {
    function P1(): Pass {
      P0.(tr := 1)
    }

    ghost predicate Ran(root: Tree) {
      && Fits(start, P0.sets) && Fits(mid, P0.sets) && Fits(end, P0.sets)
      && P0.tr == 0 && P0.iter > 0 && round.sigma == P0.sigma && Consistent(root, P0.sets) && GoodSets(P0.sets)
      && After(P0, start, mid, root, FULL_REACH, round.cut0) && After(P1(), mid, end, root, FULL_REACH, round.cut1)
      && forall I :: I in start ==> 0 < start[I].curIter < P0.iter
    }

    ghost function Added(kind: Kind, root: Tree, I: string): (xs: seq<real>)
      requires I in P0.sets
      ensures |xs| == P0.sets[I].arity
    {
      IterationIncrements(kind, root, P0.sets, P0.cfg, P0.iter, round, I)
    }
  }

  lemma IterationRan(root: Tree, it: Iteration, rounds: seq<Round>)
    requires it.P0.tr == 0 && it.P0.iter == |rounds| + 1 && it.round.sigma == it.P0.sigma
    requires Consistent(root, it.P0.sets) && GoodSets(it.P0.sets)
    requires After(it.P0, it.start, it.mid, root, FULL_REACH, it.round.cut0)
    requires After(it.P1(), it.mid, it.end, root, FULL_REACH, it.round.cut1)
    requires Sound(root, it.P0.sets, it.P0.cfg, it.start, rounds)
    ensures it.Ran(root)
  {
    hide View, Rows, Step, Consistent, Legal, SoundAt, FairRound;
  }

  lemma InfosetSteps(root: Tree, it: Iteration, I: string)
    requires it.Ran(root) && I in it.P0.sets
    ensures I in ViewOf(it.P0, it.start) && I in ViewOf(it.P0, it.mid) && I in ViewOf(it.P0, it.end)
    ensures NodeStep(it.P0, I, ViewOf(it.P0, it.start)[I], ViewOf(it.P0, it.mid)[I], root, FULL_REACH, it.round.cut0)
    ensures NodeStep(it.P1(), I, ViewOf(it.P0, it.mid)[I], ViewOf(it.P0, it.end)[I], root, FULL_REACH, it.round.cut1)
    ensures Legal(it.P0, root, it.round.cut0) && Legal(it.P1(), root, it.round.cut1)
  {
    hide View, Rows, NodeStep, Consistent, Legal;
  }

  /** One information set over one iteration, as the iteration's view holds it. */
  lemma InfosetIteration(root: Tree, it: Iteration, I: string, kind: Kind, x: nat)
    requires it.Ran(root) && I in it.P0.sets && x < it.P0.sets[I].arity
    ensures I in ViewOf(it.P0, it.start) && I in ViewOf(it.P0, it.end)
    ensures var b, a := Total(kind, ViewOf(it.P0, it.start)[I]), Total(kind, ViewOf(it.P0, it.end)[I]);
            |b| == |a| == it.P0.sets[I].arity && Adds(it.P0.cfg, kind, b[x], it.Added(kind, root, I)[x], a[x])
  {
    hide View, Rows, NodeStep, Legal, After, Consistent, IterationIncrements, Adds;
    var P0, P1 := it.P0, it.P1();
    var b, m, a := ViewOf(P0, it.start)[I], ViewOf(P0, it.mid)[I], ViewOf(P0, it.end)[I];
    InfosetSteps(root, it, I);
    AddedIs(root, it, I, kind, x);
    NodeStepAdds(P0, I, b, m, root, it.round.cut0, kind, x);
    NodeStepAdds(P1, I, m, a, root, it.round.cut1, kind, x);
  }

  lemma AddedIs(root: Tree, it: Iteration, I: string, kind: Kind, x: nat)
    requires I in it.P0.sets && x < it.P0.sets[I].arity && it.P0.sets[I].owner < 2 && it.round.sigma == it.P0.sigma
    requires it.P0.tr == 0
    ensures var p := it.P0.sets[I].owner;
            it.Added(kind, root, I)[x]
            == CreditedIncrement(kind, if p == 0 then it.P0 else it.P1(), root, I, x, if p == 0 then it.round.cut0
                  else it.round.cut1)
  {
    hide Increment, Whole;
    var p := it.P0.sets[I].owner;
    assert (if p == 0 then it.P0 else it.P1()) == Pass(it.P0.cfg, it.P0.iter, p, it.P0.sets, it.round.sigma);
  }

  /** Averages are credited with the whole tree, everything else with what was evaluated. */
  ghost function CreditedIncrement(kind: Kind, P: Pass, root: Tree, I: string, x: nat, cut: Cut): real {
    Increment(kind, P, root, I, x, FULL_REACH, if kind.Average? then Whole(root) else cut)
  }

  lemma NodeStepAdds(P: Pass, I: string, b: Node, a: Node, root: Tree, cut: Cut, kind: Kind, x: nat)
    requires Legal(P, root, cut) && I in P.sets && NodeStep(P, I, b, a, root, FULL_REACH, cut) && x < P.sets[I].arity
    ensures Sized(b, P.sets[I].arity) && Sized(a, P.sets[I].arity) && (P.sets[I].owner != P.tr ==> a == b)
    ensures Adds(P.cfg, kind, Total(kind, b)[x], CreditedIncrement(kind, P, root, I, x, cut), Total(kind, a)[x])
  {
    hide Increment, Whole, Legal, Adds;
    PruningKeepsAverages(P, root, I, x, FULL_REACH, cut);
  }

  lemma {:induction false} DiscountingShrinks(rs: seq<real>, f: Factors, n: nat)
    requires n <= |rs| && 0.0 <= f.pos <= 1.0 && f.neg >= 0.0
    ensures Squares(Positives(Discounted(rs, f)), n) <= Squares(Positives(rs), n)
  {
    if n > 0 {
      DiscountingShrinks(rs, f, n - 1);
      DiscountedSquare(rs[n - 1], f);
    }
  }

  lemma DiscountedSquare(r: real, f: Factors)
    requires 0.0 <= f.pos <= 1.0 && f.neg >= 0.0
    ensures Square(Positive(Times(if r > 0.0 then f.pos else f.neg, r))) <= Square(Positive(r))
  {
    var x := Positive(Times(if r > 0.0 then f.pos else f.neg, r));
    ShrunkPositive(if r > 0.0 then f.pos else f.neg, r);
    SquareMonotone(x, Positive(r));
  }

  lemma ShrunkPositive(k: real, r: real)
    requires k >= 0.0 && (r > 0.0 ==> k <= 1.0)
    ensures 0.0 <= Positive(Times(k, r)) <= Positive(r)
  {
    if r > 0.0 {
      assert (1.0 - k) * r >= 0.0;
    } else {
      assert k * -r >= 0.0;
    }
  }

  lemma SquareMonotone(x: real, y: real)
    requires 0.0 <= x <= y
    ensures Square(x) <= Square(y)
  {
    assert x * x <= x * y <= y * y;
  }

  lemma {:induction false} SquaresNonNegative(xs: seq<real>, n: nat)
    requires n <= |xs|
    ensures Squares(xs, n) >= 0.0
  {
    if n > 0 {
      SquaresNonNegative(xs, n - 1);
    }
  }

  /** Freshly prepared: a distribution; discounted at most; matched to the regrets unless momentum says otherwise. */
  ghost predicate Ready(P: Pass, start: Table, I: string)
    requires Fits(start, P.sets) && I in P.sets
  {
    var b := ViewOf(P, start)[I];
    && PlaysDistribution(P, I)
    && (Contracting(P.cfg) ==>
          P.sigma[I] == Matched(b.regretSum) && Potential(b.regretSum) <= Potential(TotalOf(Regret, start, P.sets, I)))
    && (P.cfg.momentum.None? ==> P.sigma[I] == Matched(b.regretSum))
    && (!P.cfg.variant.Dcfr? ==> forall kind: Kind :: !kind.Instant? ==>
          Total(kind, b) == TotalOf(kind, start, P.sets, I))
    && (KeepsAveragePositive(P.cfg) && NonNegative(TotalOf(Average, start, P.sets, I)) ==> NonNegative(b.strategySum))
    && b.thisInstant == Zeros(P.sets[I].arity)
  }

  lemma FreshlyPrepared(P: Pass, start: Table, I: string)
    requires InPass(P, start) && I in P.sets && P.iter > 0 && P.sets[I].arity > 0
    requires I in start ==> start[I].curIter < P.iter
    ensures Ready(P, start, I)
  {
    hide Potential, Matched, Distribution;
    var node := if I in start then start[I] else NewNode(P.sets[I].arity);
    var b := Prepared(node, P.cfg, P.iter);
    PreparedRow(node, P.cfg, P.iter);
    if Contracting(P.cfg) {
      PreparedPotential(node, P.cfg, P.iter);
    }
    if KeepsAveragePositive(P.cfg) && NonNegative(node.strategySum) {
      PreparedAverage(node, P.cfg, P.iter);
    }
  }

  lemma PreparedRow(node: Node, cfg: Config, t: nat)
    requires Sized(node, |node.regretSum|) && |node.regretSum| > 0 && node.curIter != t
    ensures Distribution(Prepared(node, cfg, t).curStrategy)
  {
    hide Distribution, Matched;
    var regrets := Prepared(node, cfg, t).regretSum;
    var last := if cfg.momentum.Some? then node.thisInstant else node.lastInstant;
    MatchedIsDistribution(if cfg.momentum.Some? then Predicted(regrets, last, cfg.momentum.value(t)) else regrets);
  }

  lemma PreparedPotential(node: Node, cfg: Config, t: nat)
    requires Sized(node, |node.regretSum|) && node.curIter != t && Contracting(cfg)
    ensures Potential(Prepared(node, cfg, t).regretSum) <= Potential(node.regretSum)
  {
    if cfg.variant.Dcfr? {
      DiscountingShrinks(node.regretSum, cfg.variant.factors(t), |node.regretSum|);
    }
  }

  lemma PreparedAverage(node: Node, cfg: Config, t: nat)
    requires Sized(node, |node.regretSum|) && KeepsAveragePositive(cfg) && NonNegative(node.strategySum)
    ensures NonNegative(Prepared(node, cfg, t).strategySum)
  {
  }

  lemma InfosetPotential(root: Tree, it: Iteration, I: string)
    requires it.Ran(root) && I in it.P0.sets && Contracting(it.P0.cfg)
    ensures I in ViewOf(it.P0, it.end)
    ensures var xs := it.Added(Regret, root, I);
            Potential(ViewOf(it.P0, it.end)[I].regretSum)
                <= Potential(TotalOf(Regret, it.start, it.P0.sets, I)) + Squares(xs, |xs|)
  {
    hide View, Rows, After, Potential, IterationIncrements, Contracting, Consistent, Increment;
    InfosetReady(root, it, I);
    var b := ViewOf(it.P0, it.start)[I].regretSum;
    var xs := it.Added(Regret, root, I);
    forall x: nat | x < |xs|
      ensures I in ViewOf(it.P0, it.end) && |ViewOf(it.P0, it.end)[I].regretSum| == |b| == |xs|
      ensures ViewOf(it.P0, it.end)[I].regretSum[x] == b[x] + xs[x]
    {
      InfosetIteration(root, it, I, Regret, x);
      NoFloor(it.P0.cfg);
    }
    InfosetIteration(root, it, I, Regret, 0);
    IncrementsOrthogonal(root, it, I);
    PotentialStep(b, xs, ViewOf(it.P0, it.end)[I].regretSum);
  }

  lemma NoFloor(cfg: Config)
    requires Contracting(cfg)
    ensures !cfg.variant.CfrPlus?
  {
  }

  lemma IncrementsOrthogonal(root: Tree, it: Iteration, I: string)
    requires it.Ran(root) && PlaysDistribution(it.P0, I)
    ensures var xs := it.Added(Regret, root, I); Dot(it.P0.sigma[I], xs, |xs|) == 0.0
  {
    hide Consistent, Step, View, Rows, Legal;
    var p := it.P0.sets[I].owner;
    IncrementsBalance(Pass(it.P0.cfg, it.P0.iter, p, it.P0.sets, it.P0.sigma), root, I, FULL_REACH, it.round.CutOf(p));
  }

  // ---------------------------------------------------------------- the potential of floored regrets

  lemma LiftsTwice(cfg: Config, b: real, x: real, g: real, m: real, y: real, h: real, a: real)
    requires Lifts(cfg, b, x, g, m) && Lifts(cfg, m, y, h, a)
    ensures Lifts(cfg, b, x + y, g + h, a)
  {
  }

  lemma NodeLifts(P: Pass, root: Tree, I: string, b: Node, a: Node, cut: Cut, x: nat)
    requires I in P.sets && NodeStep(P, I, b, a, root, FULL_REACH, cut) && x < P.sets[I].arity
    ensures |b.regretSum| == |a.regretSum| == P.sets[I].arity
    ensures Lifts(P.cfg, b.regretSum[x], CreditedIncrement(Regret, P, root, I, x, cut),
                  CreditedIncrement(Gain, P, root, I, x, cut), a.regretSum[x])
    ensures P.sets[I].owner != P.tr ==> a == b
  {
    hide Lifts, Adds, Increment;
  }

  lemma InfosetLifts(root: Tree, it: Iteration, I: string, x: nat)
    requires it.Ran(root) && I in it.P0.sets && x < it.P0.sets[I].arity
    ensures I in ViewOf(it.P0, it.start) && I in ViewOf(it.P0, it.end)
    ensures var b, a := ViewOf(it.P0, it.start)[I].regretSum, ViewOf(it.P0, it.end)[I].regretSum;
            && |b| == |a| == it.P0.sets[I].arity
            && Lifts(it.P0.cfg, b[x], it.Added(Regret, root, I)[x], it.Added(Gain, root, I)[x], a[x])
  {
    hide View, Rows, NodeStep, Legal, After, Consistent, IterationIncrements, Lifts, CreditedIncrement;
    var P0, P1 := it.P0, it.P1();
    var b, m, a := ViewOf(P0, it.start)[I], ViewOf(P0, it.mid)[I], ViewOf(P0, it.end)[I];
    InfosetSteps(root, it, I);
    AddedIs(root, it, I, Regret, x);
    AddedIs(root, it, I, Gain, x);
    NodeLifts(P0, root, I, b, m, it.round.cut0, x);
    NodeLifts(P1, root, I, m, a, it.round.cut1, x);
  }

  /** One floored entry: its square grows by no more than increment and gain squared, the mixed term aside. */
  lemma LiftedSquare(cfg: Config, q: real, x: real, g: real, a: real, k: real, w: real)
    requires cfg.variant.CfrPlus? && Lifts(cfg, q, x, g, a) && q >= 0.0 && q == Times(k, w)
    ensures Square(Positive(a)) <= Square(Positive(q)) + 2.0 * Times(k, Times(w, x)) + Square(x) + Square(g)
  {
    PositiveSquareBound(q, x, k, w);
    assert g * g >= 0.0;
    if a != q + x {
      SquareMonotone(a, g);
      assert (q + x) * (q + x) >= 0.0;
      assert (q + x) * (q + x) == q * q + 2.0 * (q * x) + x * x;
      assert Times(k, Times(w, x)) == q * x;
    }
  }

  lemma {:induction false} LiftedPrefix(cfg: Config, rs: seq<real>, xs: seq<real>, gs: seq<real>, after: seq<real>,
      n: nat)
    requires cfg.variant.CfrPlus? && |rs| == |xs| == |gs| == |after| && n <= |rs|
    requires forall i :: 0 <= i < |rs| ==> rs[i] >= 0.0 && Lifts(cfg, rs[i], xs[i], gs[i], after[i])
    ensures Squares(Positives(after), n)
         <= Squares(Positives(rs), n) + 2.0 * Times(Sum(Positives(rs), |rs|), Dot(Matched(rs), xs, n)) + Squares(xs, n)
            + Squares(gs, n)
  {
    hide Times, Matched, Square, Lifts;
    var k := Sum(Positives(rs), |rs|);
    if n == 0 {
      TimesZero(k);
    } else {
      var i := n - 1;
      LiftedPrefix(cfg, rs, xs, gs, after, i);
      MatchedIsProportional(rs, i);
      LiftedSquare(cfg, rs[i], xs[i], gs[i], after[i], k, Matched(rs)[i]);
      TimesPlus(k, Dot(Matched(rs), xs, i), Times(Matched(rs)[i], xs[i]));
    }
  }

  /** Blackwell's condition for floored regrets. */
  lemma LiftedStep(cfg: Config, rs: seq<real>, xs: seq<real>, gs: seq<real>, after: seq<real>)
    requires cfg.variant.CfrPlus? && |rs| == |xs| == |gs| == |after|
    requires forall i :: 0 <= i < |rs| ==> rs[i] >= 0.0 && Lifts(cfg, rs[i], xs[i], gs[i], after[i])
    requires Dot(Matched(rs), xs, |rs|) == 0.0
    ensures Potential(after) <= Potential(rs) + Squares(xs, |xs|) + Squares(gs, |gs|)
  {
    hide Lifts;
    LiftedPrefix(cfg, rs, xs, gs, after, |rs|);
    TimesZero(Sum(Positives(rs), |rs|));
  }

  /** An iteration raises the squared floored regrets by no more than its squared increments and gains. */
  lemma FlooredPotential(root: Tree, it: Iteration, I: string)
    requires it.Ran(root) && I in it.P0.sets && Flooring(it.P0.cfg)
    requires forall a :: 0 <= a < it.P0.sets[I].arity ==> TotalOf(Regret, it.start, it.P0.sets, I)[a] >= 0.0
    ensures var xs, gs := it.Added(Regret, root, I), it.Added(Gain, root, I);
            Potential(TotalOf(Regret, it.end, it.P0.sets, I))
              <= Potential(TotalOf(Regret, it.start, it.P0.sets, I)) + Squares(xs, |xs|) + Squares(gs, |gs|)
  {
    hide View, Rows, After, Potential, IterationIncrements, Consistent, Increment, Lifts, NonNegative, Contracting;
    InfosetReady(root, it, I);
    InfosetEnds(root, it, I);
    var b := ViewOf(it.P0, it.start)[I].regretSum;
    var a := ViewOf(it.P0, it.end)[I].regretSum;
    var xs, gs := it.Added(Regret, root, I), it.Added(Gain, root, I);
    assert b == TotalOf(Regret, it.start, it.P0.sets, I) && a == TotalOf(Regret, it.end, it.P0.sets, I);
    forall x: nat | x < |xs| ensures Lifts(it.P0.cfg, b[x], xs[x], gs[x], a[x]) {
      InfosetLifts(root, it, I, x);
    }
    IncrementsOrthogonal(root, it, I);
    LiftedStep(it.P0.cfg, b, xs, gs, a);
  }

  lemma InfosetGainBudget(root: Tree, it: Iteration, rounds: seq<Round>, I: string)
    requires it.Ran(root) && it.P0.iter == |rounds| + 1 && I in it.P0.sets && Flooring(it.P0.cfg)
    requires forall a :: 0 <= a < it.P0.sets[I].arity ==> TotalOf(Regret, it.start, it.P0.sets, I)[a] >= 0.0
    requires Potential(TotalOf(Regret, it.start, it.P0.sets, I)) <= GainBudget(root, it.P0.sets, it.P0.cfg, rounds, I)
    ensures Potential(TotalOf(Regret, it.end, it.P0.sets, I))
            <= GainBudget(root, it.P0.sets, it.P0.cfg, rounds + [it.round], I)
  {
    hide View, Rows, After, IterationIncrements, Consistent, Potential, Flooring, TotalOf;
    assert (rounds + [it.round])[..|rounds|] == rounds;
    FlooredPotential(root, it, I);
  }

  /** What the table stores after the iteration: the view if visited, the old node otherwise. */
  lemma StoredTotal(P: Pass, start: Table, end: Table, I: string)
    requires InPass(P, start) && InPass(P, end) && Evolves(start, end, P.iter) && I in P.sets
    ensures if Visited(end, I, P.iter) then end[I] == ViewOf(P, end)[I]
            else
              && (I in start <==> I in end) && (I in start ==> start[I] == end[I])
              && ViewOf(P, end)[I] == ViewOf(P, start)[I]
  {
  }

  lemma InfosetStored(root: Tree, it: Iteration, I: string)
    requires it.Ran(root) && I in it.P0.sets
    ensures I in ViewOf(it.P0, it.start) && I in ViewOf(it.P0, it.end)
    ensures if Visited(it.end, I, it.P0.iter) then it.end[I] == ViewOf(it.P0, it.end)[I]
            else
              && (I in it.start <==> I in it.end) && (I in it.start ==> it.start[I] == it.end[I])
              && ViewOf(it.P0, it.end)[I] == ViewOf(it.P0, it.start)[I]
  {
    hide View, Rows, Step, Legal, Consistent;
    EvolvesTwice(it.start, it.mid, it.end, it.P0.iter);
    StoredTotal(it.P0, it.start, it.end, I);
  }

  lemma InfosetReady(root: Tree, it: Iteration, I: string)
    requires it.Ran(root) && I in it.P0.sets
    ensures Ready(it.P0, it.start, I)
  {
    hide View, Rows, Step, Legal, Consistent, Ready;
    FreshlyPrepared(it.P0, it.start, I);
  }

  ghost predicate GoodSets(sets: map<string, Info>) {
    forall I :: I in sets ==> sets[I].owner < 2 && sets[I].arity > 0
  }

  /** Each clause of `SoundAt`, carried over one more iteration. */
  lemma InfosetTotals(root: Tree, it: Iteration, rounds: seq<Round>, I: string, kind: Kind, a: nat)
    requires it.Ran(root) && it.P0.iter == |rounds| + 1 && I in it.P0.sets && a < it.P0.sets[I].arity
    requires !it.P0.cfg.variant.Dcfr? && !kind.Instant?
    requires Adds(it.P0.cfg, kind, 0.0, Accumulated(kind, root, it.P0.sets, it.P0.cfg, rounds, I, a),
               TotalOf(kind, it.start, it.P0.sets, I)[a])
    ensures Adds(it.P0.cfg, kind, 0.0, Accumulated(kind, root, it.P0.sets, it.P0.cfg, rounds + [it.round], I, a),
              TotalOf(kind, it.end, it.P0.sets, I)[a])
  {
    hide View, Rows, After, Evolves, IterationIncrements, Accumulated, Consistent, Adds, Total;
    AccumulatedGrows(root, it, rounds, I, kind, a);
    InfosetIteration(root, it, I, kind, a);
    InfosetEnds(root, it, I);
    AddsTwice(it.P0.cfg, kind, 0.0, Accumulated(kind, root, it.P0.sets, it.P0.cfg, rounds, I, a),
          TotalOf(kind, it.start, it.P0.sets, I)[a],
              it.Added(kind, root, I)[a], TotalOf(kind, it.end, it.P0.sets, I)[a]);
  }

  lemma AccumulatedGrows(root: Tree, it: Iteration, rounds: seq<Round>, I: string, kind: Kind, a: nat)
    requires it.P0.iter == |rounds| + 1 && I in it.P0.sets && a < it.P0.sets[I].arity
    ensures Accumulated(kind, root, it.P0.sets, it.P0.cfg, rounds + [it.round], I, a)
         == Accumulated(kind, root, it.P0.sets, it.P0.cfg, rounds, I, a) + it.Added(kind, root, I)[a]
  {
    assert (rounds + [it.round])[..|rounds|] == rounds;
  }

  lemma AddsTwice(cfg: Config, kind: Kind, a: real, i: real, b: real, j: real, c: real)
    requires Adds(cfg, kind, a, i, b) && Adds(cfg, kind, b, j, c)
    ensures Adds(cfg, kind, a, i + j, c)
  {
  }

  /** Undiscounted, what is stored before and after an iteration is what its view starts and ends with. */
  lemma InfosetEnds(root: Tree, it: Iteration, I: string)
    requires it.Ran(root) && I in it.P0.sets && !it.P0.cfg.variant.Dcfr?
    ensures I in ViewOf(it.P0, it.start) && I in ViewOf(it.P0, it.end)
    ensures forall kind: Kind :: !kind.Instant? ==>
              && TotalOf(kind, it.start, it.P0.sets, I) == Total(kind, ViewOf(it.P0, it.start)[I])
              && TotalOf(kind, it.end, it.P0.sets, I) == Total(kind, ViewOf(it.P0, it.end)[I])
  {
    hide View, Rows, After, Consistent, Potential, Matched, NonNegative, Contracting, PlaysDistribution;
    InfosetReady(root, it, I);
    InfosetStored(root, it, I);
  }

  lemma InfosetBudget(root: Tree, it: Iteration, rounds: seq<Round>, I: string)
    requires it.Ran(root) && it.P0.iter == |rounds| + 1 && I in it.P0.sets && Contracting(it.P0.cfg)
    requires Potential(TotalOf(Regret, it.start, it.P0.sets, I)) <= Budget(root, it.P0.sets, it.P0.cfg, rounds, I)
    ensures Potential(TotalOf(Regret, it.end, it.P0.sets, I))
            <= Budget(root, it.P0.sets, it.P0.cfg, rounds + [it.round], I)
  {
    hide View, Rows, After, IterationIncrements, Consistent, Potential, Contracting;
    assert (rounds + [it.round])[..|rounds|] == rounds;
    var xs := it.Added(Regret, root, I);
    SquaresNonNegative(xs, |xs|);
    InfosetPotential(root, it, I);
    InfosetStored(root, it, I);
  }

  lemma InfosetAverage(root: Tree, it: Iteration, I: string)
    requires it.Ran(root) && I in it.P0.sets && KeepsAveragePositive(it.P0.cfg)
    requires forall J :: J in it.P0.sets ==> PlaysDistribution(it.P0, J)
    requires NonNegative(TotalOf(Average, it.start, it.P0.sets, I))
    ensures NonNegative(TotalOf(Average, it.end, it.P0.sets, I))
  {
    hide View, Rows, After, IterationIncrements, Consistent, KeepsAveragePositive, PlaysDistribution, Potential,
      Matched;
    InfosetReady(root, it, I);
    InfosetStored(root, it, I);
    var after := TotalOf(Average, it.end, it.P0.sets, I);
    if Visited(it.end, I, it.P0.iter) {
      forall a: nat | a < |after| ensures after[a] >= 0.0 {
        InfosetIteration(root, it, I, Average, a);
        AverageIncrement(root, it, I, a);
      }
    }
  }

  lemma AverageIncrement(root: Tree, it: Iteration, I: string, a: nat)
    requires it.Ran(root) && I in it.P0.sets && a < it.P0.sets[I].arity
    requires forall J :: J in it.P0.sets ==> PlaysDistribution(it.P0, J)
    ensures it.Added(Average, root, I)[a] >= 0.0
  {
    hide After, Distribution, Increment, Consistent;
    var P := Pass(it.P0.cfg, it.P0.iter, it.P0.sets[I].owner, it.P0.sets, it.P0.sigma);
    assert PlaysDistributions(P) by {
      forall J | J in P.sets ensures PlaysDistribution(P, J) {
        assert PlaysDistribution(it.P0, J);
      }
    }
    AverageGrows(P, root, I, a, FULL_REACH, Whole(root));
  }

  /** The pass prepares exactly the nodes it comes to. */
  lemma VisitedIsMet(root: Tree, it: Iteration, I: string)
    requires it.Ran(root)
    ensures Visited(it.end, I, it.P0.iter) <==> Met(root, it.round, I)
  {
    hide View, Rows, Step, Legal, Consistent, Reached, Evolves;
    assert Visited(it.mid, I, it.P0.iter) <==> Visited(it.start, I, it.P0.iter) || I in Reached(root, it.round.cut0);
    assert !Visited(it.start, I, it.P0.iter);
  }

  /** A node that is prepared starts out with its strategy sums faded. */
  lemma PreparedFades(P: Pass, start: Table, I: string, x: nat)
    requires Fits(start, P.sets) && I in P.sets && x < P.sets[I].arity
    requires I in start ==> start[I].curIter != P.iter
    ensures P.iter > 0 ==>
              ViewOf(P, start)[I].strategySum[x]
              == Times(if P.cfg.variant.Dcfr? && P.iter > 1 then P.cfg.variant.factors(P.iter).strat else 1.0,
                       TotalOf(Average, start, P.sets, I)[x])
  {
    hide Matched, Discounted, Predicted;
  }

  lemma InfosetFades(root: Tree, it: Iteration, I: string, a: nat)
    requires it.Ran(root) && I in it.P0.sets && a < it.P0.sets[I].arity
    ensures TotalOf(Average, it.end, it.P0.sets, I)[a]
            == Times(Fade(root, it.P0.cfg, it.P0.iter, it.round, I), TotalOf(Average, it.start, it.P0.sets, I)[a])
               + it.Added(Average, root, I)[a]
  {
    hide View, Rows, After, Evolves, IterationIncrements, Consistent, Prepared, Met, Times;
    VisitedIsMet(root, it, I);
    InfosetStored(root, it, I);
    InfosetIteration(root, it, I, Average, a);
    PreparedFades(it.P0, it.start, I, a);
    UnitTimes(TotalOf(Average, it.start, it.P0.sets, I)[a]);
  }

  lemma UnitTimes(x: real)
    ensures Times(1.0, x) == x
  {
  }

  lemma InfosetKeepsAverage(root: Tree, it: Iteration, rounds: seq<Round>, I: string)
    requires it.Ran(root) && it.P0.iter == |rounds| + 1 && I in it.P0.sets
    requires KeepsAverage(root, it.P0.sets, it.P0.cfg, it.start, rounds, I)
    ensures KeepsAverage(root, it.P0.sets, it.P0.cfg, it.end, rounds + [it.round], I)
  {
    hide After, IterationIncrements, Consistent, Fade, Total, Times;
    assert (rounds + [it.round])[..|rounds|] == rounds;
    forall a: nat | a < it.P0.sets[I].arity
      ensures TotalOf(Average, it.end, it.P0.sets, I)[a]
              == Faded(root, it.P0.sets, it.P0.cfg, rounds + [it.round], I, a)
    {
      InfosetFades(root, it, I, a);
    }
  }

  lemma GoodRan(root: Tree, it: Iteration)
    requires it.Ran(root)
    ensures Fits(it.start, it.P0.sets) && Fits(it.end, it.P0.sets)
  {
    hide After, Consistent;
  }

  lemma FloorAt(root: Tree, sets: map<string, Info>, cfg: Config, table: Table, rounds: seq<Round>, I: string, a: nat,
      m: nat)
    requires I in sets && Fits(table, sets) && KeepsFloor(root, sets, cfg, table, rounds, I)
    requires a < sets[I].arity && m <= |rounds|
    ensures TotalOf(Regret, table, sets, I)[a]
        >= Accumulated(Regret, root, sets, cfg, rounds, I, a) - Accumulated(Regret, root, sets, cfg, rounds[..m], I, a)
  {
    hide TotalOf, Accumulated;
  }

  lemma FloorFrom(root: Tree, sets: map<string, Info>, cfg: Config, table: Table, rounds: seq<Round>, I: string)
    requires I in sets && Fits(table, sets)
    requires forall a: nat, m: nat :: a < sets[I].arity && m <= |rounds| ==>
      TotalOf(Regret, table, sets, I)[a]
        >= Accumulated(Regret, root, sets, cfg, rounds, I, a) - Accumulated(Regret, root, sets, cfg, rounds[..m], I, a)
    ensures KeepsFloor(root, sets, cfg, table, rounds, I)
  {
    hide TotalOf, Accumulated;
  }

  lemma FloorGrows(root: Tree, it: Iteration, I: string, a: nat)
    requires it.Ran(root) && I in it.P0.sets && it.P0.cfg.variant.CfrPlus? && a < it.P0.sets[I].arity
    ensures var b, c := TotalOf(Regret, it.start, it.P0.sets, I)[a], TotalOf(Regret, it.end, it.P0.sets, I)[a];
            c >= b + it.Added(Regret, root, I)[a] && (b >= 0.0 ==> c >= 0.0)
  {
    hide After, IterationIncrements, Consistent, Total, TotalOf;
    InfosetIteration(root, it, I, Regret, a);
    InfosetEnds(root, it, I);
  }

  lemma InfosetKeepsFloor(root: Tree, it: Iteration, rounds: seq<Round>, I: string)
    requires it.Ran(root) && it.P0.iter == |rounds| + 1 && I in it.P0.sets && it.P0.cfg.variant.CfrPlus?
    requires KeepsFloor(root, it.P0.sets, it.P0.cfg, it.start, rounds, I)
    requires forall a :: 0 <= a < it.P0.sets[I].arity ==> TotalOf(Regret, it.start, it.P0.sets, I)[a] >= 0.0
    ensures KeepsFloor(root, it.P0.sets, it.P0.cfg, it.end, rounds + [it.round], I)
  {
    hide *;
    GoodRan(root, it);
    var all := rounds + [it.round];
    forall a: nat, m: nat | a < it.P0.sets[I].arity && m <= |all|
      ensures TotalOf(Regret, it.end, it.P0.sets, I)[a]
              >= Accumulated(Regret, root, it.P0.sets, it.P0.cfg, all, I, a)
                 - Accumulated(Regret, root, it.P0.sets, it.P0.cfg, all[..m], I, a)
    {
      AccumulatedGrows(root, it, rounds, I, Regret, a);
      FloorGrows(root, it, I, a);
      if m <= |rounds| {
        assert all[..m] == rounds[..m];
        FloorAt(root, it.P0.sets, it.P0.cfg, it.start, rounds, I, a, m);
      } else {
        assert all[..m] == all;
      }
    }
    FloorFrom(root, it.P0.sets, it.P0.cfg, it.end, all, I);
  }

  lemma ReadyInstant(P: Pass, start: Table, I: string)
    requires Fits(start, P.sets) && I in P.sets && Ready(P, start, I)
    ensures ViewOf(P, start)[I].thisInstant == Zeros(P.sets[I].arity)
  {
    hide View, PlaysDistribution, Potential, Matched, Contracting, NonNegative, KeepsAveragePositive;
  }

  lemma InfosetInstant(root: Tree, it: Iteration, I: string)
    requires it.Ran(root) && I in it.P0.sets && Visited(it.end, I, it.P0.iter)
    ensures it.end[I].thisInstant == it.Added(Instant, root, I)
  {
    hide View, Rows, After, IterationIncrements, Consistent, Ready;
    InfosetReady(root, it, I);
    ReadyInstant(it.P0, it.start, I);
    InfosetStored(root, it, I);
    forall x: nat | x < it.P0.sets[I].arity
      ensures |it.end[I].thisInstant| == it.P0.sets[I].arity
      ensures it.end[I].thisInstant[x] == it.Added(Instant, root, I)[x]
    {
      InfosetIteration(root, it, I, Instant, x);
    }
  }

  lemma IterationFrame(root: Tree, it: Iteration)
    requires it.Ran(root)
    ensures Fits(it.start, it.P0.sets) && Fits(it.end, it.P0.sets)
    ensures forall I :: I in it.end ==>
              Visited(it.end, I, it.P0.iter)
                  || (I in it.start && it.end[I] == it.start[I] && 0 < it.end[I].curIter < it.P0.iter)
  {
    hide View, Rows, Step, Legal, Consistent;
    EvolvesTwice(it.start, it.mid, it.end, it.P0.iter);
  }

  lemma FlooredStays(root: Tree, sets: map<string, Info>, cfg: Config, table: Table, rounds: seq<Round>, I: string)
    requires I in sets && Fits(table, sets) && SoundAt(root, sets, cfg, table, rounds, I) && cfg.variant.CfrPlus?
    ensures forall a :: 0 <= a < sets[I].arity ==> TotalOf(Regret, table, sets, I)[a] >= 0.0
  {
    hide KeepsAverage, KeepsFloor, Accumulated, Potential, Budget;
    assert !Regret.Instant?;
  }

  lemma InfosetIsSound(root: Tree, it: Iteration, rounds: seq<Round>, I: string)
    requires it.Ran(root) && it.P0.iter == |rounds| + 1 && I in it.P0.sets
    requires forall J :: J in it.P0.sets ==> PlaysDistribution(it.P0, J)
    requires SoundAt(root, it.P0.sets, it.P0.cfg, it.start, rounds, I)
    ensures Fits(it.end, it.P0.sets)
    ensures SoundAt(root, it.P0.sets, it.P0.cfg, it.end, rounds + [it.round], I)
  {
    hide View, Rows, After, InPass, Evolves, Iteration.Ran, Potential, IterationIncrements, Accumulated, Budget,
        Contracting,
      Adds, NonNegative, KeepsAveragePositive, PlaysDistribution, KeepsAverage, KeepsFloor, GainBudget;
    var cfg := it.P0.cfg;
    IterationFrame(root, it);
    if Contracting(cfg) {
      InfosetBudget(root, it, rounds, I);
    }
    if !cfg.variant.Dcfr? {
      forall kind: Kind, a: nat | !kind.Instant? && a < it.P0.sets[I].arity
        ensures Adds(cfg, kind, 0.0, Accumulated(kind, root, it.P0.sets, cfg, rounds + [it.round], I, a),
                  TotalOf(kind, it.end, it.P0.sets, I)[a])
      {
        InfosetTotals(root, it, rounds, I, kind, a);
      }
    }
    if KeepsAveragePositive(cfg) {
      InfosetAverage(root, it, I);
    }
    InfosetKeepsAverage(root, it, rounds, I);
    if cfg.variant.CfrPlus? {
      FlooredStays(root, it.P0.sets, cfg, it.start, rounds, I);
      InfosetKeepsFloor(root, it, rounds, I);
      if Flooring(cfg) {
        InfosetGainBudget(root, it, rounds, I);
      }
    }
    if Visited(it.end, I, it.P0.iter) {
      InfosetInstant(root, it, I);
    } else if I in it.end {
      assert (rounds + [it.round])[it.end[I].curIter - 1] == rounds[it.end[I].curIter - 1];
    }
  }

  lemma RowsOfAll(root: Tree, it: Iteration)
    requires it.Ran(root)
    ensures it.round.sigma.Keys == it.P0.sets.Keys
  {
    hide Step, Consistent, Prepared, Evolves;
  }

  lemma RoundIsFair(root: Tree, it: Iteration)
    requires it.Ran(root)
    ensures FairRound(root, it.P0.sets, it.P0.cfg, it.P0.iter, it.round)
    ensures forall I :: I in it.P0.sets ==> PlaysDistribution(it.P0, I)
  {
    hide View, Rows, Step, Contracting, Consistent, Legal, Distribution;
    forall I | I in it.P0.sets ensures PlaysDistribution(it.P0, I) {
      InfosetReady(root, it, I);
    }
    RowsOfAll(root, it);
    assert it.P0 == Pass(it.P0.cfg, it.P0.iter, 0, it.P0.sets, it.round.sigma);
    assert it.P1() == Pass(it.P0.cfg, it.P0.iter, 1, it.P0.sets, it.round.sigma);
  }

  lemma IterationIsSound(root: Tree, it: Iteration, rounds: seq<Round>)
    requires it.Ran(root) && it.P0.iter == |rounds| + 1
    requires Sound(root, it.P0.sets, it.P0.cfg, it.start, rounds)
    ensures Sound(root, it.P0.sets, it.P0.cfg, it.end, rounds + [it.round])
  {
    hide View, Rows, After, Iteration.Ran, SoundAt, Contracting, Consistent, PlaysDistribution, FairRound;
    IterationFrame(root, it);
    RoundIsFair(root, it);
    forall I | I in it.P0.sets
      ensures SoundAt(root, it.P0.sets, it.P0.cfg, it.end, rounds + [it.round], I)
    {
      InfosetIsSound(root, it, rounds, I);
    }
  }

  lemma EvolvesTwice(a: Table, b: Table, c: Table, t: nat)
    requires Evolves(a, b, t) && Evolves(b, c, t)
    ensures Evolves(a, c, t)
  {
  }

  // ---------------------------------------------------------------- the averaged strategy

  lemma OwnReachStep(P: Pass, t: Tree, reach: Reach, k: nat)
    requires !t.Terminal? && k < |t.children| && P.tr < 2 && (t.Decision? ==> t.player < 2)
    ensures ChildReach(P, t, reach, k).Own(P.tr) == Times(reach.Own(P.tr), OwnFirst(t, P.tr, P.sigma, k))
  {
  }

  lemma Regroup(s: real, own: real, w: real, x: real)
    ensures Times(Times(s, Times(own, w)), x) == Times(Times(s, own), Times(w, x))
  {
    assert (s * (own * w)) * x == (s * own) * (w * x);
  }

  /**
   * What a pass adds to a strategy sum: the iteration's weight, times the probability that the player goes one of
   * the ways to the information set and takes the action there, added up over all the ways.
   */
  lemma {:induction false} AverageAdds(P: Pass, t: Tree, I: string, a: nat, reach: Reach)
    requires Consistent(t, P.sets) && P.tr < 2 && I in P.sets && a < P.sets[I].arity
    ensures Increment(Average, P, t, I, a, reach, Whole(t))
            == Times(Times(StrategyWeight(P.cfg, P.iter), reach.Own(P.tr)),
                     Taken(t, P.tr, P.sigma, I, P.sets[I].arity, a))
    decreases t, 1, 0
  {
    hide Taken, TakenAmong, Times, StrategyWeight;
    var c := Times(StrategyWeight(P.cfg, P.iter), reach.Own(P.tr));
    TakenIs(t, P.tr, P.sigma, I, P.sets[I].arity, a);
    if t.Terminal? {
      TimesZero(c);
    } else {
      AverageAddsAmong(P, t, I, a, reach, |t.children|);
      AverageAddsHere(P, t, I, a, reach);
      assert Whole(t).kept[..|t.children|] == Whole(t).kept;
      var here := if t.Decision? && t.player == P.tr && t.infoset == I then EntryOf(P.sigma, I, P.sets[I].arity, a)
        else 0.0;
      TimesPlus(c, here, TakenAmong(t, P.tr, P.sigma, I, P.sets[I].arity, a, |t.children|));
    }
  }

  lemma TimesPlus(c: real, x: real, y: real)
    ensures Times(c, x + y) == Times(c, x) + Times(c, y)
  {
  }

  lemma AverageAddsHere(P: Pass, t: Tree, I: string, a: nat, reach: Reach)
    requires Consistent(t, P.sets) && I in P.sets && a < P.sets[I].arity && !t.Terminal?
    ensures Here(Average, P, t, I, a, reach, Whole(t).kept)
            == Times(Times(StrategyWeight(P.cfg, P.iter), reach.Own(P.tr)),
                     if t.Decision? && t.player == P.tr && t.infoset == I then EntryOf(P.sigma, I, P.sets[I].arity, a)
                     else 0.0)
  {
    hide StrategyWeight, Whole;
    TimesZero(Times(StrategyWeight(P.cfg, P.iter), reach.Own(P.tr)));
    WholeKeeps(t);
  }

  lemma WholeKeeps(t: Tree)
    ensures !t.Terminal? ==> |Whole(t).kept| == |t.children| && forall i :: 0 <= i < |t.children| ==>
              Whole(t).kept[i] == Some(Whole(t.children[i]))
  {
  }

  lemma {:induction false} AverageAddsAmong(P: Pass, t: Tree, I: string, a: nat, reach: Reach, m: nat)
    requires Consistent(t, P.sets) && P.tr < 2 && I in P.sets && a < P.sets[I].arity
    requires !t.Terminal? && m <= |t.children|
    ensures IncrementAmong(Average, P, t, I, a, reach, Whole(t).kept[..m])
            == Times(Times(StrategyWeight(P.cfg, P.iter), reach.Own(P.tr)),
                     TakenAmong(t, P.tr, P.sigma, I, P.sets[I].arity, a, m))
    decreases t, 0, m
  {
    hide Taken, TakenAmong, Times, OwnFirst, StrategyWeight, Increment, ChildReach, Whole;
    var s, own, n := StrategyWeight(P.cfg, P.iter), reach.Own(P.tr), P.sets[I].arity;
    var c := Times(s, own);
    WholeKeeps(t);
    if m == 0 {
      TakenAmongNone(t, P.tr, P.sigma, I, n, a);
      TimesZero(c);
    } else {
      var k := m - 1;
      AverageAddsAmong(P, t, I, a, reach, k);
      AverageAdds(P, t.children[k], I, a, ChildReach(P, t, reach, k));
      OwnReachStep(P, t, reach, k);
      TakenAmongMore(t, P.tr, P.sigma, I, n, a, k);
      var w, x := OwnFirst(t, P.tr, P.sigma, k), Taken(t.children[k], P.tr, P.sigma, I, n, a);
      Regroup(s, own, w, x);
      TimesPlus(c, TakenAmong(t, P.tr, P.sigma, I, n, a, k), Times(w, x));
      var cuts := Whole(t).kept;
      assert cuts[..m][..k] == cuts[..k] && cuts[..m][k] == Some(Whole(t.children[k]));
    }
  }

  /** What later iterations leave of a strategy increment under DCFR. */
  ghost function LeftOf(root: Tree, factors: nat -> Factors, rounds: seq<Round>, I: string, t: nat): real {
    var n := |rounds|;
    if n <= t then 1.0
    else Times(if Met(root, rounds[n - 1], I) then factors(n).strat else 1.0,
               LeftOf(root, factors, rounds[..n - 1], I, t))
  }

  /**
   * How much iteration `t` counts in the average: as much as any other, or in proportion to `t`, or, under DCFR, what
   * the discounts of the later iterations that came to the information set have left of it.
   */
  ghost function MeanWeight(root: Tree, cfg: Config, rounds: seq<Round>, I: string, t: nat): real {
    match cfg.variant
    case Vanilla => 1.0
    case CfrPlus => t as real
    case Linear => t as real
    case Dcfr(factors) => LeftOf(root, factors, rounds, I, t)
  }

  /** How often the owner of `I` takes action `a` there, in the iterations up to `m`, weighted. */
  ghost function MeanSum(root: Tree, sets: map<string, Info>, cfg: Config, rounds: seq<Round>, I: string, a: nat,
      m: nat): real
    requires I in sets && a < sets[I].arity && m <= |rounds|
  {
    if m == 0 then 0.0
    else MeanSum(root, sets, cfg, rounds, I, a, m - 1)
         + Times(MeanWeight(root, cfg, rounds, I, m),
                 Taken(root, sets[I].owner, rounds[m - 1].sigma, I, sets[I].arity, a))
  }

  lemma WeightFades(root: Tree, cfg: Config, rounds: seq<Round>, round: Round, I: string, t: nat)
    requires 0 < t <= |rounds|
    ensures MeanWeight(root, cfg, rounds + [round], I, t)
            == Times(Fade(root, cfg, |rounds| + 1, round, I), MeanWeight(root, cfg, rounds, I, t))
  {
    assert (rounds + [round])[..|rounds|] == rounds;
  }

  lemma {:induction false} MeanFades(root: Tree, sets: map<string, Info>, cfg: Config, rounds: seq<Round>,
      round: Round, I: string, a: nat, m: nat)
    requires I in sets && a < sets[I].arity && m <= |rounds|
    ensures MeanSum(root, sets, cfg, rounds + [round], I, a, m)
            == Times(Fade(root, cfg, |rounds| + 1, round, I), MeanSum(root, sets, cfg, rounds, I, a, m))
  {
    hide Times, Taken, MeanWeight, Fade;
    var f := Fade(root, cfg, |rounds| + 1, round, I);
    if m == 0 {
      TimesZero(f);
    } else {
      MeanFades(root, sets, cfg, rounds, round, I, a, m - 1);
      WeightFades(root, cfg, rounds, round, I, m);
      var x := Taken(root, sets[I].owner, rounds[m - 1].sigma, I, sets[I].arity, a);
      assert (rounds + [round])[m - 1] == rounds[m - 1];
      TimesAlgebra(f, MeanWeight(root, cfg, rounds, I, m), x, 0.0);
      TimesPlus(f, MeanSum(root, sets, cfg, rounds, I, a, m - 1), Times(MeanWeight(root, cfg, rounds, I, m), x));
    }
  }

  lemma IterationTakes(root: Tree, sets: map<string, Info>, cfg: Config, t: nat, round: Round, I: string, a: nat)
    requires Consistent(root, sets) && GoodSets(sets) && I in sets && a < sets[I].arity
    ensures IterationIncrements(Average, root, sets, cfg, t, round, I)[a]
            == Times(StrategyWeight(cfg, t), Taken(root, sets[I].owner, round.sigma, I, sets[I].arity, a))
  {
    hide Increment, Taken, StrategyWeight, Consistent;
    AverageAdds(Pass(cfg, t, sets[I].owner, sets, round.sigma), root, I, a, FULL_REACH);
    FullWeight(StrategyWeight(cfg, t));
  }

  lemma FullWeight(s: real)
    ensures Times(s, 1.0) == s
  {
  }

  lemma LastWeight(root: Tree, cfg: Config, rounds: seq<Round>, I: string)
    requires rounds != []
    ensures MeanWeight(root, cfg, rounds, I, |rounds|) == StrategyWeight(cfg, |rounds|)
  {
  }

  /** The faded sums are the weighted sums of how often the action was taken. */
  lemma {:induction false} FadedIsMean(root: Tree, sets: map<string, Info>, cfg: Config, rounds: seq<Round>, I: string,
      a: nat)
    requires Consistent(root, sets) && GoodSets(sets) && I in sets && a < sets[I].arity
    ensures Faded(root, sets, cfg, rounds, I, a) == MeanSum(root, sets, cfg, rounds, I, a, |rounds|)
  {
    hide Times, Taken, MeanWeight, Fade, StrategyWeight, Consistent, IterationIncrements;
    if rounds != [] {
      var n := |rounds|;
      var before, last := rounds[..n - 1], rounds[n - 1];
      assert rounds == before + [last];
      FadedIsMean(root, sets, cfg, before, I, a);
      MeanFades(root, sets, cfg, before, last, I, a, n - 1);
      IterationTakes(root, sets, cfg, n, last, I, a);
      LastWeight(root, cfg, rounds, I);
    }
  }

  /** Without pruning every iteration comes to every information set. */
  lemma {:induction false} WholeReaches(t: Tree, path: seq<nat>)
    requires Leads(t, path) && NodeAt(t, path).Decision?
    ensures NodeAt(t, path).infoset in Reached(t, Whole(t))
    decreases |path|
  {
    if path != [] {
      WholeReaches(t.children[path[0]], path[1..]);
      AmongReaches(t, path[0], |t.children|);
    }
    if !t.Terminal? {
      assert Whole(t).kept[..|t.children|] == Whole(t).kept;
    }
  }

  lemma {:induction false} AmongReaches(t: Tree, i: nat, m: nat)
    requires !t.Terminal? && i < m <= |t.children|
    ensures Reached(t.children[i], Whole(t.children[i])) <= ReachedAmong(t, Whole(t).kept[..m])
  {
    hide Reached, Whole;
    WholeKeeps(t);
    var cuts := Whole(t).kept[..m];
    assert cuts[..m - 1] == Whole(t).kept[..m - 1];
    if i < m - 1 {
      AmongReaches(t, i, m - 1);
    }
  }

  /** The discounts of iterations t + 1 to n. */
  ghost function Discounts(factors: nat -> Factors, t: nat, n: nat): real {
    if n <= t then 1.0 else Times(factors(n).strat, Discounts(factors, t, n - 1))
  }

  /** Without pruning a DCFR iteration counts what all later discounts have left of it. */
  lemma {:induction false} UnprunedDiscounts(root: Tree, sets: map<string, Info>, cfg: Config, rounds: seq<Round>,
      path: seq<nat>, t: nat)
    requires cfg.variant.Dcfr? && forall k :: cfg.prune(k).None?
    requires forall k :: 0 <= k < |rounds| ==> FairRound(root, sets, cfg, k + 1, rounds[k])
    requires Leads(root, path) && NodeAt(root, path).Decision?
    ensures LeftOf(root, cfg.variant.factors, rounds, NodeAt(root, path).infoset, t)
            == Discounts(cfg.variant.factors, t, |rounds|)
  {
    hide Times, Met, Legal;
    var n := |rounds|;
    if n > t {
      UnprunedDiscounts(root, sets, cfg, rounds[..n - 1], path, t);
      UnprunedIsMet(root, sets, cfg, n, rounds[n - 1], path);
    }
  }

  lemma UnprunedIsMet(root: Tree, sets: map<string, Info>, cfg: Config, t: nat, round: Round, path: seq<nat>)
    requires FairRound(root, sets, cfg, t, round) && cfg.prune(t).None?
    requires Leads(root, path) && NodeAt(root, path).Decision?
    ensures Met(root, round, NodeAt(root, path).infoset)
  {
    hide Legal, Reached, Whole;
    PruningOffIsWhole(Pass(cfg, t, 0, sets, round.sigma), root, round.CutOf(0));
    WholeReaches(root, path);
  }

  /**
   * What the averaged strategy is for: at every information set a distribution, in proportion to how often the
   * player took each action there, the iterations weighted as the variant has it, whatever was pruned or floored
   * along the way.
   */
  lemma AverageIsWeightedMean(root: Tree, sets: map<string, Info>, cfg: Config, table: Table, rounds: seq<Round>,
      I: string)
    requires Sound(root, sets, cfg, table, rounds) && KeepsAveragePositive(cfg)
    requires Consistent(root, sets) && GoodSets(sets) && I in table
    ensures var sums := table[I].strategySum;
            && Distribution(Normalised(sums))
            && (forall a :: 0 <= a < |sums| ==>
                  Times(Sum(sums, |sums|), Normalised(sums)[a])
                      == MeanSum(root, sets, cfg, rounds, I, a, |rounds|))
            && (!cfg.variant.Dcfr? ==> forall a :: 0 <= a < |sums| ==>
                  Times(Sum(sums, |sums|), Normalised(sums)[a]) == Accumulated(Average, root, sets, cfg, rounds, I, a))
  {
    hide Accumulated, Distribution, Potential, Faded, MeanSum, KeepsFloor;
    var sums := table[I].strategySum;
    assert SoundAt(root, sets, cfg, table, rounds, I) && TotalOf(Average, table, sets, I) == sums;
    NormalisedIsDistribution(sums);
    forall a: nat | a < |sums|
      ensures Times(Sum(sums, |sums|), Normalised(sums)[a]) == sums[a]
      ensures sums[a] == MeanSum(root, sets, cfg, rounds, I, a, |rounds|)
    {
      NormalisedIsProportional(sums, a);
      FadedIsMean(root, sets, cfg, rounds, I, a);
    }
  }

  class Solver {
    const cfg: Config
    ghost const sets: map<string, Info>
    var table: Table
    var iterations: nat
    var stats: SolveStats

    constructor (cfg: Config, ghost sets: map<string, Info>)
      ensures this.cfg == cfg && this.sets == sets && table == map[] && iterations == 0 && stats == SolveStats(0, 0)
    {
      this.cfg, this.sets := cfg, sets;
      table, iterations, stats := map[], 0, SolveStats(0, 0);
    }

    method PrepareNode(node: Node, t: nat) returns (ready: Node)
      requires Sized(node, |node.regretSum|)
      ensures ready == Prepared(node, cfg, t) && Prepares(cfg, t, node, ready)
    {
      PreparedPrepares(node, cfg, t);
      if node.curIter == t {
        return node;
      }
      var n := |node.regretSum|;
      var last := if cfg.momentum.Some? then node.thisInstant else node.lastInstant;
      var regrets, strategies := node.regretSum, node.strategySum;
      if cfg.variant.Dcfr? {
        regrets := Discounted(regrets, cfg.variant.factors(t));
        if t > 1 {
          strategies := Shrunk(strategies, cfg.variant.factors(t).strat);
        }
      }
      var out := new real[n];
      if cfg.momentum.Some? {
        RegretMatching(Predicted(regrets, last, cfg.momentum.value(t)), out);
      } else {
        RegretMatching(regrets, out);
      }
      ready := Node(regrets, strategies, out[..], Zeros(n), last, t);
    }

    method UpdateNode(node: Node, t: Tree, reach: Reach, utils: seq<real>, nodeUtil: real, pruned: seq<bool>, iter: nat,
        ghost P: Pass, ghost cuts: seq<Option<Cut>>)
      returns (updated: Node)
      requires t.Decision? && P.cfg == cfg && P.iter == iter
      requires Sized(node, |t.children|) && |utils| == |pruned| == |cuts| == |t.children|
      requires node.curStrategy == StrategyFor(P.sigma, t.infoset, |t.children|)
      requires nodeUtil == Value(P, t)
      requires forall i :: 0 <= i < |cuts| ==> pruned[i] == cuts[i].None?
      requires forall i :: 0 <= i < |utils| && !pruned[i] ==> utils[i] == Value(P, t.children[i])
      ensures Updates(P, t, reach, node, updated, cuts)
    {
      hide Value, StrategyFor;
      var cf, own := reach.Counterfactual(t.player), reach.Own(t.player);
      var rc := if cfg.variant.Linear? then iter as real else 1.0;
      var sc := if cfg.variant.CfrPlus? || cfg.variant.Linear? then iter as real else 1.0;
      updated := node;
      for i := 0 to |t.children|
        invariant Sized(updated, |t.children|)
        invariant updated.curStrategy == node.curStrategy && updated.curIter == node.curIter
        invariant updated.lastInstant == node.lastInstant
        invariant forall j :: 0 <= j < |t.children| && (j >= i || pruned[j]) ==>
                    updated.regretSum[j] == node.regretSum[j] && updated.strategySum[j] == node.strategySum[j]
                        && updated.thisInstant[j] == node.thisInstant[j]
        invariant forall j :: 0 <= j < i && !pruned[j] ==>
                    && updated.regretSum[j] == Floored(cfg, node.regretSum[j] + OwnIncrement(Regret, P, t, j, reach))
                    && updated.strategySum[j] == node.strategySum[j] + OwnIncrement(Average, P, t, j, reach)
                    && updated.thisInstant[j] == node.thisInstant[j] + OwnIncrement(Instant, P, t, j, reach)
      {
        if !pruned[i] {
          var inc := Times(Times(rc, cf), utils[i] - nodeUtil);
          var regret := updated.regretSum[i] + inc;
          if cfg.variant.CfrPlus? && regret < 0.0 {
            regret := 0.0;
          }
          updated := updated.(regretSum := updated.regretSum[i := regret]);
          if cfg.momentum.Some? {
            updated := updated.(thisInstant := updated.thisInstant[i := updated.thisInstant[i] + inc]);
          }
          updated := updated.(strategySum := updated.strategySum[i := updated.strategySum[i]
                                + Times(Times(sc, own), node.curStrategy[i])]);
        }
      }
    }

    /** Fetch or create the node and prepare it: one strategy per information set and iteration. */
    method Enter(t: Tree, iter: nat, ghost P: Pass, ghost reach: Reach) returns (ghost view: Table)
      requires t.Decision? && Consistent(t, sets) && InPass(P, table)
      requires P.cfg == cfg && P.iter == iter && P.sets == sets
      modifies this`table
      ensures AfterAmong(P, old(table), table, t, reach, [])
      ensures view == ViewOf(P, table) == ViewOf(P, old(table))
      ensures Visited(table, t.infoset, iter) && Sized(table[t.infoset], |t.children|)
      ensures t.infoset in view && table[t.infoset] == view[t.infoset]
      ensures NodeWeights(t, P.tr, P.sigma, P.sigma) == table[t.infoset].curStrategy
              == StrategyFor(P.sigma, t.infoset, |t.children|)
    {
      hide View, Rows, AfterAmong, Prepared, Prepares, NodeWeights;
      PreparingKeepsView(table, sets, cfg, iter, t.infoset);
      var node := if t.infoset in table then table[t.infoset] else NewNode(|t.children|);
      node := PrepareNode(node, iter);
      table := table[t.infoset := node];
      view := ViewOf(P, table);
      PassStarts(P, old(table), table, t, reach);
      EnteredNode(P, table, t);
    }

    method CfrRec(t: Tree, reach: Reach, tr: nat, iter: nat, ghost P: Pass) returns (util: real, ghost cut: Cut)
      requires Consistent(t, sets) && InPass(P, table)
      requires P.cfg == cfg && P.iter == iter && P.sets == sets && P.tr == tr
      modifies this`table, this`stats
      ensures After(P, old(table), table, t, reach, cut)
      ensures util == Value(P, t) == Expected(t, tr, P.sigma, P.sigma)
      ensures stats == old(stats).Plus(Visits(tr, t, cut))
      ensures t.Decision? && t.player == tr ==> PrunedExactly(P, ViewOf(P, old(table)), t, cut.kept)
      decreases t, 2
    {
      hide After, AfterAmong, InPass, View, Rows, Value, NodeWeights, Consistent, Fits, PrunedExactly, VisitsAmong,
        Legal, LegalAmong, StrategyFor, ViewOf, Expected;
      PassBegins(P, table, t, reach);
      NothingVisited(tr, t);
      NodeSummary(P, t);
      UtilityIsExpected(t, tr, P.sigma, P.sigma);
      if t.Terminal? {
        return Payoff(t, tr), Cut([]);
      }
      if t.Decision? && t.player == tr {
        util, cut := Traverse(t, reach, tr, iter, P);
        return;
      }
      var ws: seq<real>;
      if t.Chance? {
        ws := NodeWeights(t, tr, map[], map[]);
      } else {
        var _ := Enter(t, iter, P, reach);
        ws := table[t.infoset].curStrategy;
      }
      util := 0.0;
      ghost var cuts := [];
      for i := 0 to |t.children|
        invariant |cuts| == i && AfterAmong(P, old(table), table, t, reach, cuts)
        invariant util == Dot(ws, Utilities(t.children, tr, P.sigma, P.sigma), i)
        invariant stats == old(stats).Plus(VisitsAmong(tr, t, cuts))
      {
        var r := if t.Chance? then reach.(chance := Times(reach.chance, ws[i])) else reach.Scale(t.player, ws[i]);
        var u;
        u, cuts := Descend(t, reach, i, r, tr, iter, P, old(table), cuts, old(stats));
        util := util + Times(ws[i], u);
      }
      VisitsOf(tr, t, cuts);
      cut := Cut(cuts);
      PassLeaves(P, old(table), table, t, reach, cuts);
    }

    /** One recursive call, seen from the node it descends from. */
    method Descend(t: Tree, ghost reach: Reach, i: nat, r: Reach, tr: nat, iter: nat, ghost P: Pass, ghost was: Table,
        ghost cuts: seq<Option<Cut>>, ghost base: SolveStats)
      returns (u: real, ghost grown: seq<Option<Cut>>)
      requires !t.Terminal? && i < |t.children| && Consistent(t.children[i], sets) && |cuts| == i
      requires P.cfg == cfg && P.iter == iter && P.sets == sets && P.tr == tr
      requires r == ChildReach(P, t, reach, i)
      requires AfterAmong(P, was, table, t, reach, cuts)
      requires stats == base.Plus(VisitsAmong(tr, t, cuts)).Plus(Looked(tr, t))
      modifies this`table, this`stats
      ensures |grown| == i + 1 && grown[..i] == cuts && grown[i].Some?
      ensures AfterAmong(P, was, table, t, reach, grown)
      ensures t.Decision? && Visited(old(table), t.infoset, iter) ==> Visited(table, t.infoset, iter)
      ensures u == Utility(t.children[i], tr, P.sigma, P.sigma)
      ensures stats == base.Plus(VisitsAmong(tr, t, grown))
      decreases t, 0
    {
      PassIsUnderWay(P, was, table, t, reach, cuts);
      hide After, AfterAmong, Consistent, ChildReach, InPass, Utility, Looked, Visited, VisitsAmong, Visits,
        SolveStats.Plus;
      ghost var cut;
      u, cut := CfrRec(t.children[i], r, tr, iter, P);
      grown := cuts + [Some(cut)];
      PassContinues(P, was, old(table), table, t, reach, cuts, cut);
      PassKeepsVisited(P, old(table), table, t.children[i], r, cut);
      VisitsGrow(base, tr, t, cuts, cut);
    }

    /** The traverser's own node: evaluate, prune, then update the accumulators. */
    method Traverse(t: Tree, reach: Reach, tr: nat, iter: nat, ghost P: Pass) returns (nodeUtil: real, ghost cut: Cut)
      requires Consistent(t, sets) && t.Decision? && t.player == tr && InPass(P, table)
      requires P.cfg == cfg && P.iter == iter && P.sets == sets && P.tr == tr
      modifies this`table, this`stats
      ensures After(P, old(table), table, t, reach, cut)
      ensures nodeUtil == Value(P, t)
      ensures stats == old(stats).Plus(Visits(tr, t, cut))
      ensures PrunedExactly(P, ViewOf(P, old(table)), t, cut.kept)
      decreases t, 1, 2
    {
      hide After, AfterAmong, InPass, View, Rows, NodeWeights, Consistent, Fits, Updates, Utility, VisitsAmong,
          PrunedExactly,
        Legal, LegalAmong, StrategyFor, Visits, ViewOf;
      NodeSummary(P, t);
      NothingVisited(tr, t);
      ghost var view := Enter(t, iter, P, reach);
      var node := table[t.infoset];
      var util, pruned;
      ghost var cuts;
      nodeUtil, util, pruned, cuts :=
          Evaluate(t, reach, tr, iter, node.curStrategy, node.regretSum, P, old(table), view);
      VisitsOf(tr, t, cuts);
      cut := Cut(cuts);
      Finish(t, reach, iter, P, util, nodeUtil, pruned, old(table), cuts);
    }

    /** Every action of the traverser's node in turn: pruned, or evaluated below. */
    method Evaluate(t: Tree, reach: Reach, tr: nat, iter: nat, sigma: seq<real>, snapshot: seq<real>, ghost P: Pass,
        ghost was: Table, ghost view: Table)
      returns (nodeUtil: real, util: seq<real>, pruned: seq<bool>, ghost cuts: seq<Option<Cut>>)
      requires Consistent(t, sets) && t.Decision? && t.player == tr
      requires P.cfg == cfg && P.iter == iter && P.sets == sets && P.tr == tr
      requires AfterAmong(P, was, table, t, reach, []) && Visited(table, t.infoset, iter)
      requires Shows(view, t, sigma, snapshot) && sigma == NodeWeights(t, P.tr, P.sigma, P.sigma)
      modifies this`table, this`stats
      ensures |util| == |pruned| == |cuts| == |t.children|
      ensures AfterAmong(P, was, table, t, reach, cuts) && Visited(table, t.infoset, iter)
      ensures forall i :: 0 <= i < |cuts| ==> pruned[i] == cuts[i].None?
      ensures forall i :: 0 <= i < |util| && !pruned[i] ==> util[i] == Value(P, t.children[i])
      ensures nodeUtil == Value(P, t)
      ensures stats == old(stats).Plus(VisitsAmong(tr, t, cuts))
      ensures PrunedExactly(P, view, t, cuts)
      decreases t, 1, 1
    {
      hide After, AfterAmong, Visited, NodeWeights, Consistent, Utility, VisitsAmong, PrunedExactly;
      NodeSummary(P, t);
      NothingVisited(tr, t);
      NothingPruned(P, view, t);
      var n := |t.children|;
      util, pruned := Zeros(n), seq(n, _ => false);
      nodeUtil := 0.0;
      cuts := [];
      for i := 0 to n
        invariant |cuts| == i && AfterAmong(P, was, table, t, reach, cuts) && Visited(table, t.infoset, iter)
        invariant |util| == |pruned| == n
        invariant forall j :: 0 <= j < i ==> pruned[j] == cuts[j].None?
        invariant forall j :: 0 <= j < i && !pruned[j] ==> util[j] == Value(P, t.children[j])
        invariant forall j :: i <= j < n ==> !pruned[j]
        invariant PrunedExactly(P, view, t, cuts)
        invariant nodeUtil == Dot(sigma, Utilities(t.children, tr, P.sigma, P.sigma), i)
        invariant stats == old(stats).Plus(VisitsAmong(tr, t, cuts))
      {
        var skip, u;
        skip, u, cuts := Consider(t, reach, i, tr, iter, sigma, snapshot, P, was, view, cuts, old(stats));
        if skip {
          pruned := pruned[i := true];
          ZeroTimes(Utility(t.children[i], tr, P.sigma, P.sigma));
        } else {
          util := util[i := u];
          nodeUtil := nodeUtil + Times(sigma[i], u);
        }
      }
    }

    method Consider(t: Tree, reach: Reach, i: nat, tr: nat, iter: nat, sigma: seq<real>, snapshot: seq<real>,
        ghost P: Pass, ghost was: Table, ghost view: Table, ghost cuts: seq<Option<Cut>>, ghost base: SolveStats)
      returns (skip: bool, u: real, ghost grown: seq<Option<Cut>>)
      requires Consistent(t, sets) && t.Decision? && t.player == tr && |cuts| == i < |t.children|
      requires P.cfg == cfg && P.iter == iter && P.sets == sets && P.tr == tr
      requires AfterAmong(P, was, table, t, reach, cuts) && Visited(table, t.infoset, iter)
      requires Shows(view, t, sigma, snapshot) && sigma == NodeWeights(t, P.tr, P.sigma, P.sigma)
      requires PrunedExactly(P, view, t, cuts) && stats == base.Plus(VisitsAmong(tr, t, cuts))
      modifies this`table, this`stats
      ensures |grown| == i + 1 && grown[..i] == cuts && skip == grown[i].None?
      ensures AfterAmong(P, was, table, t, reach, grown) && Visited(table, t.infoset, iter)
      ensures if skip then sigma[i] == 0.0 else u == Value(P, t.children[i])
      ensures PrunedExactly(P, view, t, grown) && stats == base.Plus(VisitsAmong(tr, t, grown))
      decreases t, 1, 0
    {
      hide After, AfterAmong, Visited, NodeWeights, Consistent, Utility, VisitsAmong, PrunedExactly, ChildReach,
          Prunable,
        LegalAmong, Reach.Scale;
      NodeSummary(P, t);
      TraverserChildren(P, t, reach);
      stats := stats.(actionVisits := stats.actionVisits + 1);
      var threshold := cfg.prune(iter);
      skip := threshold.Some? && sigma[i] == 0.0 && snapshot[i] < threshold.value;
      if skip {
        stats := stats.(prunedVisits := stats.prunedVisits + 1);
        PassSkips(P, was, table, t, reach, cuts);
        VisitsSkip(tr, t, cuts);
        grown := cuts + [None];
        u := 0.0;
      } else {
        u, grown := Descend(t, reach, i, reach.Scale(t.player, sigma[i]), tr, iter, P, was, cuts, base);
        assert grown == cuts + [grown[i]];
      }
      PrunedGrows(P, view, t, cuts, grown[i]);
    }

    method Finish(t: Tree, reach: Reach, iter: nat, ghost P: Pass, util: seq<real>, nodeUtil: real, pruned: seq<bool>,
        ghost was: Table, ghost cuts: seq<Option<Cut>>)
      requires t.Decision? && t.player == P.tr && Consistent(t, sets)
      requires P.cfg == cfg && P.iter == iter && P.sets == sets
      requires |util| == |pruned| == |cuts| == |t.children| && nodeUtil == Value(P, t)
      requires AfterAmong(P, was, table, t, reach, cuts) && Visited(table, t.infoset, iter)
      requires forall i :: 0 <= i < |cuts| ==> pruned[i] == cuts[i].None?
      requires forall i :: 0 <= i < |util| && !pruned[i] ==> util[i] == Value(P, t.children[i])
      modifies this`table
      ensures After(P, was, table, t, reach, Cut(cuts))
    {
      hide After, Step, StepAmong, View, Rows, NodeWeights, Consistent, Fits, Updates, Value;
      EnteredNode(P, table, t);
      var node := UpdateNode(table[t.infoset], t, reach, util, nodeUtil, pruned, iter, P, cuts);
      PassUpdates(P, was, table, node, cuts, t, reach);
      table := table[t.infoset := node];
    }

    /** One iteration: a pass for each player, both under the strategies of the same regrets. */
    method Iterate(root: Tree, ghost rounds: seq<Round>) returns (ghost round: Round)
      requires Consistent(root, sets) && GoodSets(sets)
      requires Fits(table, sets) && Sound(root, sets, cfg, table, rounds) && |rounds| == iterations
      modifies this
      ensures iterations == old(iterations) + 1
      ensures round.sigma == Rows(View(old(table), sets, cfg, iterations))
      ensures Sound(root, sets, cfg, table, rounds + [round])
      ensures stats == old(stats).Plus(Visits(0, root, round.cut0)).Plus(Visits(1, root, round.cut1))
    {
      hide View, Rows, After, Sound, Visits, Consistent, Iteration.Ran;
      iterations := iterations + 1;
      ghost var sigma := Rows(View(table, sets, cfg, iterations));
      ghost var P0, start := Pass(cfg, iterations, 0, sets, sigma), table;
      var _, cut0 := CfrRec(root, FULL_REACH, 0, iterations, P0);
      ghost var mid := table;
      SecondPass(P0, P0.(tr := 1), start, mid, root, cut0);
      var _, cut1 := CfrRec(root, FULL_REACH, 1, iterations, P0.(tr := 1));
      round := Round(sigma, cut0, cut1);
      IterationRan(root, Iteration(P0, start, mid, table, round), rounds);
      IterationIsSound(root, Iteration(P0, start, mid, table, round), rounds);
    }

    method Train(root: Tree, iters: nat, ghost before: seq<Round>) returns (ghost rounds: seq<Round>)
      requires Consistent(root, sets) && GoodSets(sets) && Sound(root, sets, cfg, table, before)
      requires |before| == iterations
      modifies this
      ensures iterations == old(iterations) + iters == |rounds| && before <= rounds
      ensures Sound(root, sets, cfg, table, rounds)
    {
      hide Consistent;
      rounds := before;
      for i := 0 to iters
        invariant iterations == old(iterations) + i == |rounds| && before <= rounds
        invariant Sound(root, sets, cfg, table, rounds)
      {
        ghost var round := Iterate(root, rounds);
        rounds := rounds + [round];
      }
    }

    /** The time-averaged strategy of every information set discovered. */
    method AverageStrategy(ghost root: Tree, ghost rounds: seq<Round>) returns (averages: Strategy)
      requires Consistent(root, sets) && GoodSets(sets) && KeepsAveragePositive(cfg)
      requires Sound(root, sets, cfg, table, rounds)
      ensures averages.Keys == table.Keys && Profile(averages)
      ensures forall I :: I in table ==> |averages[I]| == sets[I].arity
      ensures forall I, a :: I in table && 0 <= a < sets[I].arity ==>
                Times(Sum(table[I].strategySum, sets[I].arity), averages[I][a])
                    == MeanSum(root, sets, cfg, rounds, I, a, |rounds|)
      ensures !cfg.variant.Dcfr? ==> forall I, a :: I in table && 0 <= a < sets[I].arity ==>
                Times(Sum(table[I].strategySum, sets[I].arity), averages[I][a])
                    == Accumulated(Average, root, sets, cfg, rounds, I, a)
      ensures forall I :: I in table && Sum(table[I].strategySum, sets[I].arity) == 0.0 ==>
              averages[I] == Uniform(sets[I].arity)
    {
      hide SoundAt, FairRound, Accumulated, Distribution, MeanSum, Consistent;
      averages := map[];
      var left := table.Keys;
      while left != {}
        invariant left <= table.Keys && averages.Keys == table.Keys - left
        invariant forall I :: I in averages ==> averages[I] == Normalised(table[I].strategySum)
      {
        var I :| I in left;
        var sums := table[I].strategySum;
        var sum, n := 0.0, |sums|;
        for i := 0 to n
          invariant sum == Sum(sums, i)
        {
          sum := sum + sums[i];
        }
        averages := averages[I := if sum > 0.0 then seq(n, i requires 0 <= i < n => sums[i] / sum) else Uniform(n)];
        left := left - {I};
      }
      forall I | I in table
        ensures |table[I].strategySum| == sets[I].arity && Distribution(averages[I])
        ensures forall a :: 0 <= a < sets[I].arity ==>
                  Times(Sum(table[I].strategySum, sets[I].arity), averages[I][a])
                      == MeanSum(root, sets, cfg, rounds, I, a, |rounds|)
        ensures !cfg.variant.Dcfr? ==> forall a :: 0 <= a < sets[I].arity ==>
                  Times(Sum(table[I].strategySum, sets[I].arity), averages[I][a])
                      == Accumulated(Average, root, sets, cfg, rounds, I, a)
      {
        AverageIsWeightedMean(root, sets, cfg, table, rounds, I);
      }
    }
  }
}
