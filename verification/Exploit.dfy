// Exact best response and exploitability (crates/poker-darwin/src/exploit.rs).
// The responder commits to one action per information set; information sets are
// resolved deepest-first while `Value` fills a memo keyed by the full state key.
module Exploit {
  import opened Reals
  import opened Game
  import opened Paths
  import opened Wrappers

  /** One past choice of the responder: which of `count` actions it took at `infoset`. */
  datatype Move = Move(infoset: string, count: nat, action: nat)

  /** A history collected for an information set, with opponent-and-chance reach and depth. */
  datatype Entry = Entry(node: Tree, reach: real, depth: nat)

  /**
   * What the `Game` conventions promise about one player's information sets: a common
   * action count, a common depth, one past (perfect recall), and unique state keys.
   */
  datatype Layout = Layout(
    arity: map<string, nat>,
    depth: map<string, nat>,
    past: map<string, seq<Move>>,
    nodeAt: map<string, Tree>)

  ghost predicate Respects(t: Tree, p: nat, L: Layout, d: nat, s: seq<Move>) {
    match t
    case Terminal(_, _) => true
    case Chance(key, _, cs) =>
      && key in L.nodeAt && L.nodeAt[key] == t
      && forall i :: 0 <= i < |cs| ==> Respects(cs[i], p, L, d + 1, s)
    case Decision(key, q, I, cs) =>
      && key in L.nodeAt && L.nodeAt[key] == t
      && (q == p ==>
            && I in L.arity && L.arity[I] == |cs| > 0
            && I in L.depth && L.depth[I] == d
            && I in L.past && L.past[I] == s)
      && forall i :: 0 <= i < |cs| ==>
           Respects(cs[i], p, L, d + 1, Extended(t, p, s, i))
  }

  /** The responder's past after the move to child `i`. */
  function Extended(t: Tree, p: nat, s: seq<Move>, i: nat): seq<Move>
    requires !t.Terminal?
  {
    if t.Decision? && t.player == p then s + [Move(t.infoset, |t.children|, i)] else s
  }

  function OwnInfosets(t: Tree, p: nat): set<string> {
    match t
    case Terminal(_, _) => {}
    case Chance(_, _, cs) => set i, k | 0 <= i < |cs| && k in OwnInfosets(cs[i], p) :: k
    case Decision(_, q, I, cs) =>
      (if q == p then {I} else {}) + set i, k | 0 <= i < |cs| && k in OwnInfosets(cs[i], p) :: k
  }

  lemma {:induction false} InfosetsLieBelow(t: Tree, p: nat, L: Layout, d: nat, s: seq<Move>)
    requires Respects(t, p, L, d, s)
    ensures forall I :: I in OwnInfosets(t, p) ==> I in L.arity && I in L.depth && L.depth[I] >= d && I in L.past
  {
    if !t.Terminal? {
      forall i | 0 <= i < |t.children|
        ensures forall I :: I in OwnInfosets(t.children[i], p) ==>
                I in L.arity && I in L.depth && L.depth[I] > d && I in L.past
      {
        InfosetsLieBelow(t.children[i], p, L, d + 1,
                         Extended(t, p, s, i));
      }
    }
  }

  ghost predicate AgreeOn(a: Strategy, b: Strategy, I: string) {
    (I in a <==> I in b) && (I in a ==> a[I] == b[I])
  }

  /** Only the rows of information sets inside a subtree matter to its value. */
  lemma {:induction false} UtilityIsLocal(t: Tree, p: nat, a: Strategy, b: Strategy, theirs: Strategy)
    requires forall I :: I in OwnInfosets(t, p) ==> AgreeOn(a, b, I)
    ensures Utility(t, p, a, theirs) == Utility(t, p, b, theirs)
  {
    if !t.Terminal? {
      forall i | 0 <= i < |t.children|
        ensures Utility(t.children[i], p, a, theirs) == Utility(t.children[i], p, b, theirs)
      {
        UtilityIsLocal(t.children[i], p, a, b, theirs);
      }
      assert Utilities(t.children, p, a, theirs) == Utilities(t.children, p, b, theirs);
      assert NodeWeights(t, p, a, theirs) == NodeWeights(t, p, b, theirs) by {
        if t.Decision? && t.player == p {
          assert AgreeOn(a, b, t.infoset);
        }
      }
    }
  }

  // ---------------------------------------------------------------- collected histories

  /**
   * The reach passed to each child. `collect` lets the responder's own choices contribute
   * a factor of 1 (`own` is None); with Some(row table) they contribute their probability.
   */
  function ChildReach(t: Tree, p: nat, own: Option<Strategy>, avg: Strategy, reach: real): (rs: seq<real>)
    requires !t.Terminal?
    ensures |rs| == |t.children|
  {
    if t.Decision? && t.player == p && own.None? then seq(|t.children|, _ => reach)
    else
      var ws := NodeWeights(t, p, own.GetOr(map[]), avg);
      seq(|t.children|, i requires 0 <= i < |t.children| => Times(reach, ws[i]))
  }

  /** The histories of information set `I` below `t`, in traversal order. */
  function Histories(t: Tree, p: nat, own: Option<Strategy>, avg: Strategy, I: string, reach: real, d: nat): seq<Entry>
  {
    if t.Terminal? then [] else
    (if t.Decision? && t.player == p && t.infoset == I then [Entry(t, reach, d)] else [])
    + HistoriesAmong(t.children, p, own, avg, I, ChildReach(t, p, own, avg, reach), d + 1, |t.children|)
  }

  function HistoriesAmong(ts: seq<Tree>, p: nat, own: Option<Strategy>, avg: Strategy, I: string, rs: seq<real>, d: nat,
      n: nat): seq<Entry>
    requires n <= |ts| == |rs|
    decreases ts, n
  {
    if n == 0 then [] else
    HistoriesAmong(ts, p, own, avg, I, rs, d, n - 1) + Histories(ts[n - 1], p, own, avg, I, rs[n - 1], d)
  }

  ghost predicate AtInfoset(e: Entry, p: nat, L: Layout, I: string) {
    && e.node.Decision? && e.node.player == p && e.node.infoset == I
    && I in L.depth && I in L.past && I in L.arity
    && e.depth == L.depth[I] && |e.node.children| == L.arity[I]
    && Respects(e.node, p, L, L.depth[I], L.past[I])
  }

  lemma {:induction false} HistoriesAreAtInfoset(t: Tree, p: nat, own: Option<Strategy>, avg: Strategy, I: string,
      reach: real, L: Layout, d: nat, s: seq<Move>)
    requires Respects(t, p, L, d, s)
    ensures forall e :: e in Histories(t, p, own, avg, I, reach, d) ==> AtInfoset(e, p, L, I)
    ensures I !in OwnInfosets(t, p) ==> Histories(t, p, own, avg, I, reach, d) == []
    decreases t, 0
  {
    if !t.Terminal? {
      HistoriesAmongAreAtInfoset(t, p, own, avg, I, ChildReach(t, p, own, avg, reach), L, d, s, |t.children|);
    }
  }

  lemma {:induction false} HistoriesAmongAreAtInfoset(t: Tree, p: nat, own: Option<Strategy>, avg: Strategy, I: string,
      rs: seq<real>, L: Layout, d: nat, s: seq<Move>, n: nat)
    requires Respects(t, p, L, d, s) && !t.Terminal?
    requires n <= |t.children| == |rs|
    ensures forall e :: e in HistoriesAmong(t.children, p, own, avg, I, rs, d + 1, n) ==> AtInfoset(e, p, L, I)
    ensures I !in OwnInfosets(t, p) ==> HistoriesAmong(t.children, p, own, avg, I, rs, d + 1, n) == []
    decreases t.children, n
  {
    if n > 0 {
      HistoriesAmongAreAtInfoset(t, p, own, avg, I, rs, L, d, s, n - 1);
      HistoriesAreAtInfoset(t.children[n - 1], p, own, avg, I, rs[n - 1], L, d + 1,
                            Extended(t, p, s, n - 1));
    }
  }

  // ---------------------------------------------------------------- collected histories are paths

  /** The history at the end of a path: the node there, how often it is reached, and how deep it lies. */
  ghost function EntryAt(t: Tree, path: seq<nat>, p: nat, own: Option<Strategy>, avg: Strategy, reach: real,
      d: nat): Entry
    requires Leads(t, path)
  {
    var mine := if own.Some? then PlayProb(t, path, p, true, own.value) else 1.0;
    Entry(NodeAt(t, path), Times(reach, Times(ChanceProb(t, path), Times(mine, PlayProb(t, path, p, false, avg)))),
          d + |path|)
  }

  ghost predicate AreEntries(es: seq<Entry>, t: Tree, paths: seq<seq<nat>>, p: nat, own: Option<Strategy>,
      avg: Strategy, reach: real, d: nat)
  {
    |es| == |paths| && forall k :: 0 <= k < |es| ==>
      Leads(t, paths[k]) && es[k] == EntryAt(t, paths[k], p, own, avg, reach, d)
  }

  lemma EntryStep(t: Tree, i: nat, path: seq<nat>, p: nat, own: Option<Strategy>, avg: Strategy, reach: real, d: nat)
    requires !t.Terminal? && i < |t.children| && Leads(t.children[i], path)
    ensures Leads(t, [i] + path)
    ensures EntryAt(t, [i] + path, p, own, avg, reach, d)
         == EntryAt(t.children[i], path, p, own, avg, ChildReach(t, p, own, avg, reach)[i], d + 1)
  {
    StepLeads(t, i, path);
    assert ([i] + path)[1..] == path;
    var child := t.children[i];
    var mine := if own.Some? then PlayProb(child, path, p, true, own.value) else 1.0;
    FactorIn(reach, First(t, p, own.GetOr(map[]), avg, i), ChanceProb(child, path), mine,
             PlayProb(child, path, p, false, avg));
  }

  lemma FactorIn(r: real, w: real, c: real, m: real, h: real)
    ensures Times(r, Times(Times(w, c), Times(m, h))) == Times(Times(r, w), Times(c, Times(m, h)))
    ensures Times(r, Times(c, Times(Times(w, m), h))) == Times(Times(r, w), Times(c, Times(m, h)))
    ensures Times(r, Times(c, Times(m, Times(w, h)))) == Times(Times(r, w), Times(c, Times(m, h)))
    ensures Times(r, Times(0.0, Times(m, h))) == Times(Times(r, 0.0), Times(c, Times(m, h)))
  {
    var x := m * h;
    assert r * ((w * c) * x) == (r * w) * (c * x);
    assert (w * m) * h == w * x && m * (w * h) == w * x;
    assert r * (c * (w * x)) == (r * w) * (c * x);
  }

  /**
   * The collected histories of an information set are all the paths to it, in the order of the traversal. Each is
   * reached as often as chance and the opponent allow: the product of the chance probabilities and of the opponent's
   * on the way, and, where the responder's own moves count, of his too.
   */
  lemma {:induction false} HistoriesArePaths(t: Tree, p: nat, own: Option<Strategy>, avg: Strategy, I: string,
      reach: real, d: nat)
    ensures AreEntries(Histories(t, p, own, avg, I, reach, d), t, PathsTo(t, At(p, I)), p, own, avg, reach, d)
    decreases t, 0
  {
    hide EntryAt, AreEntries, HistoriesAmong, PathsAmong, ChildReach, Leads;
    NoEntries(t, p, own, avg, reach, d);
    if t.Terminal? {
      assert PathsTo(t, At(p, I)) == [] && Histories(t, p, own, avg, I, reach, d) == [];
    } else {
      var none: seq<nat> := [];
      var here := if Hits(t, At(p, I)) then [Entry(t, reach, d)] else [];
      var ways := if Hits(t, At(p, I)) then [none] else [];
      EntryHere(t, p, own, avg, reach, d);
      AmongArePaths(t, p, own, avg, I, reach, d, |t.children|);
      EntriesConcat(here, HistoriesAmong(t.children, p, own, avg, I, ChildReach(t, p, own, avg, reach), d + 1,
                                         |t.children|), t,
                    ways, PathsAmong(t.children, At(p, I), |t.children|), p, own, avg, reach, d);
      assert PathsTo(t, At(p, I)) == ways + PathsAmong(t.children, At(p, I), |t.children|);
      assert Histories(t, p, own, avg, I, reach, d)
          == here + HistoriesAmong(t.children, p, own, avg, I, ChildReach(t, p, own, avg, reach), d + 1, |t.children|);
    }
  }

  lemma EntryHere(t: Tree, p: nat, own: Option<Strategy>, avg: Strategy, reach: real, d: nat)
    ensures var none: seq<nat> := []; AreEntries([Entry(t, reach, d)], t, [none], p, own, avg, reach, d)
  {
    var none: seq<nat> := [];
    assert EntryAt(t, none, p, own, avg, reach, d) == Entry(t, reach, d);
  }

  lemma {:induction false} AmongArePaths(t: Tree, p: nat, own: Option<Strategy>, avg: Strategy, I: string, reach: real,
      d: nat, n: nat)
    requires !t.Terminal? && n <= |t.children|
    ensures AreEntries(HistoriesAmong(t.children, p, own, avg, I, ChildReach(t, p, own, avg, reach), d + 1, n), t,
                       PathsAmong(t.children, At(p, I), n), p, own, avg, reach, d)
    decreases t.children, n
  {
    hide EntryAt, ChildReach, Histories, PathsTo, AreEntries;
    if n == 0 {
      NoEntries(t, p, own, avg, reach, d);
    } else {
      var k := n - 1;
      var rs := ChildReach(t, p, own, avg, reach);
      AmongArePaths(t, p, own, avg, I, reach, d, k);
      HistoriesArePaths(t.children[k], p, own, avg, I, rs[k], d + 1);
      var here, paths := Histories(t.children[k], p, own, avg, I, rs[k], d + 1), PathsTo(t.children[k], At(p, I));
      EntriesStep(here, t, k, paths, p, own, avg, reach, d);
      EntriesConcat(HistoriesAmong(t.children, p, own, avg, I, rs, d + 1, k), here, t,
                    PathsAmong(t.children, At(p, I), k), Stepped(k, paths), p, own, avg, reach, d);
    }
  }

  lemma NoEntries(t: Tree, p: nat, own: Option<Strategy>, avg: Strategy, reach: real, d: nat)
    ensures AreEntries([], t, [], p, own, avg, reach, d)
  {
  }

  lemma EntriesStep(es: seq<Entry>, t: Tree, i: nat, paths: seq<seq<nat>>, p: nat, own: Option<Strategy>,
      avg: Strategy, reach: real, d: nat)
    requires !t.Terminal? && i < |t.children|
    requires AreEntries(es, t.children[i], paths, p, own, avg, ChildReach(t, p, own, avg, reach)[i], d + 1)
    ensures AreEntries(es, t, Stepped(i, paths), p, own, avg, reach, d)
  {
    hide EntryAt, ChildReach;
    forall j | 0 <= j < |es|
      ensures Leads(t, Stepped(i, paths)[j]) && es[j] == EntryAt(t, Stepped(i, paths)[j], p, own, avg, reach, d)
    {
      EntryStep(t, i, paths[j], p, own, avg, reach, d);
    }
  }

  lemma EntriesConcat(es: seq<Entry>, fs: seq<Entry>, t: Tree, xs: seq<seq<nat>>, ys: seq<seq<nat>>, p: nat,
      own: Option<Strategy>, avg: Strategy, reach: real, d: nat)
    requires AreEntries(es, t, xs, p, own, avg, reach, d) && AreEntries(fs, t, ys, p, own, avg, reach, d)
    ensures AreEntries(es + fs, t, xs + ys, p, own, avg, reach, d)
  {
    hide EntryAt, Leads;
  }

  // ---------------------------------------------------------------- counterfactual values

  ghost predicate Playable(es: seq<Entry>, n: nat) {
    forall e :: e in es ==> e.node.Decision? && |e.node.children| == n
  }

  /** Reach-weighted value of the histories themselves. */
  function InfosetValue(es: seq<Entry>, p: nat, mine: Strategy, theirs: Strategy): real
  {
    if es == [] then 0.0 else
    var k := |es| - 1;
    InfosetValue(es[..k], p, mine, theirs) + Times(es[k].reach, Utility(es[k].node, p, mine, theirs))
  }

  /** Reach-weighted value of taking action `a` at every one of the histories. */
  function ActionValue(es: seq<Entry>, a: nat, p: nat, mine: Strategy, theirs: Strategy): real
    requires forall e :: e in es ==> e.node.Decision? && a < |e.node.children|
  {
    if es == [] then 0.0 else
    var k := |es| - 1;
    assert es[k] in es;
    ActionValue(es[..k], a, p, mine, theirs) + Times(es[k].reach, Utility(es[k].node.children[a], p, mine, theirs))
  }

  function ActionValues(es: seq<Entry>, n: nat, p: nat, mine: Strategy, theirs: Strategy): (vs: seq<real>)
    requires Playable(es, n)
    ensures |vs| == n
    ensures forall a :: 0 <= a < n ==> vs[a] == ActionValue(es, a, p, mine, theirs)
  {
    seq(n, a requires 0 <= a < n => ActionValue(es, a, p, mine, theirs))
  }

  lemma {:induction false} InfosetValueConcat(xs: seq<Entry>, ys: seq<Entry>, p: nat, mine: Strategy, theirs: Strategy)
    ensures InfosetValue(xs + ys, p, mine, theirs)
            == InfosetValue(xs, p, mine, theirs) + InfosetValue(ys, p, mine, theirs)
  {
    if ys == [] {
      assert xs + ys == xs;
    } else {
      var k := |ys| - 1;
      InfosetValueConcat(xs, ys[..k], p, mine, theirs);
      assert (xs + ys)[..|xs + ys| - 1] == xs + ys[..k];
    }
  }

  /** Summing over histories first or over actions first gives the same value. */
  lemma {:induction false} InfosetValueByAction(es: seq<Entry>, p: nat, I: string, n: nat, mine: Strategy,
      theirs: Strategy)
    requires Playable(es, n)
    requires forall e :: e in es ==> e.node.player == p && e.node.infoset == I
    ensures InfosetValue(es, p, mine, theirs)
         == Dot(StrategyFor(mine, I, n), ActionValues(es, n, p, mine, theirs), n)
  {
    hide Times;
    var ws := StrategyFor(mine, I, n);
    if es == [] {
      DotZeros(ws, ActionValues(es, n, p, mine, theirs), n);
    } else {
      var k := |es| - 1;
      InfosetValueByAction(es[..k], p, I, n, mine, theirs);
      assert es[k] in es;
      var us, before, after := Utilities(es[k].node.children, p, mine, theirs),
                               ActionValues(es[..k], n, p, mine, theirs), ActionValues(es, n, p, mine, theirs);
      assert Utility(es[k].node, p, mine, theirs) == Dot(ws, us, n);
      DotLinear(ws, before, us, after, es[k].reach, n);
    }
  }

  lemma {:induction false} ActionValueIsLocal(es: seq<Entry>, a: nat, p: nat, x: Strategy, y: Strategy,
      theirs: Strategy)
    requires forall e :: e in es ==> e.node.Decision? && a < |e.node.children|
    requires forall e, I :: e in es && I in OwnInfosets(e.node.children[a], p) ==> AgreeOn(x, y, I)
    ensures ActionValue(es, a, p, x, theirs) == ActionValue(es, a, p, y, theirs)
  {
    if es != [] {
      var k := |es| - 1;
      assert es[k] in es;
      ActionValueIsLocal(es[..k], a, p, x, y, theirs);
      UtilityIsLocal(es[k].node.children[a], p, x, y, theirs);
    }
  }

  // ---------------------------------------------------------------- changing one row

  /** Probability that the responder makes the moves of `s` under `mine`. */
  function OwnReach(s: seq<Move>, mine: Strategy): real
    requires forall m :: m in s ==> m.action < m.count
  {
    if s == [] then 1.0 else
    var m := s[|s| - 1];
    Times(OwnReach(s[..|s| - 1], mine), StrategyFor(mine, m.infoset, m.count)[m.action])
  }

  lemma {:induction false} OwnReachNonNegative(s: seq<Move>, mine: Strategy)
    requires (forall m :: m in s ==> m.action < m.count) && Profile(mine)
    ensures OwnReach(s, mine) >= 0.0
  {
    if s != [] {
      var m := s[|s| - 1];
      assert m in s;
      OwnReachNonNegative(s[..|s| - 1], mine);
      RowIsDistribution(mine, m.infoset, m.count);
      hide Times;
      ProductIsNonNegative(OwnReach(s[..|s| - 1], mine), StrategyFor(mine, m.infoset, m.count)[m.action]);
    }
  }

  lemma ProductIsNonNegative(x: real, y: real)
    requires x >= 0.0 && y >= 0.0
    ensures Times(x, y) >= 0.0
  {
  }

  ghost predicate ChangeAt(t: Tree, p: nat, I: string, a: Strategy, b: Strategy, theirs: Strategy, c: real, d: nat) {
    var es := Histories(t, p, Some(a), theirs, I, c, d);
    Times(c, Utility(t, p, b, theirs) - Utility(t, p, a, theirs))
      == InfosetValue(es, p, b, theirs) - InfosetValue(es, p, a, theirs)
  }

  /**
   * Replacing the row of one information set changes the value of a subtree by the change
   * at the histories of that set, each weighted by its full reach (the responder's included).
   */
  lemma {:induction false} RowChange(t: Tree, p: nat, I: string, a: Strategy, b: Strategy, theirs: Strategy, c: real,
      L: Layout, d: nat, s: seq<Move>)
    requires Respects(t, p, L, d, s)
    requires forall J :: J != I ==> AgreeOn(a, b, J)
    ensures ChangeAt(t, p, I, a, b, theirs, c, d)
  {
    if t.Terminal? {
    } else if t.Decision? && t.player == p && t.infoset == I {
      forall i | 0 <= i < |t.children| ensures I !in OwnInfosets(t.children[i], p) {
        InfosetsLieBelow(t.children[i], p, L, d + 1, Extended(t, p, s, i));
      }
      RowChangeHere(t, p, I, a, b, theirs, c, d);
    } else {
      var rs := ChildReach(t, p, Some(a), theirs, c);
      forall i | 0 <= i < |t.children|
        ensures ChangeAt(t.children[i], p, I, a, b, theirs, rs[i], d + 1)
      {
        RowChange(t.children[i], p, I, a, b, theirs, rs[i], L, d + 1,
                  Extended(t, p, s, i));
      }
      RowChangeBelow(t, p, I, a, b, theirs, c, d);
    }
  }

  lemma RowChangeHere(t: Tree, p: nat, I: string, a: Strategy, b: Strategy, theirs: Strategy, c: real, d: nat)
    requires t.Decision? && t.player == p && t.infoset == I
    requires forall i :: 0 <= i < |t.children| ==> I !in OwnInfosets(t.children[i], p)
    ensures ChangeAt(t, p, I, a, b, theirs, c, d)
  {
    hide Times;
    TimesAlgebra(c, 0.0, Utility(t, p, b, theirs), Utility(t, p, a, theirs));
    HistoriesAmongEmpty(t.children, p, Some(a), theirs, I, ChildReach(t, p, Some(a), theirs, c), d + 1, |t.children|);
    var es := Histories(t, p, Some(a), theirs, I, c, d);
    assert es == [Entry(t, c, d)];
    SingleHistory(es, p, a, theirs);
    SingleHistory(es, p, b, theirs);
  }

  lemma RowChangeBelow(t: Tree, p: nat, I: string, a: Strategy, b: Strategy, theirs: Strategy, c: real, d: nat)
    requires !t.Terminal? && !(t.Decision? && t.player == p && t.infoset == I)
    requires forall J :: J != I ==> AgreeOn(a, b, J)
    requires ChangesBelow(t, p, I, a, b, theirs, c, d)
    ensures ChangeAt(t, p, I, a, b, theirs, c, d)
  {
    hide Times, ChangesBelow, HistoriesAmong, ChildReach, Utilities, NodeWeights, Dot, InfosetValue;
    SumOfChanges(t, p, I, a, b, theirs, c, d);
    SameWeights(t, p, I, a, b, theirs);
    assert Histories(t, p, Some(a), theirs, I, c, d)
        == HistoriesAmong(t.children, p, Some(a), theirs, I, ChildReach(t, p, Some(a), theirs, c), d + 1, |t.children|);
  }

  ghost predicate ChangesBelow(t: Tree, p: nat, I: string, a: Strategy, b: Strategy, theirs: Strategy, c: real, d: nat)
    requires !t.Terminal?
  {
    var rs := ChildReach(t, p, Some(a), theirs, c);
    forall i :: 0 <= i < |t.children| ==> ChangeAt(t.children[i], p, I, a, b, theirs, rs[i], d + 1)
  }

  lemma SumOfChanges(t: Tree, p: nat, I: string, a: Strategy, b: Strategy, theirs: Strategy, c: real, d: nat)
    requires !t.Terminal? && ChangesBelow(t, p, I, a, b, theirs, c, d)
    ensures var ws, n := NodeWeights(t, p, a, theirs), |t.children|;
            var es := HistoriesAmong(t.children, p, Some(a), theirs, I, ChildReach(t, p, Some(a), theirs, c), d + 1, n);
            Times(c, Dot(ws, Utilities(t.children, p, b, theirs), n) - Dot(ws, Utilities(t.children, p, a, theirs), n))
            == InfosetValue(es, p, b, theirs) - InfosetValue(es, p, a, theirs)
  {
    hide Times, ChangeAt, NodeWeights, HistoriesAmong, Utilities, Dot, InfosetValue;
    var rs, ws := ChildReach(t, p, Some(a), theirs, c), NodeWeights(t, p, a, theirs);
    AddBranches(t.children, p, I, a, b, theirs, c, ws, rs, d + 1, |t.children|);
  }

  lemma SingleHistory(es: seq<Entry>, p: nat, mine: Strategy, theirs: Strategy)
    requires |es| == 1
    ensures InfosetValue(es, p, mine, theirs) == Times(es[0].reach, Utility(es[0].node, p, mine, theirs))
  {
    assert es[..0] == [];
  }

  lemma {:induction false} HistoriesAmongEmpty(ts: seq<Tree>, p: nat, own: Option<Strategy>, avg: Strategy, I: string,
      rs: seq<real>, d: nat, n: nat)
    requires n <= |ts| == |rs|
    requires forall i :: 0 <= i < |ts| ==> I !in OwnInfosets(ts[i], p)
    ensures HistoriesAmong(ts, p, own, avg, I, rs, d, n) == []
    decreases ts, n
  {
    if n > 0 {
      HistoriesAmongEmpty(ts, p, own, avg, I, rs, d, n - 1);
      var t := ts[n - 1];
      if !t.Terminal? {
        HistoriesAmongEmpty(t.children, p, own, avg, I, ChildReach(t, p, own, avg, rs[n - 1]), d + 1, |t.children|);
      }
    }
  }

  lemma {:induction false} AddBranches(ts: seq<Tree>, p: nat, I: string, a: Strategy, b: Strategy, theirs: Strategy,
      c: real, ws: seq<real>, rs: seq<real>, d: nat, n: nat)
    requires n <= |ts| == |rs| == |ws|
    requires forall i :: 0 <= i < n ==> rs[i] == Times(c, ws[i]) && ChangeAt(ts[i], p, I, a, b, theirs, rs[i], d)
    ensures var es := HistoriesAmong(ts, p, Some(a), theirs, I, rs, d, n);
            Times(c, Dot(ws, Utilities(ts, p, b, theirs), n) - Dot(ws, Utilities(ts, p, a, theirs), n))
            == InfosetValue(es, p, b, theirs) - InfosetValue(es, p, a, theirs)
  {
    hide Times, Histories, Utility;
    if n == 0 {
      TimesZero(c);
    } else {
      var k := n - 1;
      var before := HistoriesAmong(ts, p, Some(a), theirs, I, rs, d, k);
      var here := Histories(ts[k], p, Some(a), theirs, I, rs[k], d);
      AddBranches(ts, p, I, a, b, theirs, c, ws, rs, d, k);
      InfosetValueConcat(before, here, p, a, theirs);
      InfosetValueConcat(before, here, p, b, theirs);
      AddBranch(c, ws, Utilities(ts, p, a, theirs), Utilities(ts, p, b, theirs), n);
    }
  }

  lemma AddBranch(c: real, ws: seq<real>, xs: seq<real>, ys: seq<real>, n: nat)
    requires 0 < n <= |ws| && n <= |xs| && n <= |ys|
    ensures Times(c, Dot(ws, ys, n) - Dot(ws, xs, n))
         == Times(c, Dot(ws, ys, n - 1) - Dot(ws, xs, n - 1)) + Times(Times(c, ws[n - 1]), ys[n - 1] - xs[n - 1])
  {
    var w, x, y := ws[n - 1], xs[n - 1], ys[n - 1];
    var dx, dy := Dot(ws, xs, n - 1), Dot(ws, ys, n - 1);
    assert c * (dy + w * y - (dx + w * x)) == c * (dy - dx) + c * w * (y - x);
  }

  lemma SameWeights(t: Tree, p: nat, I: string, a: Strategy, b: Strategy, theirs: Strategy)
    requires !t.Terminal? && !(t.Decision? && t.player == p && t.infoset == I)
    requires forall J :: J != I ==> AgreeOn(a, b, J)
    ensures NodeWeights(t, p, a, theirs) == NodeWeights(t, p, b, theirs)
  {
    if t.Decision? {
      assert t.infoset != I ==> AgreeOn(a, b, t.infoset);
    }
  }

  // ---------------------------------------------------------------- perfect recall

  /** Same histories, each reached `k` times as often. */
  ghost predicate Scaled(xs: seq<Entry>, ys: seq<Entry>, k: real) {
    |xs| == |ys| && forall i :: 0 <= i < |ys| ==> xs[i].node == ys[i].node && xs[i].reach == Times(k, ys[i].reach)
  }

  ghost predicate ValidMoves(s: seq<Move>) {
    forall m :: m in s ==> m.action < m.count
  }

  /** With perfect recall the responder reaches every history of an information set equally often. */
  lemma {:induction false} OwnReachIsShared(t: Tree, p: nat, I: string, a: Strategy, theirs: Strategy, reach: real,
      L: Layout, d: nat, s: seq<Move>)
    requires Respects(t, p, L, d, s) && ValidMoves(s)
    requires I in L.past && ValidMoves(L.past[I])
    ensures Scaled(Histories(t, p, Some(a), theirs, I, Times(OwnReach(s, a), reach), d),
                   Histories(t, p, None, theirs, I, reach, d), OwnReach(L.past[I], a))
  {
    hide Times;
    if !t.Terminal? {
      var c := Times(OwnReach(s, a), reach);
      var xs, ys := ChildReach(t, p, Some(a), theirs, c), ChildReach(t, p, None, theirs, reach);
      forall i | 0 <= i < |t.children|
        ensures Scaled(Histories(t.children[i], p, Some(a), theirs, I, xs[i], d + 1),
                       Histories(t.children[i], p, None, theirs, I, ys[i], d + 1), OwnReach(L.past[I], a))
      {
        ReachOfChild(t, p, a, theirs, reach, s, i);
        OwnReachIsShared(t.children[i], p, I, a, theirs, ys[i], L, d + 1, Extended(t, p, s, i));
      }
      ScaledNode(t, p, I, a, theirs, reach, OwnReach(s, a), OwnReach(L.past[I], a), d);
    }
  }

  lemma ScaledNode(t: Tree, p: nat, I: string, a: Strategy, theirs: Strategy, reach: real, own: real, k: real, d: nat)
    requires !t.Terminal?
    requires t.Decision? && t.player == p && t.infoset == I ==> own == k
    requires var xs, ys := ChildReach(t, p, Some(a), theirs, Times(own, reach)), ChildReach(t, p, None, theirs, reach);
             forall i :: 0 <= i < |t.children| ==>
               Scaled(Histories(t.children[i], p, Some(a), theirs, I, xs[i], d + 1),
                      Histories(t.children[i], p, None, theirs, I, ys[i], d + 1), k)
    ensures Scaled(Histories(t, p, Some(a), theirs, I, Times(own, reach), d),
              Histories(t, p, None, theirs, I, reach, d), k)
  {
    hide Times, ChildReach, Scaled, HistoriesAmong;
    var xs, ys := ChildReach(t, p, Some(a), theirs, Times(own, reach)), ChildReach(t, p, None, theirs, reach);
    ScaledAmong(t.children, p, I, a, theirs, xs, ys, k, d + 1, |t.children|);
    ScaledConcat(if t.Decision? && t.player == p && t.infoset == I then [Entry(t, Times(own, reach), d)] else [],
                 if t.Decision? && t.player == p && t.infoset == I then [Entry(t, reach, d)] else [],
                 HistoriesAmong(t.children, p, Some(a), theirs, I, xs, d + 1, |t.children|),
                 HistoriesAmong(t.children, p, None, theirs, I, ys, d + 1, |t.children|), k);
  }

  lemma ScaledConcat(xs: seq<Entry>, ys: seq<Entry>, us: seq<Entry>, vs: seq<Entry>, k: real)
    requires |xs| == |ys| && forall i :: 0 <= i < |ys| ==>
               xs[i].node == ys[i].node && xs[i].reach == Times(k, ys[i].reach)
    requires Scaled(us, vs, k)
    ensures Scaled(xs + us, ys + vs, k)
  {
    hide Times;
  }

  /** The factor a node contributes to a child goes to the responder's reach or to the counterfactual one. */
  lemma ReachOfChild(t: Tree, p: nat, a: Strategy, theirs: Strategy, reach: real, s: seq<Move>, i: nat)
    requires !t.Terminal? && i < |t.children| && ValidMoves(s)
    ensures ValidMoves(Extended(t, p, s, i))
    ensures ChildReach(t, p, Some(a), theirs, Times(OwnReach(s, a), reach))[i]
         == Times(OwnReach(Extended(t, p, s, i), a), ChildReach(t, p, None, theirs, reach)[i])
  {
    hide Times;
    var w := NodeWeights(t, p, a, theirs)[i];
    TimesAlgebra(OwnReach(s, a), reach, w, 0.0);
    TimesCommutes(OwnReach(s, a), reach, w);
    if t.Decision? && t.player == p {
      var s' := s + [Move(t.infoset, |t.children|, i)];
      assert s'[..|s'| - 1] == s && s'[|s'| - 1] == Move(t.infoset, |t.children|, i);
    }
  }

  lemma TimesCommutes(k: real, r: real, w: real)
    ensures Times(Times(k, r), w) == Times(Times(k, w), r)
  {
  }

  lemma {:induction false} ScaledAmong(ts: seq<Tree>, p: nat, I: string, a: Strategy, theirs: Strategy, xs: seq<real>,
      ys: seq<real>, k: real, d: nat, n: nat)
    requires n <= |ts| == |xs| == |ys|
    requires forall i :: 0 <= i < |ts| ==>
               Scaled(Histories(ts[i], p, Some(a), theirs, I, xs[i], d), Histories(ts[i], p, None, theirs, I, ys[i], d),
                     k)
    ensures Scaled(HistoriesAmong(ts, p, Some(a), theirs, I, xs, d, n),
              HistoriesAmong(ts, p, None, theirs, I, ys, d, n), k)
  {
    hide Times, Histories;
    if n > 0 {
      ScaledAmong(ts, p, I, a, theirs, xs, ys, k, d, n - 1);
    }
  }

  lemma {:induction false} ScaledValue(xs: seq<Entry>, ys: seq<Entry>, k: real, p: nat, mine: Strategy,
      theirs: Strategy)
    requires Scaled(xs, ys, k)
    ensures InfosetValue(xs, p, mine, theirs) == Times(k, InfosetValue(ys, p, mine, theirs))
  {
    hide Times, Utility;
    if ys == [] {
      TimesZero(k);
    } else {
      var n := |ys| - 1;
      var u := Utility(ys[n].node, p, mine, theirs);
      ScaledValue(xs[..n], ys[..n], k, p, mine, theirs);
      TimesAlgebra(k, ys[n].reach, u, 0.0);
      TimesAlgebra(k, 0.0, InfosetValue(ys[..n], p, mine, theirs), Times(ys[n].reach, u));
    }
  }

  // ---------------------------------------------------------------- one resolution step

  /** Every information set that can still follow an action at `I` is in `known`. */
  ghost predicate Resolved(es: seq<Entry>, p: nat, known: set<string>) {
    forall e, i :: e in es && e.node.Decision? && 0 <= i < |e.node.children| ==>
        OwnInfosets(e.node.children[i], p) <= known
  }

  /** Committing `I` to an action of greatest counterfactual value never costs the responder anything. */
  lemma ResolvingHelps(root: Tree, p: nat, I: string, best: nat, mine: Strategy, theirs: Strategy, L: Layout)
    requires Respects(root, p, L, 0, []) && Profile(mine)
    requires I in L.past && ValidMoves(L.past[I]) && I in L.arity && best < L.arity[I]
    requires var es := Histories(root, p, None, theirs, I, 1.0, 0);
             && Playable(es, L.arity[I])
             && forall i :: 0 <= i < L.arity[I] ==>
                 ActionValue(es, i, p, mine, theirs) <= ActionValue(es, best, p, mine, theirs)
    ensures Utility(root, p, mine[I := PointMass(L.arity[I], best)], theirs) >= Utility(root, p, mine, theirs)
  {
    var n := L.arity[I];
    var b := mine[I := PointMass(n, best)];
    var es, full := Histories(root, p, None, theirs, I, 1.0, 0), Histories(root, p, Some(mine), theirs, I, 1.0, 0);
    var rho := OwnReach(L.past[I], mine);
    RowChange(root, p, I, mine, b, theirs, 1.0, L, 0, []);
    assert full == Histories(root, p, Some(mine), theirs, I, Times(OwnReach([], mine), 1.0), 0);
    OwnReachIsShared(root, p, I, mine, theirs, 1.0, L, 0, []);
    BestRowIsBest(root, p, I, best, mine, theirs, L);
    hide Utility, Histories, Respects, InfosetValue, OwnReach, Playable, ActionValue, Profile, ValidMoves, Scaled;
    ScaledValue(full, es, rho, p, mine, theirs);
    ScaledValue(full, es, rho, p, b, theirs);
    OwnReachNonNegative(L.past[I], mine);
    ScaledGain(rho, InfosetValue(es, p, mine, theirs), InfosetValue(es, p, b, theirs),
               Utility(root, p, mine, theirs), Utility(root, p, b, theirs));
  }

  lemma ScaledGain(k: real, x: real, y: real, u: real, v: real)
    requires k >= 0.0 && y >= x && Times(1.0, v - u) == Times(k, y) - Times(k, x)
    ensures v >= u
  {
    assert v - u == k * (y - x);
  }

  lemma InfosetNeverRecurs(e: Entry, p: nat, L: Layout, I: string, i: nat)
    requires AtInfoset(e, p, L, I) && i < |e.node.children|
    ensures I !in OwnInfosets(e.node.children[i], p)
  {
    InfosetsLieBelow(e.node.children[i], p, L, L.depth[I] + 1, Extended(e.node, p, L.past[I], i));
  }

  lemma BestRowIsBest(root: Tree, p: nat, I: string, best: nat, mine: Strategy, theirs: Strategy, L: Layout)
    requires Respects(root, p, L, 0, []) && Profile(mine)
    requires I in L.past && I in L.arity && best < L.arity[I]
    requires var es := Histories(root, p, None, theirs, I, 1.0, 0);
             && Playable(es, L.arity[I])
             && forall i :: 0 <= i < L.arity[I] ==>
                 ActionValue(es, i, p, mine, theirs) <= ActionValue(es, best, p, mine, theirs)
    ensures var es := Histories(root, p, None, theirs, I, 1.0, 0);
            InfosetValue(es, p, mine[I := PointMass(L.arity[I], best)], theirs) >= InfosetValue(es, p, mine, theirs)
  {
    var n := L.arity[I];
    var b := mine[I := PointMass(n, best)];
    var es := Histories(root, p, None, theirs, I, 1.0, 0);
    HistoriesAreAtInfoset(root, p, None, theirs, I, 1.0, L, 0, []);
    InfosetValueByAction(es, p, I, n, mine, theirs);
    InfosetValueByAction(es, p, I, n, b, theirs);
    var vs, top := ActionValues(es, n, p, mine, theirs), ActionValue(es, best, p, mine, theirs);
    RowIsDistribution(mine, I, n);
    DotAtMost(StrategyFor(mine, I, n), vs, n, top);
    DotPointMass(n, best, ActionValues(es, n, p, b, theirs), n);
    forall e, J | e in es && J in OwnInfosets(e.node.children[best], p) ensures AgreeOn(mine, b, J) {
      InfosetNeverRecurs(e, p, L, I, best);
    }
    ActionValueIsLocal(es, best, p, mine, b, theirs);
  }

  // ---------------------------------------------------------------- the oracle

  function Listed(states: map<string, seq<Entry>>, I: string): seq<Entry> {
    if I in states then states[I] else []
  }

  /** The policy as a strategy table: probability one on the chosen action. */
  function Pure(policy: map<string, nat>, arity: map<string, nat>): Strategy {
    map I | I in policy && I in arity :: PointMass(arity[I], policy[I])
  }

  ghost predicate Fits(policy: map<string, nat>, L: Layout) {
    forall I :: I in policy ==> I in L.arity && policy[I] < L.arity[I]
  }

  /** No memo entry is stale: each is the value of its node under this and every later policy. */
  ghost predicate MemoSound(memo: map<string, real>, policy: map<string, nat>, p: nat, avg: Strategy, L: Layout) {
    forall key :: key in memo ==>
      && key in L.nodeAt
      && OwnInfosets(L.nodeAt[key], p) <= policy.Keys
      && memo[key] == Utility(L.nodeAt[key], p, Pure(policy, L.arity), avg)
  }

  /** Overriding any strategy with the choices made so far never lowers its value. */
  ghost predicate NoRegret(root: Tree, policy: map<string, nat>, p: nat, avg: Strategy, L: Layout) {
    forall mine :: Profile(mine) ==> Utility(root, p, mine + Pure(policy, L.arity), avg) >= Utility(root, p, mine, avg)
  }

  function MaxDepth(es: seq<Entry>): nat {
    if es == [] then 0 else
    var m, d := MaxDepth(es[..|es| - 1]), es[|es| - 1].depth;
    if d > m then d else m
  }

  /** `v` is the most that any strategy of `p` can expect to earn against `avg`, and some strategy earns it. */
  ghost predicate IsBestResponseValue(v: real, root: Tree, p: nat, avg: Strategy) {
    && (forall mine :: Profile(mine) ==> Expected(root, p, mine, avg) <= v)
    && exists mine :: Profile(mine) && Expected(root, p, mine, avg) == v
  }

  lemma BestByUtility(v: real, root: Tree, p: nat, avg: Strategy)
    ensures IsBestResponseValue(v, root, p, avg) <==>
            && (forall mine :: Profile(mine) ==> Utility(root, p, mine, avg) <= v)
            && exists mine :: Profile(mine) && Utility(root, p, mine, avg) == v
  {
    hide Utility, Expected, Profile;
    forall mine ensures Utility(root, p, mine, avg) == Expected(root, p, mine, avg) {
      UtilityIsExpected(root, p, mine, avg);
    }
  }

  lemma {:induction false} InfosetsHaveHistories(t: Tree, p: nat, avg: Strategy, I: string, reach: real, d: nat)
    ensures I in OwnInfosets(t, p) <==> Histories(t, p, None, avg, I, reach, d) != []
  {
    if !t.Terminal? {
      var rs := ChildReach(t, p, None, avg, reach);
      forall i | 0 <= i < |t.children|
        ensures I in OwnInfosets(t.children[i], p) <==> Histories(t.children[i], p, None, avg, I, rs[i], d + 1) != []
      {
        InfosetsHaveHistories(t.children[i], p, avg, I, rs[i], d + 1);
      }
      HistoriesAmongEmptyIff(t.children, p, avg, I, rs, d + 1, |t.children|);
    }
  }

  lemma {:induction false} HistoriesAmongEmptyIff(ts: seq<Tree>, p: nat, avg: Strategy, I: string, rs: seq<real>,
      d: nat, n: nat)
    requires n <= |ts| == |rs|
    ensures HistoriesAmong(ts, p, None, avg, I, rs, d, n) == []
       <==> forall i :: 0 <= i < n ==> Histories(ts[i], p, None, avg, I, rs[i], d) == []
  {
    if n > 0 {
      HistoriesAmongEmptyIff(ts, p, avg, I, rs, d, n - 1);
    }
  }

  /** Every responder history below `t` in the order the traversal meets them. */
  ghost function Walk(t: Tree, p: nat, avg: Strategy, reach: real, d: nat): seq<Entry> {
    if t.Terminal? then [] else
    (if t.Decision? && t.player == p then [Entry(t, reach, d)] else [])
    + WalkAmong(t.children, p, avg, ChildReach(t, p, None, avg, reach), d + 1, |t.children|)
  }

  ghost function WalkAmong(ts: seq<Tree>, p: nat, avg: Strategy, rs: seq<real>, d: nat, n: nat): seq<Entry>
    requires n <= |ts| == |rs|
    decreases ts, n
  {
    if n == 0 then [] else WalkAmong(ts, p, avg, rs, d, n - 1) + Walk(ts[n - 1], p, avg, rs[n - 1], d)
  }

  lemma WalkUnfolds(t: Tree, p: nat, avg: Strategy, reach: real, d: nat, before: seq<Entry>)
    ensures t.Terminal? ==> before + Walk(t, p, avg, reach, d) == before
    ensures !t.Terminal? ==>
              var rs := ChildReach(t, p, None, avg, reach);
              var entered := if t.Decision? && t.player == p then before + [Entry(t, reach, d)] else before;
              && entered + WalkAmong(t.children, p, avg, rs, d + 1, 0) == entered
              && before + Walk(t, p, avg, reach, d) == entered + WalkAmong(t.children, p, avg, rs, d + 1, |t.children|)
  {
    hide WalkAmong, ChildReach;
    if !t.Terminal? {
      var rs := ChildReach(t, p, None, avg, reach);
      NothingWalked(t.children, p, avg, rs, d + 1);
      var here := if t.Decision? && t.player == p then [Entry(t, reach, d)] else [];
      var below := WalkAmong(t.children, p, avg, rs, d + 1, |t.children|);
      assert Walk(t, p, avg, reach, d) == here + below;
      assert before + (here + below) == (before + here) + below;
    }
  }

  lemma NothingWalked(ts: seq<Tree>, p: nat, avg: Strategy, rs: seq<real>, d: nat)
    requires |ts| == |rs|
    ensures WalkAmong(ts, p, avg, rs, d, 0) == []
  {
  }

  lemma GroupedPush(es: seq<Entry>, e: Entry)
    ensures Grouped(es + [e]) == Push(Grouped(es), e)
  {
    assert (es + [e])[..|es|] == es;
  }

  lemma WalkStep(before: seq<Entry>, ts: seq<Tree>, p: nat, avg: Strategy, rs: seq<real>, d: nat, n: nat)
    requires n < |ts| == |rs|
    ensures before + WalkAmong(ts, p, avg, rs, d, n) + Walk(ts[n], p, avg, rs[n], d)
            == before + WalkAmong(ts, p, avg, rs, d, n + 1)
  {
  }

  function InfosetOf(e: Entry): string {
    if e.node.Decision? then e.node.infoset else ""
  }

  /** The table after pushing `es` one by one under their information sets. */
  ghost function Grouped(es: seq<Entry>): map<string, seq<Entry>> {
    if es == [] then map[] else Push(Grouped(es[..|es| - 1]), es[|es| - 1])
  }

  function Push(states: map<string, seq<Entry>>, e: Entry): map<string, seq<Entry>> {
    states[InfosetOf(e) := Listed(states, InfosetOf(e)) + [e]]
  }

  ghost function OfInfoset(es: seq<Entry>, I: string): seq<Entry> {
    if es == [] then [] else
    OfInfoset(es[..|es| - 1], I) + (if InfosetOf(es[|es| - 1]) == I then [es[|es| - 1]] else [])
  }

  lemma {:induction false} GroupedLists(es: seq<Entry>, I: string)
    ensures Listed(Grouped(es), I) == OfInfoset(es, I)
    ensures I in Grouped(es) <==> OfInfoset(es, I) != []
  {
    if es != [] {
      GroupedLists(es[..|es| - 1], I);
    }
  }

  lemma {:induction false} OfInfosetConcat(xs: seq<Entry>, ys: seq<Entry>, I: string)
    ensures OfInfoset(xs + ys, I) == OfInfoset(xs, I) + OfInfoset(ys, I)
  {
    hide InfosetOf;
    var all := xs + ys;
    if ys == [] {
      assert all == xs;
    } else {
      var k := |ys| - 1;
      OfInfosetConcat(xs, ys[..k], I);
      assert all[..|all| - 1] == xs + ys[..k] && all[|all| - 1] == ys[k];
    }
  }

  lemma {:induction false} WalkByInfoset(t: Tree, p: nat, avg: Strategy, I: string, reach: real, d: nat)
    ensures OfInfoset(Walk(t, p, avg, reach, d), I) == Histories(t, p, None, avg, I, reach, d)
    decreases t, 0
  {
    if !t.Terminal? {
      var rs := ChildReach(t, p, None, avg, reach);
      WalkAmongByInfoset(t.children, p, avg, I, rs, d + 1, |t.children|);
      WalkNodeByInfoset(t, p, avg, I, reach, d);
    }
  }

  lemma WalkNodeByInfoset(t: Tree, p: nat, avg: Strategy, I: string, reach: real, d: nat)
    requires !t.Terminal?
    requires var rs := ChildReach(t, p, None, avg, reach);
             OfInfoset(WalkAmong(t.children, p, avg, rs, d + 1, |t.children|), I)
             == HistoriesAmong(t.children, p, None, avg, I, rs, d + 1, |t.children|)
    ensures OfInfoset(Walk(t, p, avg, reach, d), I) == Histories(t, p, None, avg, I, reach, d)
  {
    hide WalkAmong, HistoriesAmong, ChildReach, OfInfoset;
    var e := Entry(t, reach, d);
    var here := if t.Decision? && t.player == p then [e] else [];
    OfInfosetConcat(here, WalkAmong(t.children, p, avg, ChildReach(t, p, None, avg, reach), d + 1, |t.children|), I);
    OneOfInfoset(e, I);
  }

  lemma OneOfInfoset(e: Entry, I: string)
    ensures OfInfoset([e], I) == if InfosetOf(e) == I then [e] else []
    ensures OfInfoset([], I) == []
  {
    assert [e][..0] == [];
  }

  lemma {:induction false} WalkAmongByInfoset(ts: seq<Tree>, p: nat, avg: Strategy, I: string, rs: seq<real>, d: nat,
      n: nat)
    requires n <= |ts| == |rs|
    ensures OfInfoset(WalkAmong(ts, p, avg, rs, d, n), I) == HistoriesAmong(ts, p, None, avg, I, rs, d, n)
    decreases ts, n
  {
    if n > 0 {
      WalkAmongByInfoset(ts, p, avg, I, rs, d, n - 1);
      WalkByInfoset(ts[n - 1], p, avg, I, rs[n - 1], d);
      OfInfosetConcat(WalkAmong(ts, p, avg, rs, d, n - 1), Walk(ts[n - 1], p, avg, rs[n - 1], d), I);
    }
  }

  lemma {:induction false} DeepestExists(todo: set<string>, states: map<string, seq<Entry>>)
    requires todo != {} && todo <= states.Keys
    ensures exists I :: I in todo && forall J :: J in todo ==> MaxDepth(states[J]) <= MaxDepth(states[I])
  {
    hide MaxDepth;
    var I :| I in todo;
    if todo != {I} {
      var rest := todo - {I};
      assert todo == {I} + rest;
      DeepestExists(rest, states);
      var K :| K in rest && forall J :: J in rest ==> MaxDepth(states[J]) <= MaxDepth(states[K]);
      var top := if MaxDepth(states[I]) >= MaxDepth(states[K]) then I else K;
      forall J | J in todo
        ensures MaxDepth(states[J]) <= MaxDepth(states[top])
      {
        if J != I {
          assert J in rest;
        }
      }
    }
  }

  /** `order` lists what is no longer to do, deepest first, and nothing to do is deeper. */
  ghost predicate Picked(order: seq<string>, todo: set<string>, states: map<string, seq<Entry>>) {
    && todo <= states.Keys
    && (forall I :: I in order <==> I in states && I !in todo)
    && (forall i, j :: 0 <= i < j < |order| ==>
          order[i] != order[j] && MaxDepth(states[order[i]]) >= MaxDepth(states[order[j]]))
    && (forall I, J :: I in order && J in todo ==> MaxDepth(states[I]) >= MaxDepth(states[J]))
  }

  lemma NothingPicked(states: map<string, seq<Entry>>)
    ensures Picked([], states.Keys, states)
  {
  }

  lemma AllPicked(order: seq<string>, states: map<string, seq<Entry>>)
    requires Picked(order, {}, states)
    ensures forall I :: I in order <==> I in states
    ensures forall i, j :: 0 <= i < j < |order| ==>
            order[i] != order[j] && MaxDepth(states[order[i]]) >= MaxDepth(states[order[j]])
  {
    hide MaxDepth;
  }

  lemma PickedMore(order: seq<string>, todo: set<string>, states: map<string, seq<Entry>>, I: string)
    requires Picked(order, todo, states) && I in todo
    requires forall J :: J in todo ==> MaxDepth(states[J]) <= MaxDepth(states[I])
    ensures Picked(order + [I], todo - {I}, states)
  {
    hide MaxDepth;
    var more := order + [I];
    forall i, j | 0 <= i < j < |more|
      ensures more[i] != more[j] && MaxDepth(states[more[i]]) >= MaxDepth(states[more[j]])
    {
      assert more[i] in order;
    }
  }

  lemma {:induction false} PastsAreValid(t: Tree, p: nat, L: Layout, d: nat, s: seq<Move>)
    requires Respects(t, p, L, d, s) && ValidMoves(s)
    ensures forall I :: I in OwnInfosets(t, p) ==> I in L.past && ValidMoves(L.past[I])
  {
    if !t.Terminal? {
      forall i | 0 <= i < |t.children|
        ensures forall I :: I in OwnInfosets(t.children[i], p) ==> I in L.past && ValidMoves(L.past[I])
      {
        PastsAreValid(t.children[i], p, L, d + 1, Extended(t, p, s, i));
      }
    }
  }

  lemma {:induction false} MaxDepthAt(es: seq<Entry>, p: nat, L: Layout, I: string)
    requires es != [] && I in L.depth && forall e :: e in es ==> AtInfoset(e, p, L, I)
    ensures MaxDepth(es) == L.depth[I]
  {
    assert AtInfoset(es[|es| - 1], p, L, I);
    if |es| > 1 {
      MaxDepthAt(es[..|es| - 1], p, L, I);
    }
  }

  /** All information sets of the responder after `order[..k]` have been resolved, deepest first. */
  ghost predicate DeepestFirst(order: seq<string>, all: set<string>, L: Layout) {
    && (forall I :: I in all ==> I in L.depth)
    && (forall I :: I in order <==> I in all)
    && (forall i, j :: 0 <= i < j < |order| ==> order[i] != order[j] && L.depth[order[i]] >= L.depth[order[j]])
  }

  ghost function Done(order: seq<string>, k: nat): set<string>
    requires k <= |order|
  {
    set I | I in order[..k]
  }

  lemma OneMoreDone(order: seq<string>, k: nat)
    requires k < |order|
    requires forall i, j :: 0 <= i < j < |order| ==> order[i] != order[j]
    ensures order[k] !in Done(order, k) && Done(order, k + 1) == Done(order, k) + {order[k]}
  {
  }

  lemma DeeperIsEarlier(order: seq<string>, all: set<string>, L: Layout, k: nat, I: string)
    requires DeepestFirst(order, all, L) && k < |order| && I in all && L.depth[I] > L.depth[order[k]]
    ensures I in order[..k]
  {
    var j :| 0 <= j < |order| && order[j] == I;
    assert j < k;
  }

  /** The children of every history of `order[k]` lie inside what is already resolved. */
  lemma ChildrenResolved(root: Tree, p: nat, avg: Strategy, L: Layout, order: seq<string>, k: nat)
    requires Respects(root, p, L, 0, []) && DeepestFirst(order, OwnInfosets(root, p), L) && k < |order|
    ensures Resolved(Histories(root, p, None, avg, order[k], 1.0, 0), p, Done(order, k))
  {
    var es := Histories(root, p, None, avg, order[k], 1.0, 0);
    HistoriesAreAtInfoset(root, p, None, avg, order[k], 1.0, L, 0, []);
    forall e, i | e in es && e.node.Decision? && 0 <= i < |e.node.children|
      ensures OwnInfosets(e.node.children[i], p) <= Done(order, k)
    {
      assert AtInfoset(e, p, L, order[k]);
      InfosetsLieBelow(e.node.children[i], p, L, L.depth[order[k]] + 1, Extended(e.node, p, L.past[order[k]], i));
      HistoryNodesAreInTree(root, p, None, avg, order[k], 1.0, 0);
      forall I | I in OwnInfosets(e.node.children[i], p) ensures I in order[..k] {
        DeeperIsEarlier(order, OwnInfosets(root, p), L, k, I);
      }
    }
  }

  lemma {:induction false} HistoryNodesAreInTree(t: Tree, p: nat, own: Option<Strategy>, avg: Strategy, I: string,
      reach: real, d: nat)
    ensures forall e :: e in Histories(t, p, own, avg, I, reach, d) ==> OwnInfosets(e.node, p) <= OwnInfosets(t, p)
    decreases t, 0
  {
    if !t.Terminal? {
      HistoryNodesAmongAreInTree(t, p, own, avg, I, ChildReach(t, p, own, avg, reach), d + 1, |t.children|);
    }
  }

  lemma {:induction false} HistoryNodesAmongAreInTree(t: Tree, p: nat, own: Option<Strategy>, avg: Strategy, I: string,
      rs: seq<real>, d: nat, n: nat)
    requires !t.Terminal? && n <= |t.children| == |rs|
    ensures forall e :: e in HistoriesAmong(t.children, p, own, avg, I, rs, d, n) ==>
            OwnInfosets(e.node, p) <= OwnInfosets(t, p)
    decreases t.children, n
  {
    if n > 0 {
      HistoryNodesAmongAreInTree(t, p, own, avg, I, rs, d, n - 1);
      HistoryNodesAreInTree(t.children[n - 1], p, own, avg, I, rs[n - 1], d);
    }
  }

  lemma CollectedStates(root: Tree, p: nat, avg: Strategy, L: Layout, walked: seq<Entry>)
    requires Respects(root, p, L, 0, []) && walked == Walk(root, p, avg, 1.0, 0)
    ensures Grouped(walked).Keys == OwnInfosets(root, p)
    ensures forall I :: I in Grouped(walked) ==> Grouped(walked)[I] == Histories(root, p, None, avg, I, 1.0, 0)
  {
    hide Walk, Grouped, Histories, OwnInfosets, Respects;
    forall I
      ensures I in Grouped(walked) <==> I in OwnInfosets(root, p)
      ensures I in Grouped(walked) ==> Grouped(walked)[I] == Histories(root, p, None, avg, I, 1.0, 0)
    {
      GroupedLists(walked, I);
      WalkByInfoset(root, p, avg, I, 1.0, 0);
      InfosetsHaveHistories(root, p, avg, I, 1.0, 0);
    }
  }

  lemma OrderIsDeepestFirst(order: seq<string>, states: map<string, seq<Entry>>, root: Tree, p: nat, avg: Strategy,
      L: Layout)
    requires Respects(root, p, L, 0, [])
    requires states.Keys == OwnInfosets(root, p)
    requires forall I :: I in states ==> states[I] == Histories(root, p, None, avg, I, 1.0, 0)
    requires forall I :: I in order <==> I in states
    requires forall i, j :: 0 <= i < j < |order| ==>
             order[i] != order[j] && MaxDepth(states[order[i]]) >= MaxDepth(states[order[j]])
    ensures DeepestFirst(order, OwnInfosets(root, p), L)
  {
    hide Histories, OwnInfosets, Respects, MaxDepth;
    InfosetsLieBelow(root, p, L, 0, []);
    forall I | I in states ensures MaxDepth(states[I]) == L.depth[I] {
      HistoriesAreAtInfoset(root, p, None, avg, I, 1.0, L, 0, []);
      InfosetsHaveHistories(root, p, avg, I, 1.0, 0);
      MaxDepthAt(states[I], p, L, I);
    }
  }

  lemma EntriesOf(root: Tree, p: nat, avg: Strategy, L: Layout, I: string, walked: seq<Entry>)
    requires Respects(root, p, L, 0, []) && walked == Walk(root, p, avg, 1.0, 0) && I in OwnInfosets(root, p)
    ensures I in Grouped(walked) && Grouped(walked)[I] == Histories(root, p, None, avg, I, 1.0, 0) != []
    ensures I in L.arity
    ensures forall e :: e in Grouped(walked)[I] ==> AtInfoset(e, p, L, I) && |e.node.children| == L.arity[I]
  {
    hide Walk, Grouped, Histories, OwnInfosets, Respects;
    CollectedStates(root, p, avg, L, walked);
    InfosetsHaveHistories(root, p, avg, I, 1.0, 0);
    InfosetsLieBelow(root, p, L, 0, []);
    HistoriesAreAtInfoset(root, p, None, avg, I, 1.0, L, 0, []);
  }

  lemma ActionCount(e: Entry, p: nat, L: Layout, I: string)
    requires AtInfoset(e, p, L, I)
    ensures e.node.Decision? && |e.node.children| == L.arity[I] > 0
  {
  }

  lemma MemoHit(memo: map<string, real>, policy: map<string, nat>, t: Tree, p: nat, avg: Strategy, L: Layout)
    requires MemoSound(memo, policy, p, avg, L) && !t.Terminal? && t.key in memo && t.key in L.nodeAt
    requires L.nodeAt[t.key] == t
    ensures memo[t.key] == Utility(t, p, Pure(policy, L.arity), avg)
  {
  }

  lemma MemoInsert(memo: map<string, real>, policy: map<string, nat>, t: Tree, v: real, p: nat, avg: Strategy,
      L: Layout)
    requires MemoSound(memo, policy, p, avg, L) && !t.Terminal? && t.key in L.nodeAt && L.nodeAt[t.key] == t
    requires OwnInfosets(t, p) <= policy.Keys && v == Utility(t, p, Pure(policy, L.arity), avg)
    ensures MemoSound(memo[t.key := v], policy, p, avg, L)
  {
    hide Utility, OwnInfosets, Pure;
  }

  lemma NodeFacts(t: Tree, p: nat, L: Layout, d: nat, s: seq<Move>, policy: map<string, nat>, avg: Strategy)
    requires Respects(t, p, L, d, s) && Fits(policy, L) && OwnInfosets(t, p) <= policy.Keys
    ensures t.Terminal? ==> Utility(t, p, Pure(policy, L.arity), avg) == Payoff(t, p)
    ensures !t.Terminal? ==>
              && t.key in L.nodeAt && L.nodeAt[t.key] == t
              && (forall i :: 0 <= i < |t.children| ==> OwnInfosets(t.children[i], p) <= policy.Keys)
              && (forall i :: 0 <= i < |t.children| ==> Respects(t.children[i], p, L, d + 1, Extended(t, p, s, i)))
              && Utility(t, p, Pure(policy, L.arity), avg)
                 == Dot(NodeWeights(t, p, Pure(policy, L.arity), avg),
                       Utilities(t.children, p, Pure(policy, L.arity), avg), |t.children|)
    ensures t.Decision? && t.player == p ==>
              && t.infoset in policy && policy[t.infoset] < |t.children|
              && NodeWeights(t, p, Pure(policy, L.arity), avg) == PointMass(|t.children|, policy[t.infoset])
    ensures !t.Terminal? && !(t.Decision? && t.player == p) ==>
              NodeWeights(t, p, Pure(policy, L.arity), avg) == NodeWeights(t, p, map[], avg)
  {
  }

  /** Entries stay final: a memoised subtree never contains an information set resolved later. */
  lemma MemoSurvives(memo: map<string, real>, policy: map<string, nat>, I: string, best: nat, p: nat, avg: Strategy,
      L: Layout)
    requires I !in policy && I in L.arity && best < L.arity[I]
    requires MemoSound(memo, policy, p, avg, L)
    requires Fits(policy, L)
    ensures MemoSound(memo, policy[I := best], p, avg, L) && Fits(policy[I := best], L)
  {
    hide Utility, OwnInfosets;
    forall key | key in memo
      ensures Utility(L.nodeAt[key], p, Pure(policy[I := best], L.arity), avg)
              == Utility(L.nodeAt[key], p, Pure(policy, L.arity), avg)
    {
      UtilityIsLocal(L.nodeAt[key], p, Pure(policy[I := best], L.arity), Pure(policy, L.arity), avg);
    }
  }

  lemma PureIsProfile(mine: Strategy, policy: map<string, nat>, L: Layout)
    requires Profile(mine) && Fits(policy, L)
    ensures Profile(mine + Pure(policy, L.arity))
  {
    forall I | I in policy ensures Distribution(PointMass(L.arity[I], policy[I])) {
      PointMassIsDistribution(L.arity[I], policy[I]);
    }
  }

  lemma ResolvingKeepsNoRegret(root: Tree, p: nat, avg: Strategy, L: Layout, policy: map<string, nat>, I: string,
      best: nat)
    requires Respects(root, p, L, 0, []) && Fits(policy, L)
    requires I in OwnInfosets(root, p) && I in L.arity && best < L.arity[I] && I !in policy
    requires var es := Histories(root, p, None, avg, I, 1.0, 0);
             && Playable(es, L.arity[I]) && Resolved(es, p, policy.Keys)
             && forall i :: 0 <= i < L.arity[I] ==>
                  ActionValue(es, i, p, Pure(policy, L.arity), avg)
                      <= ActionValue(es, best, p, Pure(policy, L.arity), avg)
    requires NoRegret(root, policy, p, avg, L)
    ensures NoRegret(root, policy[I := best], p, avg, L)
  {
    hide Utility, OwnInfosets, Histories, Respects, ActionValue, Pure, Playable, Resolved, Profile;
    forall mine | Profile(mine)
      ensures Utility(root, p, mine + Pure(policy[I := best], L.arity), avg) >= Utility(root, p, mine, avg)
    {
      ResolvingHelpsMixed(root, p, avg, L, policy, I, best, mine);
    }
  }

  lemma ResolvingHelpsMixed(root: Tree, p: nat, avg: Strategy, L: Layout, policy: map<string, nat>, I: string,
      best: nat, mine: Strategy)
    requires Respects(root, p, L, 0, []) && Fits(policy, L) && Profile(mine)
    requires I in OwnInfosets(root, p) && I in L.arity && best < L.arity[I] && I !in policy
    requires var es := Histories(root, p, None, avg, I, 1.0, 0);
             && Playable(es, L.arity[I]) && Resolved(es, p, policy.Keys)
             && forall i :: 0 <= i < L.arity[I] ==>
                  ActionValue(es, i, p, Pure(policy, L.arity), avg)
                      <= ActionValue(es, best, p, Pure(policy, L.arity), avg)
    ensures Utility(root, p, mine + Pure(policy[I := best], L.arity), avg) >= Utility(root, p,
              mine + Pure(policy, L.arity), avg)
  {
    hide Utility, OwnInfosets, Histories, Respects, ActionValue;
    var es, pure := Histories(root, p, None, avg, I, 1.0, 0), Pure(policy, L.arity);
    var mixed := mine + pure;
    forall i | 0 <= i < L.arity[I] ensures ActionValue(es, i, p, mixed, avg) == ActionValue(es, i, p, pure, avg) {
      forall e, J | e in es && J in OwnInfosets(e.node.children[i], p) ensures AgreeOn(mixed, pure, J) {
        assert J in policy.Keys;
      }
      ActionValueIsLocal(es, i, p, mixed, pure, avg);
    }
    PastsAreValid(root, p, L, 0, []);
    PureIsProfile(mine, policy, L);
    ResolvingHelps(root, p, I, best, mixed, avg, L);
    assert mine + Pure(policy[I := best], L.arity) == mixed[I := PointMass(L.arity[I], best)];
  }

  lemma PolicyIsBest(root: Tree, p: nat, avg: Strategy, L: Layout, policy: map<string, nat>)
    requires Fits(policy, L) && OwnInfosets(root, p) <= policy.Keys
    requires NoRegret(root, policy, p, avg, L)
    ensures IsBestResponseValue(Utility(root, p, Pure(policy, L.arity), avg), root, p, avg)
  {
    hide Utility, OwnInfosets, IsBestResponseValue;
    var pure := Pure(policy, L.arity);
    BestByUtility(Utility(root, p, pure, avg), root, p, avg);
    forall mine | Profile(mine) ensures Utility(root, p, mine, avg) <= Utility(root, p, pure, avg) {
      UtilityIsLocal(root, p, mine + pure, pure, avg);
    }
    PureIsProfile(map[], policy, L);
    assert map[] + pure == pure;
  }

  class Responder {
    const p: nat
    const avg: Strategy
    ghost const L: Layout
    var states: map<string, seq<Entry>>
    var policy: map<string, nat>
    var memo: map<string, real>
    ghost var walked: seq<Entry>

    constructor (p: nat, avg: Strategy, ghost L: Layout)
      ensures this.p == p && this.avg == avg && this.L == L
      ensures states == map[] && policy == map[] && memo == map[] && walked == []
    {
      this.p, this.avg, this.L := p, avg, L;
      states, policy, memo, walked := map[], map[], map[], [];
    }

    method Collect(t: Tree, reach: real, depth: nat)
      requires states == Grouped(walked)
      modifies this`states, this`walked
      ensures states == Grouped(walked) && walked == old(walked) + Walk(t, p, avg, reach, depth)
      decreases t
    {
      hide Walk, WalkAmong, Grouped, Push, ChildReach;
      WalkUnfolds(t, p, avg, reach, depth, walked);
      if t.Terminal? {
        return;
      }
      var rs := ChildReach(t, p, None, avg, reach);
      if t.Decision? && t.player == p {
        var e := Entry(t, reach, depth);
        GroupedPush(walked, e);
        states := Push(states, e);
        walked := walked + [e];
      }
      ghost var entered := walked;
      for i := 0 to |t.children|
        invariant states == Grouped(walked)
        invariant walked == entered + WalkAmong(t.children, p, avg, rs, depth + 1, i)
      {
        Collect(t.children[i], rs[i], depth + 1);
        WalkStep(entered, t.children, p, avg, rs, depth + 1, i);
      }
    }

    method Value(t: Tree, ghost d: nat, ghost s: seq<Move>) returns (v: real)
      requires Respects(t, p, L, d, s) && Fits(policy, L) && MemoSound(memo, policy, p, avg, L)
      requires OwnInfosets(t, p) <= policy.Keys
      modifies this`memo
      ensures MemoSound(memo, policy, p, avg, L)
      ensures v == Utility(t, p, Pure(policy, L.arity), avg) == Expected(t, p, Pure(policy, L.arity), avg)
      decreases t
    {
      hide Utility, Expected, MemoSound, Respects, OwnInfosets, Fits, NodeWeights, Pure, Extended, PointMass;
      UtilityIsExpected(t, p, Pure(policy, L.arity), avg);
      NodeFacts(t, p, L, d, s, policy, avg);
      if t.Terminal? {
        return Payoff(t, p);
      }
      if t.key in memo {
        MemoHit(memo, policy, t, p, avg, L);
        return memo[t.key];
      }
      ghost var pure := Pure(policy, L.arity);
      if t.Decision? && t.player == p {
        var idx := policy[t.infoset];
        v := Value(t.children[idx], d + 1, Extended(t, p, s, idx));
        DotPointMass(|t.children|, idx, Utilities(t.children, p, pure, avg), |t.children|);
      } else {
        var ws := NodeWeights(t, p, map[], avg);
        v := 0.0;
        for i := 0 to |t.children|
          invariant MemoSound(memo, policy, p, avg, L)
          invariant v == Dot(ws, Utilities(t.children, p, pure, avg), i)
        {
          var u := Value(t.children[i], d + 1, Extended(t, p, s, i));
          v := v + Times(ws[i], u);
        }
      }
      MemoInsert(memo, policy, t, v, p, avg, L);
      memo := memo[t.key := v];
    }

    /** The collected information sets, deepest first; `sort_by` breaks ties by name, any tie order will do. */
    method Order() returns (order: seq<string>)
      ensures forall I :: I in order <==> I in states
      ensures forall i, j :: 0 <= i < j < |order| ==>
              order[i] != order[j] && MaxDepth(states[order[i]]) >= MaxDepth(states[order[j]])
    {
      hide MaxDepth, Picked;
      order := [];
      var todo := states.Keys;
      NothingPicked(states);
      while todo != {}
        invariant todo <= states.Keys && Picked(order, todo, states)
      {
        DeepestExists(todo, states);
        var I :| I in todo && forall J :: J in todo ==> MaxDepth(states[J]) <= MaxDepth(states[I]);
        PickedMore(order, todo, states, I);
        order, todo := order + [I], todo - {I};
      }
      AllPicked(order, states);
    }

    /** Counterfactual value of taking action `i` throughout an information set. */
    method Evaluate(es: seq<Entry>, i: nat, ghost I: string) returns (av: real)
      requires Fits(policy, L) && MemoSound(memo, policy, p, avg, L)
      requires forall e :: e in es ==> e.node.Decision? && i < |e.node.children|
      requires forall e :: e in es ==> AtInfoset(e, p, L, I) && OwnInfosets(e.node.children[i], p) <= policy.Keys
      modifies this`memo
      ensures MemoSound(memo, policy, p, avg, L)
      ensures av == ActionValue(es, i, p, Pure(policy, L.arity), avg)
    {
      av := 0.0;
      for k := 0 to |es|
        invariant MemoSound(memo, policy, p, avg, L)
        invariant av == ActionValue(es[..k], i, p, Pure(policy, L.arity), avg)
      {
        assert AtInfoset(es[k], p, L, I);
        var u := Value(es[k].node.children[i], L.depth[I] + 1, Extended(es[k].node, p, L.past[I], i));
        av := av + Times(es[k].reach, u);
        assert es[..k + 1][..k] == es[..k];
      }
      assert es[..|es|] == es;
    }

    /** The first action of greatest counterfactual value. */
    method Choose(es: seq<Entry>, n: nat, ghost I: string) returns (best: nat)
      requires Fits(policy, L) && MemoSound(memo, policy, p, avg, L) && n > 0
      requires forall e :: e in es ==> AtInfoset(e, p, L, I) && |e.node.children| == n
      requires Resolved(es, p, policy.Keys)
      modifies this`memo
      ensures MemoSound(memo, policy, p, avg, L) && best < n
      ensures Playable(es, n)
      ensures forall i :: 0 <= i < n ==>
              ActionValue(es, i, p, Pure(policy, L.arity), avg) <= ActionValue(es, best, p, Pure(policy, L.arity), avg)
      ensures forall i :: 0 <= i < best ==>
              ActionValue(es, i, p, Pure(policy, L.arity), avg) < ActionValue(es, best, p, Pure(policy, L.arity), avg)
    {
      best := 0;
      var bestVal := Evaluate(es, 0, I);
      for i := 1 to n
        invariant MemoSound(memo, policy, p, avg, L) && best < i
        invariant bestVal == ActionValue(es, best, p, Pure(policy, L.arity), avg)
        invariant forall j :: 0 <= j < i ==> ActionValue(es, j, p, Pure(policy, L.arity), avg) <= bestVal
        invariant forall j :: 0 <= j < best ==> ActionValue(es, j, p, Pure(policy, L.arity), avg) < bestVal
      {
        var av := Evaluate(es, i, I);
        if av > bestVal {
          bestVal, best := av, i;
        }
      }
    }

    /** Commits the k-th information set in the order to its best action. */
    method Resolve(I: string, ghost root: Tree, ghost order: seq<string>, ghost k: nat)
      requires states == Grouped(walked) && walked == Walk(root, p, avg, 1.0, 0)
      requires Respects(root, p, L, 0, []) && DeepestFirst(order, OwnInfosets(root, p), L)
      requires k < |order| && order[k] == I && I in OwnInfosets(root, p)
      requires forall i, j :: 0 <= i < j < |order| ==> order[i] != order[j]
      requires policy.Keys == Done(order, k) && Fits(policy, L) && MemoSound(memo, policy, p, avg, L)
      requires NoRegret(root, policy, p, avg, L)
      modifies this`policy, this`memo
      ensures policy.Keys == Done(order, k + 1) && Fits(policy, L) && MemoSound(memo, policy, p, avg, L)
      ensures NoRegret(root, policy, p, avg, L)
    {
      hide *;
      OneMoreDone(order, k);
      ChildrenResolved(root, p, avg, L, order, k);
      EntriesOf(root, p, avg, L, I, walked);
      var entries := states[I];
      assert AtInfoset(entries[0], p, L, I);
      ActionCount(entries[0], p, L, I);
      var n := |entries[0].node.children|;
      var best := Choose(entries, n, I);
      ResolvingKeepsNoRegret(root, p, avg, L, policy, I, best);
      MemoSurvives(memo, policy, I, best, p, avg, L);
      policy := policy[I := best];
    }

    method BestResponse(root: Tree) returns (v: real)
      requires Respects(root, p, L, 0, [])
      requires states == map[] && policy == map[] && memo == map[] && walked == []
      modifies this
      ensures IsBestResponseValue(v, root, p, avg)
    {
      hide Walk, Histories, OwnInfosets, Respects, Utility, Expected, IsBestResponseValue;
      Collect(root, 1.0, 0);
      CollectedStates(root, p, avg, L, walked);
      var order := Order();
      OrderIsDeepestFirst(order, states, root, p, avg, L);
      forall mine | Profile(mine) ensures mine + Pure(policy, L.arity) == mine {
      }
      for k := 0 to |order|
        invariant states == Grouped(walked) && walked == Walk(root, p, avg, 1.0, 0)
        invariant policy.Keys == Done(order, k) && Fits(policy, L) && MemoSound(memo, policy, p, avg, L)
        invariant NoRegret(root, policy, p, avg, L)
      {
        Resolve(order[k], root, order, k);
      }
      v := Value(root, 0, []);
      PolicyIsBest(root, p, avg, L, policy);
    }
  }

  // ---------------------------------------------------------------- exploitability

  ghost predicate Nash(root: Tree, avg: Strategy) {
    forall p: nat, mine :: p < 2 && Profile(mine) ==> Expected(root, p, mine, avg) <= Expected(root, p, avg, avg)
  }

  lemma ExploitabilityMeasuresNash(root: Tree, avg: Strategy, v0: real, v1: real)
    requires WellFormed(root) && ZeroSum(root) && Profile(avg)
    requires IsBestResponseValue(v0, root, 0, avg) && IsBestResponseValue(v1, root, 1, avg)
    ensures (v0 + v1) / 2.0 >= 0.0
    ensures (v0 + v1) / 2.0 == 0.0 <==> Nash(root, avg)
  {
    hide Utility, Expected;
    UtilitiesCancel(root, avg, avg);
    UtilityIsExpected(root, 0, avg, avg);
    UtilityIsExpected(root, 1, avg, avg);
  }

  lemma ExpectationsCancel(t: Tree, a: Strategy, b: Strategy)
    requires WellFormed(t) && ZeroSum(t)
    ensures Expected(t, 1, b, a) == -Expected(t, 0, a, b)
  {
    UtilitiesCancel(t, a, b);
    UtilityIsExpected(t, 1, b, a);
    UtilityIsExpected(t, 0, a, b);
  }

  /** Expected value to player 0 when both players follow `avg`. */
  ghost function ProfileValue(root: Tree, avg: Strategy): real {
    Expected(root, 0, avg, avg)
  }

  /** The profile's value is between the two best responses, and within twice the exploitability of the game's. */
  lemma ProfileValueNearsGameValue(root: Tree, avg: Strategy, v0: real, v1: real, solution: Strategy)
    requires WellFormed(root) && ZeroSum(root) && Profile(avg) && Profile(solution) && Nash(root, solution)
    requires IsBestResponseValue(v0, root, 0, avg) && IsBestResponseValue(v1, root, 1, avg)
    ensures -v1 <= ProfileValue(root, avg) <= v0
    ensures -(v0 + v1) <= ProfileValue(root, avg) - ProfileValue(root, solution) <= v0 + v1
  {
    hide Utility, Expected;
    ExpectationsCancel(root, avg, avg);
    ExpectationsCancel(root, solution, avg);
    ExpectationsCancel(root, avg, solution);
    ExpectationsCancel(root, solution, solution);
  }

  /** Average gain of the two exact best responses against `avg`. */
  method Exploitability(root: Tree, avg: Strategy, ghost L0: Layout, ghost L1: Layout) returns (e: real)
    requires Respects(root, 0, L0, 0, []) && Respects(root, 1, L1, 0, [])
    ensures exists v0, v1 ::
              && IsBestResponseValue(v0, root, 0, avg) && IsBestResponseValue(v1, root, 1, avg)
              && e == (v0 + v1) / 2.0
    ensures WellFormed(root) && ZeroSum(root) && Profile(avg) ==> e >= 0.0 && (e == 0.0 <==> Nash(root, avg))
  {
    hide Respects, IsBestResponseValue, Nash;
    var first := new Responder(0, avg, L0);
    var v0 := first.BestResponse(root);
    var second := new Responder(1, avg, L1);
    var v1 := second.BestResponse(root);
    e := (v0 + v1) / 2.0;
    if WellFormed(root) && ZeroSum(root) && Profile(avg) {
      ExploitabilityMeasuresNash(root, avg, v0, v1);
    }
  }
}
