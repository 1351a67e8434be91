// A game written out: all the ways it can be played to the end, and how likely chance and the players make each.
// Nothing here uses the recursive evaluation; `UtilityIsExpected` says that it computes the sum over the plays.
module Paths {
  import opened Reals
  import opened Game

  /** What a path may lead to: the end of the game, or a decision of a player at an information set. */
  datatype Target = End | At(player: nat, infoset: string)

  ghost predicate Hits(t: Tree, g: Target) {
    match g
    case End => t.Terminal?
    case At(p, I) => t.Decision? && t.player == p && t.infoset == I
  }

  /** The choices from `t` on, by index, exist. */
  ghost predicate Leads(t: Tree, path: seq<nat>)
    decreases |path|
  {
    path != [] ==> !t.Terminal? && path[0] < |t.children| && Leads(t.children[path[0]], path[1..])
  }

  ghost function NodeAt(t: Tree, path: seq<nat>): Tree
    requires Leads(t, path)
    decreases |path|
  {
    if path == [] then t else NodeAt(t.children[path[0]], path[1..])
  }

  /** All paths to a target, in the order of a traversal. */
  ghost function PathsTo(t: Tree, g: Target): seq<seq<nat>>
    decreases t, 0
  {
    (if Hits(t, g) then [[]] else []) + (if t.Terminal? then [] else PathsAmong(t.children, g, |t.children|))
  }

  ghost function PathsAmong(ts: seq<Tree>, g: Target, n: nat): seq<seq<nat>>
    requires n <= |ts|
    decreases ts, n
  {
    if n == 0 then [] else PathsAmong(ts, g, n - 1) + Stepped(n - 1, PathsTo(ts[n - 1], g))
  }

  /** The paths that start with choice `i` and then go on. */
  ghost function Stepped(i: nat, paths: seq<seq<nat>>): (ps: seq<seq<nat>>)
    ensures |ps| == |paths|
    ensures forall k :: 0 <= k < |ps| ==> ps[k] == [i] + paths[k]
  {
    seq(|paths|, k requires 0 <= k < |paths| => [i] + paths[k])
  }

  lemma {:induction false} PathsAreAll(t: Tree, g: Target, path: seq<nat>)
    ensures path in PathsTo(t, g) <==> Leads(t, path) && Hits(NodeAt(t, path), g)
    decreases t, 0
  {
    if !t.Terminal? {
      PathsAmongAreAll(t.children, g, path, |t.children|);
    }
  }

  lemma {:induction false} PathsAmongAreAll(ts: seq<Tree>, g: Target, path: seq<nat>, n: nat)
    requires n <= |ts|
    ensures path in PathsAmong(ts, g, n) <==>
            path != [] && path[0] < n && Leads(ts[path[0]], path[1..]) && Hits(NodeAt(ts[path[0]], path[1..]), g)
    decreases ts, n
  {
    if n > 0 {
      PathsAmongAreAll(ts, g, path, n - 1);
      var below := PathsTo(ts[n - 1], g);
      if path != [] {
        PathsAreAll(ts[n - 1], g, path[1..]);
        assert path == [path[0]] + path[1..];
        if path[0] == n - 1 && path[1..] in below {
          var k :| 0 <= k < |below| && below[k] == path[1..];
          assert Stepped(n - 1, below)[k] == path;
        }
      }
      forall k | 0 <= k < |below| && Stepped(n - 1, below)[k] == path ensures path != [] && path[1..] == below[k] {
        assert path == [n - 1] + below[k];
      }
    }
  }

  /** No path is listed twice. */
  lemma {:induction false} PathsAreDistinct(t: Tree, g: Target)
    ensures forall i, j :: 0 <= i < j < |PathsTo(t, g)| ==> PathsTo(t, g)[i] != PathsTo(t, g)[j]
    decreases t, 0
  {
    if !t.Terminal? {
      PathsAmongAreDistinct(t.children, g, |t.children|);
      PathsAmongAreAll(t.children, g, [], |t.children|);
    }
  }

  lemma {:induction false} PathsAmongAreDistinct(ts: seq<Tree>, g: Target, n: nat)
    requires n <= |ts|
    ensures forall i, j :: 0 <= i < j < |PathsAmong(ts, g, n)| ==> PathsAmong(ts, g, n)[i] != PathsAmong(ts, g, n)[j]
    decreases ts, n
  {
    if n > 0 {
      PathsAmongAreDistinct(ts, g, n - 1);
      PathsAreDistinct(ts[n - 1], g);
      var before, here := PathsAmong(ts, g, n - 1), PathsTo(ts[n - 1], g);
      var ps := Stepped(n - 1, here);
      forall i | 0 <= i < |before| ensures before[i] != [] && before[i][0] < n - 1 {
        PathsAmongAreAll(ts, g, before[i], n - 1);
      }
      forall i, j | 0 <= i < j < |ps| ensures ps[i] != ps[j] {
        assert ps[i][1..] == here[i] && ps[j][1..] == here[j];
      }
    }
  }

  // ---------------------------------------------------------------- how likely a path is

  /** The product of the chance probabilities along a path. */
  ghost function ChanceProb(t: Tree, path: seq<nat>): real
    requires Leads(t, path)
    decreases |path|
  {
    if path == [] then 1.0
    else if !t.Chance? then ChanceProb(t.children[path[0]], path[1..])
    else if |t.probs| != |t.children| then 0.0
    else Times(t.probs[path[0]], ChanceProb(t.children[path[0]], path[1..]))
  }

  /** The entry of a table for one action: of the stored row, or of the uniform one where none of that length is. */
  ghost function EntryOf(table: Strategy, key: string, n: nat, i: nat): real
    requires i < n
  {
    if key in table && |table[key]| == n then table[key][i] else 1.0 / (n as real)
  }

  /** The product of `table`'s entries for the moves of `p` along a path, or of everyone else's. */
  ghost function PlayProb(t: Tree, path: seq<nat>, p: nat, own: bool, table: Strategy): real
    requires Leads(t, path)
    decreases |path|
  {
    if path == [] then 1.0
    else
      var rest := PlayProb(t.children[path[0]], path[1..], p, own, table);
      if t.Decision? && (t.player == p) == own then
        Times(EntryOf(table, t.infoset, |t.children|, path[0]), rest)
      else rest
  }

  /** What one way of playing contributes to the expected payoff of `p`. */
  ghost function Outcome(t: Tree, path: seq<nat>, p: nat, mine: Strategy, theirs: Strategy): real
    requires Leads(t, path) && NodeAt(t, path).Terminal?
  {
    Times(Times(ChanceProb(t, path), Times(PlayProb(t, path, p, true, mine), PlayProb(t, path, p, false, theirs))),
          if p == 0 then NodeAt(t, path).pay0 else NodeAt(t, path).pay1)
  }

  ghost function Outcomes(t: Tree, paths: seq<seq<nat>>, p: nat, mine: Strategy, theirs: Strategy): real
    requires forall path :: path in paths ==> Leads(t, path) && NodeAt(t, path).Terminal?
  {
    if paths == [] then 0.0
    else
      assert paths[|paths| - 1] in paths;
      Outcomes(t, paths[..|paths| - 1], p, mine, theirs) + Outcome(t, paths[|paths| - 1], p, mine, theirs)
  }

  lemma Endings(t: Tree)
    ensures forall path :: path in PathsTo(t, End) ==> Leads(t, path) && NodeAt(t, path).Terminal?
  {
    forall path | path in PathsTo(t, End) ensures Leads(t, path) && NodeAt(t, path).Terminal? {
      PathsAreAll(t, End, path);
    }
  }

  /** The payoff of `p` expected over all ways the game can be played to its end. */
  ghost function Expected(t: Tree, p: nat, mine: Strategy, theirs: Strategy): real {
    Endings(t);
    Outcomes(t, PathsTo(t, End), p, mine, theirs)
  }

  // ---------------------------------------------------------------- the recursive value is the expectation

  lemma {:induction false} OutcomesConcat(t: Tree, xs: seq<seq<nat>>, ys: seq<seq<nat>>, p: nat, mine: Strategy,
      theirs: Strategy)
    requires forall path :: path in xs + ys ==> Leads(t, path) && NodeAt(t, path).Terminal?
    ensures forall path :: path in xs || path in ys ==> path in xs + ys
    ensures Outcomes(t, xs + ys, p, mine, theirs)
            == Outcomes(t, xs, p, mine, theirs) + Outcomes(t, ys, p, mine, theirs)
  {
    hide Outcome;
    if ys == [] {
      assert xs + ys == xs;
    } else {
      var k := |ys| - 1;
      assert (xs + ys)[..|xs + ys| - 1] == xs + ys[..k];
      assert forall path :: path in xs + ys[..k] ==> path in xs + ys;
      OutcomesConcat(t, xs, ys[..k], p, mine, theirs);
    }
  }

  /** How likely the first choice is. */
  ghost function First(t: Tree, p: nat, mine: Strategy, theirs: Strategy, i: nat): real
    requires !t.Terminal? && i < |t.children|
  {
    if t.Chance? then (if |t.probs| == |t.children| then t.probs[i] else 0.0)
    else EntryOf(if t.player == p then mine else theirs, t.infoset, |t.children|, i)
  }

  lemma StepLeads(t: Tree, i: nat, path: seq<nat>)
    requires !t.Terminal? && i < |t.children| && Leads(t.children[i], path)
    ensures Leads(t, [i] + path) && NodeAt(t, [i] + path) == NodeAt(t.children[i], path)
  {
    assert ([i] + path)[1..] == path;
  }

  lemma OutcomeStep(t: Tree, i: nat, path: seq<nat>, p: nat, mine: Strategy, theirs: Strategy)
    requires !t.Terminal? && i < |t.children| && Leads(t.children[i], path) && NodeAt(t.children[i], path).Terminal?
    ensures Leads(t, [i] + path) && NodeAt(t, [i] + path).Terminal?
    ensures Outcome(t, [i] + path, p, mine, theirs)
            == Times(First(t, p, mine, theirs, i), Outcome(t.children[i], path, p, mine, theirs))
  {
    StepLeads(t, i, path);
    assert ([i] + path)[1..] == path;
    var child := t.children[i];
    FactorOut(First(t, p, mine, theirs, i), ChanceProb(child, path), PlayProb(child, path, p, true, mine),
              PlayProb(child, path, p, false, theirs),
              if p == 0 then NodeAt(child, path).pay0 else NodeAt(child, path).pay1);
  }

  lemma FactorOut(w: real, c: real, m: real, h: real, u: real)
    ensures Times(Times(Times(w, c), Times(m, h)), u) == Times(w, Times(Times(c, Times(m, h)), u))
    ensures Times(Times(c, Times(Times(w, m), h)), u) == Times(w, Times(Times(c, Times(m, h)), u))
    ensures Times(Times(c, Times(m, Times(w, h))), u) == Times(w, Times(Times(c, Times(m, h)), u))
    ensures Times(Times(0.0, Times(m, h)), u) == Times(0.0, Times(Times(c, Times(m, h)), u))
  {
    var x := m * h;
    assert (w * c) * x * u == w * (c * x * u);
    assert (w * m) * h == w * x && m * (w * h) == w * x;
    assert c * (w * x) * u == w * (c * x * u);
  }

  lemma {:induction false} OutcomesStep(t: Tree, i: nat, paths: seq<seq<nat>>, p: nat, mine: Strategy,
      theirs: Strategy)
    requires !t.Terminal? && i < |t.children|
    requires forall path :: path in paths ==> Leads(t.children[i], path) && NodeAt(t.children[i], path).Terminal?
    ensures forall path :: path in Stepped(i, paths) ==> Leads(t, path) && NodeAt(t, path).Terminal?
    ensures Outcomes(t, Stepped(i, paths), p, mine, theirs)
            == Times(First(t, p, mine, theirs, i), Outcomes(t.children[i], paths, p, mine, theirs))
  {
    hide Outcome, First, Times;
    forall path | path in Stepped(i, paths) ensures Leads(t, path) && NodeAt(t, path).Terminal? {
      var k :| 0 <= k < |paths| && Stepped(i, paths)[k] == path;
      assert paths[k] in paths;
      StepLeads(t, i, paths[k]);
    }
    var w := First(t, p, mine, theirs, i);
    if paths == [] {
      TimesZero(w);
    } else {
      var k := |paths| - 1;
      OutcomesStep(t, i, paths[..k], p, mine, theirs);
      assert Stepped(i, paths)[..k] == Stepped(i, paths[..k]);
      assert paths[k] in paths;
      OutcomeStep(t, i, paths[k], p, mine, theirs);
      TimesAlgebra(w, 0.0, Outcomes(t.children[i], paths[..k], p, mine, theirs),
                   Outcome(t.children[i], paths[k], p, mine, theirs));
    }
  }

  lemma FirstIsWeight(t: Tree, p: nat, mine: Strategy, theirs: Strategy, i: nat)
    requires !t.Terminal? && i < |t.children|
    ensures First(t, p, mine, theirs, i) == NodeWeights(t, p, mine, theirs)[i]
  {
  }

  lemma EndingsAmong(t: Tree, n: nat)
    requires !t.Terminal? && n <= |t.children|
    ensures forall path :: path in PathsAmong(t.children, End, n) ==> Leads(t, path) && NodeAt(t, path).Terminal?
  {
    hide PathsAmong;
    forall path | path in PathsAmong(t.children, End, n) ensures Leads(t, path) && NodeAt(t, path).Terminal? {
      PathsAmongAreAll(t.children, End, path, n);
    }
  }

  lemma NoOutcomes(t: Tree, p: nat, mine: Strategy, theirs: Strategy)
    ensures Outcomes(t, [], p, mine, theirs) == 0.0
  {
  }

  lemma ExpectedIs(t: Tree, p: nat, mine: Strategy, theirs: Strategy)
    ensures forall path :: path in PathsTo(t, End) ==> Leads(t, path) && NodeAt(t, path).Terminal?
    ensures Expected(t, p, mine, theirs) == Outcomes(t, PathsTo(t, End), p, mine, theirs)
  {
    Endings(t);
  }

  lemma OneMoreChild(t: Tree, p: nat, mine: Strategy, theirs: Strategy, k: nat)
    requires !t.Terminal? && k < |t.children|
    requires forall path :: path in PathsAmong(t.children, End, k) ==> Leads(t, path) && NodeAt(t, path).Terminal?
    requires forall path :: path in PathsAmong(t.children, End, k + 1) ==> Leads(t, path) && NodeAt(t, path).Terminal?
    ensures Outcomes(t, PathsAmong(t.children, End, k + 1), p, mine, theirs)
            == Outcomes(t, PathsAmong(t.children, End, k), p, mine, theirs)
               + Times(NodeWeights(t, p, mine, theirs)[k], Expected(t.children[k], p, mine, theirs))
  {
    var before, paths := PathsAmong(t.children, End, k), PathsTo(t.children[k], End);
    assert PathsAmong(t.children, End, k + 1) == before + Stepped(k, paths);
    hide *;
    ExpectedIs(t.children[k], p, mine, theirs);
    OutcomesStep(t, k, paths, p, mine, theirs);
    OutcomesConcat(t, before, Stepped(k, paths), p, mine, theirs);
    FirstIsWeight(t, p, mine, theirs, k);
  }

  lemma {:induction false} AmongIsDot(t: Tree, p: nat, mine: Strategy, theirs: Strategy, n: nat)
    requires !t.Terminal? && n <= |t.children|
    requires forall i :: 0 <= i < n ==>
               Utility(t.children[i], p, mine, theirs) == Expected(t.children[i], p, mine, theirs)
    ensures forall path :: path in PathsAmong(t.children, End, n) ==> Leads(t, path) && NodeAt(t, path).Terminal?
    ensures Outcomes(t, PathsAmong(t.children, End, n), p, mine, theirs)
            == Dot(NodeWeights(t, p, mine, theirs), Utilities(t.children, p, mine, theirs), n)
  {
    hide Times, Outcomes, NodeWeights, Utility, Expected, PathsTo, Leads, NodeAt;
    EndingsAmong(t, n);
    if n == 0 {
      NoOutcomes(t, p, mine, theirs);
    } else {
      AmongIsDot(t, p, mine, theirs, n - 1);
      OneMoreChild(t, p, mine, theirs, n - 1);
    }
  }

  /**
   * The value of a game under two strategies is the sum over all its plays of the payoff, times the chance
   * probabilities on the way, times both players' probabilities of their moves.
   */
  lemma {:induction false} UtilityIsExpected(t: Tree, p: nat, mine: Strategy, theirs: Strategy)
    ensures Utility(t, p, mine, theirs) == Expected(t, p, mine, theirs)
  {
    if t.Terminal? {
      assert PathsTo(t, End) == [[]];
      OneEnding(t, p, mine, theirs);
    } else {
      forall i | 0 <= i < |t.children|
        ensures Utility(t.children[i], p, mine, theirs) == Expected(t.children[i], p, mine, theirs)
      {
        UtilityIsExpected(t.children[i], p, mine, theirs);
      }
      AmongIsDot(t, p, mine, theirs, |t.children|);
      assert PathsTo(t, End) == PathsAmong(t.children, End, |t.children|);
    }
  }

  lemma OneEnding(t: Tree, p: nat, mine: Strategy, theirs: Strategy)
    requires t.Terminal?
    ensures Leads(t, []) && Outcomes(t, [[]], p, mine, theirs) == Payoff(t, p)
  {
    var none: seq<nat> := [];
    assert [none][..0] == [];
    assert Outcome(t, none, p, mine, theirs) == Payoff(t, p);
  }

  // ---------------------------------------------------------------- how often a player takes an action

  /** How likely `p` is to go one of the ways and then take action `a` of the `n` at `key`, all ways added up. */
  ghost function TakenAlong(t: Tree, paths: seq<seq<nat>>, p: nat, table: Strategy, key: string, n: nat, a: nat): real
    requires a < n && forall path :: path in paths ==> Leads(t, path)
  {
    if paths == [] then 0.0
    else
      assert paths[|paths| - 1] in paths;
      TakenAlong(t, paths[..|paths| - 1], p, table, key, n, a)
      + Times(PlayProb(t, paths[|paths| - 1], p, true, table), EntryOf(table, key, n, a))
  }

  lemma WaysLead(t: Tree, g: Target)
    ensures forall path :: path in PathsTo(t, g) ==> Leads(t, path)
  {
    forall path | path in PathsTo(t, g) ensures Leads(t, path) {
      PathsAreAll(t, g, path);
    }
  }

  /** The same over all ways to `key`. */
  ghost function Taken(t: Tree, p: nat, table: Strategy, key: string, n: nat, a: nat): real
    requires a < n
  {
    WaysLead(t, At(p, key));
    TakenAlong(t, PathsTo(t, At(p, key)), p, table, key, n, a)
  }

  lemma {:induction false} TakenConcat(t: Tree, xs: seq<seq<nat>>, ys: seq<seq<nat>>, p: nat, table: Strategy,
      key: string, n: nat, a: nat)
    requires a < n && forall path :: path in xs + ys ==> Leads(t, path)
    ensures forall path :: path in xs || path in ys ==> path in xs + ys
    ensures TakenAlong(t, xs + ys, p, table, key, n, a)
            == TakenAlong(t, xs, p, table, key, n, a) + TakenAlong(t, ys, p, table, key, n, a)
  {
    hide PlayProb, Leads;
    if ys == [] {
      assert xs + ys == xs;
    } else {
      var k := |ys| - 1;
      assert (xs + ys)[..|xs + ys| - 1] == xs + ys[..k];
      assert forall path :: path in xs + ys[..k] ==> path in xs + ys;
      TakenConcat(t, xs, ys[..k], p, table, key, n, a);
    }
  }

  /** The player's own factor in the first choice. */
  ghost function OwnFirst(t: Tree, p: nat, table: Strategy, i: nat): real
    requires !t.Terminal? && i < |t.children|
  {
    if t.Decision? && t.player == p then EntryOf(table, t.infoset, |t.children|, i) else 1.0
  }

  lemma PlayStep(t: Tree, i: nat, path: seq<nat>, p: nat, table: Strategy)
    requires !t.Terminal? && i < |t.children| && Leads(t.children[i], path)
    ensures Leads(t, [i] + path)
    ensures PlayProb(t, [i] + path, p, true, table)
            == Times(OwnFirst(t, p, table, i), PlayProb(t.children[i], path, p, true, table))
  {
    StepLeads(t, i, path);
    assert ([i] + path)[1..] == path;
  }

  lemma {:induction false} TakenStep(t: Tree, i: nat, paths: seq<seq<nat>>, p: nat, table: Strategy, key: string,
      n: nat, a: nat)
    requires !t.Terminal? && i < |t.children| && a < n
    requires forall path :: path in paths ==> Leads(t.children[i], path)
    ensures forall path :: path in Stepped(i, paths) ==> Leads(t, path)
    ensures TakenAlong(t, Stepped(i, paths), p, table, key, n, a)
            == Times(OwnFirst(t, p, table, i), TakenAlong(t.children[i], paths, p, table, key, n, a))
  {
    hide PlayProb, OwnFirst, Times, EntryOf;
    forall path | path in Stepped(i, paths) ensures Leads(t, path) {
      var k :| 0 <= k < |paths| && Stepped(i, paths)[k] == path;
      assert paths[k] in paths;
      StepLeads(t, i, paths[k]);
    }
    var w, e := OwnFirst(t, p, table, i), EntryOf(table, key, n, a);
    if paths == [] {
      TimesZero(w);
    } else {
      var k := |paths| - 1;
      TakenStep(t, i, paths[..k], p, table, key, n, a);
      assert Stepped(i, paths)[..k] == Stepped(i, paths[..k]);
      assert paths[k] in paths;
      PlayStep(t, i, paths[k], p, table);
      var x := PlayProb(t.children[i], paths[k], p, true, table);
      TimesAlgebra(w, x, e, 0.0);
      TimesAlgebra(w, 0.0, TakenAlong(t.children[i], paths[..k], p, table, key, n, a), Times(x, e));
    }
  }

  lemma WaysAmongLead(t: Tree, g: Target, m: nat)
    requires !t.Terminal? && m <= |t.children|
    ensures forall path :: path in PathsAmong(t.children, g, m) ==> Leads(t, path)
  {
    hide PathsAmong;
    forall path | path in PathsAmong(t.children, g, m) ensures Leads(t, path) {
      PathsAmongAreAll(t.children, g, path, m);
    }
  }

  /** The same over the ways that begin with one of the first `m` choices. */
  ghost function TakenAmong(t: Tree, p: nat, table: Strategy, key: string, n: nat, a: nat, m: nat): real
    requires a < n && !t.Terminal? && m <= |t.children|
  {
    WaysAmongLead(t, At(p, key), m);
    TakenAlong(t, PathsAmong(t.children, At(p, key), m), p, table, key, n, a)
  }

  lemma TakenAmongNone(t: Tree, p: nat, table: Strategy, key: string, n: nat, a: nat)
    requires a < n && !t.Terminal?
    ensures TakenAmong(t, p, table, key, n, a, 0) == 0.0
  {
  }

  lemma TakenAmongMore(t: Tree, p: nat, table: Strategy, key: string, n: nat, a: nat, m: nat)
    requires a < n && !t.Terminal? && m < |t.children|
    ensures TakenAmong(t, p, table, key, n, a, m + 1)
            == TakenAmong(t, p, table, key, n, a, m)
               + Times(OwnFirst(t, p, table, m), Taken(t.children[m], p, table, key, n, a))
  {
    var before, paths := PathsAmong(t.children, At(p, key), m), PathsTo(t.children[m], At(p, key));
    assert PathsAmong(t.children, At(p, key), m + 1) == before + Stepped(m, paths);
    hide TakenAlong, PathsAmong, PathsTo, Leads, Times, OwnFirst;
    WaysAmongLead(t, At(p, key), m);
    WaysAmongLead(t, At(p, key), m + 1);
    WaysLead(t.children[m], At(p, key));
    TakenStep(t, m, paths, p, table, key, n, a);
    TakenConcat(t, before, Stepped(m, paths), p, table, key, n, a);
  }

  lemma TakenIs(t: Tree, p: nat, table: Strategy, key: string, n: nat, a: nat)
    requires a < n
    ensures t.Terminal? ==> Taken(t, p, table, key, n, a) == 0.0
    ensures !t.Terminal? ==>
              Taken(t, p, table, key, n, a)
              == (if t.Decision? && t.player == p && t.infoset == key then EntryOf(table, key, n, a) else 0.0)
                 + TakenAmong(t, p, table, key, n, a, |t.children|)
  {
    WaysLead(t, At(p, key));
    if !t.Terminal? {
      hide PathsAmong;
      WaysAmongLead(t, At(p, key), |t.children|);
      var none: seq<nat> := [];
      var here := if Hits(t, At(p, key)) then [none] else [];
      var below := PathsAmong(t.children, At(p, key), |t.children|);
      assert PathsTo(t, At(p, key)) == here + below;
      TakenConcat(t, here, below, p, table, key, n, a);
      if here != [] {
        assert here[..0] == [];
        assert TakenAlong(t, here, p, table, key, n, a) == EntryOf(table, key, n, a);
      }
    }
  }
}
