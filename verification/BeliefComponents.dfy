// `BeliefGraph.componentSize` (packages/arc-agi-3/src/belief-graph.ts): the strongly connected
// component of an observation once belief nodes that look alike are merged.
module BeliefComponents {
  import opened BeliefGraph
  import opened Collections
  import opened Wrappers

  /** Some recorded outcome leads from a node looking like `a` to a node looking like `b`. */
  ghost predicate Link(g: Graph, a: ObservationHash, b: ObservationHash) {
    exists k, j :: k in g.edges.at && 0 <= j < |g.edges.at[k].outcomes| && Leads(g, k, j, a, b)
  }

  ghost predicate Leads(g: Graph, k: EdgeKey, j: int, a: ObservationHash, b: ObservationHash)
    requires k in g.edges.at && 0 <= j < |g.edges.at[k].outcomes|
  {
    var e := g.edges.at[k];
    e.observation == a && e.outcomes[j].to in g.nodes.at && g.nodes.at[e.outcomes[j].to].observation == b
  }

  ghost predicate Walk(g: Graph, p: seq<ObservationHash>) {
    p != [] && forall i :: 0 <= i < |p| - 1 ==> Link(g, p[i], p[i + 1])
  }

  ghost predicate Reaches(g: Graph, a: ObservationHash, b: ObservationHash) {
    exists p :: Walk(g, p) && p[0] == a && p[|p| - 1] == b
  }

  function Sights(g: Graph): set<ObservationHash> {
    set k | k in g.nodes.at :: g.nodes.at[k].observation
  }

  /** The strongly connected component of an observation in the merged graph. */
  ghost function Component(g: Graph, o: ObservationHash): set<ObservationHash> {
    set c | c in Sights(g) + {o} && Reaches(g, o, c) && Reaches(g, c, o)
  }

  lemma ReachesItself(g: Graph, a: ObservationHash)
    ensures Reaches(g, a, a)
  {
    assert Walk(g, [a]);
  }

  lemma ReachesFurther(g: Graph, a: ObservationHash, b: ObservationHash, c: ObservationHash)
    requires Reaches(g, a, b) && Link(g, b, c)
    ensures Reaches(g, a, c)
  {
    hide Link;
    var p :| Walk(g, p) && p[0] == a && p[|p| - 1] == b;
    var q := p + [c];
    assert Walk(g, q) && q[0] == a && q[|q| - 1] == c;
  }

  /** Leaving the start means arriving at some node, so the component misses nothing. */
  lemma ComponentIsComplete(g: Graph, o: ObservationHash, c: ObservationHash)
    requires Reaches(g, o, c) && Reaches(g, c, o)
    ensures c in Component(g, o)
  {
    var p :| Walk(g, p) && p[0] == o && p[|p| - 1] == c;
    if |p| > 1 {
      assert Link(g, p[|p| - 2], p[|p| - 1]);
      var k, j :| k in g.edges.at && 0 <= j < |g.edges.at[k].outcomes| && Leads(g, k, j, p[|p| - 2], c);
    }
  }

  /** A set closed under links holds everything its members reach. */
  lemma {:induction false} ClosedHoldsReachable(g: Graph, s: set<ObservationHash>, p: seq<ObservationHash>)
    requires Walk(g, p) && p[0] in s
    requires forall a, b :: a in s && Link(g, a, b) ==> b in s
    ensures p[|p| - 1] in s
    decreases |p|
  {
    hide Link;
    if |p| > 1 {
      assert Walk(g, p[1..]);
      ClosedHoldsReachable(g, s, p[1..]);
    }
  }

  // ---------------------------------------------------------------- the adjacency table

  type Adjacency = map<ObservationHash, seq<ObservationHash>>

  predicate Adjacent(adj: Adjacency, a: ObservationHash, b: ObservationHash) {
    a in adj && b in adj[a]
  }

  ghost predicate Represents(adj: Adjacency, g: Graph) {
    && (forall a, b :: Adjacent(adj, a, b) <==> Link(g, a, b))
    && (forall o :: o in Sights(g) ==> o in adj)
    && (forall a, b :: Adjacent(adj, a, b) ==> b in Sights(g))
  }

  /** The outcomes of the first edges, plus the first outcomes of the next one. */
  ghost predicate LinkUpTo(g: Graph, i: int, m: int, a: ObservationHash, b: ObservationHash)
    requires 0 <= i <= |g.edges.keys| && g.edges.Valid()
  {
    exists x, j :: 0 <= x < |g.edges.keys| && 0 <= j < |g.edges.at[g.edges.keys[x]].outcomes|
      && (x < i || (x == i && j < m)) && Leads(g, g.edges.keys[x], j, a, b)
  }

  ghost predicate Covered(adj: Adjacency, g: Graph, i: int, m: int)
    requires 0 <= i <= |g.edges.keys| && g.edges.Valid()
  {
    forall a, b :: Adjacent(adj, a, b) <==> LinkUpTo(g, i, m, a, b)
  }

  function Include(adj: Adjacency, a: ObservationHash, b: ObservationHash): Adjacency
    requires a in adj
  {
    if b in adj[a] then adj else adj[a := adj[a] + [b]]
  }

  lemma CoverOutcome(adj: Adjacency, g: Graph, i: nat, m: nat)
    requires g.edges.Valid() && i < |g.edges.keys| && m < |g.edges.at[g.edges.keys[i]].outcomes|
    requires Covered(adj, g, i, m) && g.edges.at[g.edges.keys[i]].observation in adj
    ensures var e := g.edges.at[g.edges.keys[i]];
            var to := g.nodes.Get(e.outcomes[m].to);
            Covered(if to.Some? then Include(adj, e.observation, to.value.observation) else adj, g, i, m + 1)
  {
    var e := g.edges.at[g.edges.keys[i]];
    var to := g.nodes.Get(e.outcomes[m].to);
    var more := if to.Some? then Include(adj, e.observation, to.value.observation) else adj;
    forall a, b ensures Adjacent(more, a, b) <==> LinkUpTo(g, i, m + 1, a, b) {
      LinkOneMore(g, i, m, a, b);
    }
  }

  lemma LinkOneMore(g: Graph, i: nat, m: nat, a: ObservationHash, b: ObservationHash)
    requires g.edges.Valid() && i < |g.edges.keys| && m < |g.edges.at[g.edges.keys[i]].outcomes|
    ensures LinkUpTo(g, i, m + 1, a, b) <==> LinkUpTo(g, i, m, a, b) || Leads(g, g.edges.keys[i], m, a, b)
  {
    hide Leads;
  }

  lemma NextEdge(adj: Adjacency, g: Graph, i: nat)
    requires g.edges.Valid() && i < |g.edges.keys|
    requires Covered(adj, g, i, |g.edges.at[g.edges.keys[i]].outcomes|)
    ensures Covered(adj, g, i + 1, 0)
  {
    hide Leads;
    forall a, b ensures LinkUpTo(g, i + 1, 0, a, b) <==> LinkUpTo(g, i, |g.edges.at[g.edges.keys[i]].outcomes|, a, b) {}
  }

  lemma CoveredAll(adj: Adjacency, g: Graph)
    requires g.edges.Valid() && Covered(adj, g, |g.edges.keys|, 0)
    ensures forall a, b :: Adjacent(adj, a, b) <==> Link(g, a, b)
    ensures forall a, b :: Adjacent(adj, a, b) ==> b in Sights(g)
  {
    forall a, b ensures LinkUpTo(g, |g.edges.keys|, 0, a, b) <==> Link(g, a, b) {
      if Link(g, a, b) {
        var k, j :| k in g.edges.at && 0 <= j < |g.edges.at[k].outcomes| && Leads(g, k, j, a, b);
        assert k in Elements(g.edges.keys);
        var x :| 0 <= x < |g.edges.keys| && g.edges.keys[x] == k;
      }
      if LinkUpTo(g, |g.edges.keys|, 0, a, b) {
        var x, j :| 0 <= x < |g.edges.keys| && 0 <= j < |g.edges.at[g.edges.keys[x]].outcomes|
            && Leads(g, g.edges.keys[x], j, a, b);
        assert g.edges.keys[x] in Elements(g.edges.keys);
      }
    }
  }

  lemma EmptyRow(adj: Adjacency, g: Graph, i: nat, m: nat, o: ObservationHash)
    requires g.edges.Valid() && i <= |g.edges.keys| && Covered(adj, g, i, m) && o !in adj
    ensures Covered(adj[o := []], g, i, m)
  {
    hide LinkUpTo;
    forall a, b ensures Adjacent(adj[o := []], a, b) <==> Adjacent(adj, a, b) {}
  }

  method BuildAdjacency(g: Graph) returns (adj: Adjacency)
    requires g.nodes.Valid() && g.edges.Valid()
    ensures Represents(adj, g)
  {
    hide Covered, LinkUpTo, Link, Leads, Include;
    adj := map[];
    NothingCovered(g);
    for i := 0 to |g.edges.keys|
      invariant Covered(adj, g, i, 0)
    {
      assert g.edges.keys[i] in Elements(g.edges.keys);
      var e := g.edges.at[g.edges.keys[i]];
      if e.observation !in adj {
        EmptyRow(adj, g, i, 0, e.observation);
        adj := adj[e.observation := []];
      }
      for m := 0 to |e.outcomes|
        invariant Covered(adj, g, i, m) && e.observation in adj
      {
        CoverOutcome(adj, g, i, m);
        var to := g.nodes.Get(e.outcomes[m].to);
        if to.Some? {
          adj := IncludeKeeps(adj, e.observation, to.value.observation);
        }
      }
      NextEdge(adj, g, i);
    }
    for i := 0 to |g.nodes.keys|
      invariant Covered(adj, g, |g.edges.keys|, 0)
      invariant forall j :: 0 <= j < i ==>
                g.nodes.keys[j] in g.nodes.at && g.nodes.at[g.nodes.keys[j]].observation in adj
    {
      assert g.nodes.keys[i] in Elements(g.nodes.keys);
      var o := g.nodes.at[g.nodes.keys[i]].observation;
      if o !in adj {
        EmptyRow(adj, g, |g.edges.keys|, 0, o);
        adj := adj[o := []];
      }
    }
    CoveredAll(adj, g);
    forall o | o in Sights(g) ensures o in adj {
      var k :| k in g.nodes.at && g.nodes.at[k].observation == o;
      assert k in Elements(g.nodes.keys);
    }
  }

  function IncludeKeeps(adj: Adjacency, a: ObservationHash, b: ObservationHash): (r: Adjacency)
    requires a in adj
    ensures r == Include(adj, a, b) && a in r
  {
    Include(adj, a, b)
  }

  lemma NothingCovered(g: Graph)
    requires g.edges.Valid()
    ensures Covered(map[], g, 0, 0)
  {
  }

  // ---------------------------------------------------------------- depth-first search

  ghost predicate Frontiers(g: Graph, start: ObservationHash, seen: set<ObservationHash>, stack: seq<ObservationHash>) {
    && (start in seen || start in stack)
    && (forall s :: s in seen || s in stack ==> Reaches(g, start, s))
    && (forall a, b :: a in seen && Link(g, a, b) ==> b in seen || b in stack)
  }

  lemma PopSeen(g: Graph, start: ObservationHash, seen: set<ObservationHash>, stack: seq<ObservationHash>)
    requires Frontiers(g, start, seen, stack) && stack != [] && stack[|stack| - 1] in seen
    ensures Frontiers(g, start, seen, stack[..|stack| - 1])
  {
    hide Reaches, Link;
    assert stack == stack[..|stack| - 1] + [stack[|stack| - 1]];
  }

  lemma PopFresh(g: Graph, adj: Adjacency, start: ObservationHash, seen: set<ObservationHash>,
      stack: seq<ObservationHash>, next: ObservationHash, targets: seq<ObservationHash>)
    requires Represents(adj, g) && Frontiers(g, start, seen, stack) && stack != [] && next == stack[|stack| - 1]
    requires targets == if next in adj then adj[next] else []
    ensures Frontiers(g, start, seen + {next}, stack[..|stack| - 1] + targets)
  {
    hide Reaches, Link, Sights;
    assert stack == stack[..|stack| - 1] + [next];
    forall s | s in targets ensures Reaches(g, start, s) {
      assert Adjacent(adj, next, s);
      ReachesFurther(g, start, next, s);
    }
    forall b | Link(g, next, b) ensures b in targets {
      assert Adjacent(adj, next, b);
    }
  }

  lemma SearchIsDone(g: Graph, start: ObservationHash, seen: set<ObservationHash>, c: ObservationHash)
    requires Frontiers(g, start, seen, [])
    ensures c in seen <==> Reaches(g, start, c)
  {
    hide Link;
    if Reaches(g, start, c) {
      var p :| Walk(g, p) && p[0] == start && p[|p| - 1] == c;
      ClosedHoldsReachable(g, seen, p);
    }
  }

  method Reachable(adj: Adjacency, start: ObservationHash, ghost g: Graph) returns (seen: set<ObservationHash>)
    requires Represents(adj, g)
    ensures forall c :: c in seen <==> Reaches(g, start, c)
    ensures seen <= Sights(g) + {start}
  {
    hide Represents, Frontiers, Reaches;
    ghost var universe := Sights(g) + {start};
    var stack := [start];
    seen := {};
    StartOfSearch(g, start);
    while stack != []
      invariant Frontiers(g, start, seen, stack)
      invariant seen <= universe && forall s :: s in stack ==> s in universe
      decreases |universe - seen|, |stack|
    {
      var next := stack[|stack| - 1];
      if next in seen {
        PopSeen(g, start, seen, stack);
        stack := stack[..|stack| - 1];
      } else {
        var targets := if next in adj then adj[next] else [];
        PopFresh(g, adj, start, seen, stack, next, targets);
        TargetsAreSights(g, adj, next);
        assert next in stack;
        Shrinks(universe, seen, next);
        stack := stack[..|stack| - 1] + targets;
        seen := seen + {next};
      }
    }
    forall c ensures c in seen <==> Reaches(g, start, c) {
      SearchIsDone(g, start, seen, c);
    }
  }

  lemma StartOfSearch(g: Graph, start: ObservationHash)
    ensures Frontiers(g, start, {}, [start])
  {
    ReachesItself(g, start);
  }

  lemma TargetsAreSights(g: Graph, adj: Adjacency, next: ObservationHash)
    requires Represents(adj, g)
    ensures next in adj ==> forall t :: t in adj[next] ==> t in Sights(g)
  {
    if next in adj {
      forall t | t in adj[next] ensures t in Sights(g) {
        assert Adjacent(adj, next, t);
      }
    }
  }

  lemma Shrinks(universe: set<ObservationHash>, seen: set<ObservationHash>, next: ObservationHash)
    requires next in universe && next !in seen
    ensures |universe - (seen + {next})| < |universe - seen|
  {
    assert universe - (seen + {next}) == (universe - seen) - {next};
  }

  /** The count is the size of the strongly connected component. */
  method ComponentSize(graph: BeliefGraph, o: ObservationHash) returns (count: nat)
    requires graph.nodes.Valid() && graph.edges.Valid()
    ensures count == |Component(graph.State(), o)|
  {
    hide Represents, Reaches;
    ghost var g := graph.State();
    var adj := BuildAdjacency(graph.State());
    var outward := Reachable(adj, o, g);
    var rest := outward;
    count := 0;
    ghost var counted: set<ObservationHash> := {};
    while rest != {}
      invariant rest <= outward && counted <= outward && count == |counted|
      invariant forall c :: c in counted <==> c in outward && c !in rest && Reaches(g, c, o)
      decreases |rest|
    {
      var candidate :| candidate in rest;
      rest := rest - {candidate};
      var back := Reachable(adj, candidate, g);
      if o in back {
        assert candidate !in counted;
        count, counted := count + 1, counted + {candidate};
      }
    }
    assert counted == Component(g, o);
  }
}
