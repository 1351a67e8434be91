// The belief graph of a run (packages/arc-agi-3/src/belief-graph.ts). Hashes are free terms: a key
// is the structure that was hashed, so equal keys mean equal contents.
module BeliefGraph {
  import opened Collections
  import opened Wrappers

  type Hash = string

  datatype ActionName = RESET | ACTION1 | ACTION2 | ACTION3 | ACTION4 | ACTION5 | ACTION6 | ACTION7

  datatype Action = Action(name: ActionName, at: Option<(int, int)>)

  datatype State = NOT_PLAYED | NOT_FINISHED | WIN | GAME_OVER

  datatype Scope = Scope(principal: string, game: string, run: string)

  /** The hash of an observation: its game, state, progress, actions and current frame. */
  datatype ObservationHash =
    | HashOf(game: string, state: State, levels: int, winLevels: int, actions: seq<ActionName>, frame: Hash)
    | ForeignHash(text: string)

  datatype BeliefKey =
    | KeyOf(scope: Scope, observation: ObservationHash, latent: Latent)
    | ForeignKey(text: string)

  datatype Latent =
    | Genesis(observation: ObservationHash)
    | Step(previousLatent: Latent, previousKey: BeliefKey, action: Action, observation: ObservationHash, sequence: int)
    | ForeignLatent(text: string)

  datatype EdgeKey = EdgeOf(from: BeliefKey, action: Action) | ForeignEdge(text: string)

  datatype Observation = Observation(
    game: string, hash: ObservationHash, frame: Hash, state: State, levels: int, winLevels: int,
        actions: seq<ActionName>)

  datatype Node = Node(
    key: BeliefKey, scope: Scope, observation: ObservationHash, frame: Hash, latent: Latent,
    state: State, levels: int, actions: seq<ActionName>, visits: int)

  datatype Outcome = Outcome(to: BeliefKey, receipts: seq<Hash>, count: int)

  datatype Edge = Edge(
    key: EdgeKey, from: BeliefKey, observation: ObservationHash, action: Action,
    outcomes: seq<Outcome>, tested: int, noEffect: int)

  datatype Snapshot = Snapshot(nodes: seq<Node>, edges: seq<Edge>, current: Option<BeliefKey>)

  datatype Next = Next(key: BeliefKey, latent: Latent)

  datatype Transition = Transition(action: Action, observation: Observation, next: Next, receipt: Hash, noEffect: bool)

  const MAX_RUN_ACTIONS: nat := 10000
  const ACTION_COUNT: nat := 8

  /** ACTION6 and no other carries a cell of the 64 by 64 grid. */
  ghost predicate ValidAction(a: Action) {
    match a.at
    case None => a.name != ACTION6
    case Some((x, y)) => a.name == ACTION6 && 0 <= x <= 63 && 0 <= y <= 63
  }

  ghost predicate ValidActions(names: seq<ActionName>) {
    |names| <= ACTION_COUNT && Distinct(names)
  }

  // ---------------------------------------------------------------- the snapshot validator

  ghost predicate NodeOk(n: Node, scope: Scope, maxEdges: int) {
    && n.scope == scope
    && n.key == KeyOf(n.scope, n.observation, n.latent)
    && n.levels >= 0
    && 1 <= n.visits <= maxEdges + 1
    && ValidActions(n.actions)
  }

  ghost predicate HasNode(nodes: seq<Node>, key: BeliefKey) {
    exists i :: 0 <= i < |nodes| && nodes[i].key == key
  }

  ghost predicate HasNodeSeeing(nodes: seq<Node>, key: BeliefKey, observation: ObservationHash) {
    exists i :: 0 <= i < |nodes| && nodes[i].key == key && nodes[i].observation == observation
  }

  ghost predicate OutcomeOk(o: Outcome, nodes: seq<Node>, maxEdges: int) {
    && HasNode(nodes, o.to)
    && 1 <= |o.receipts| <= maxEdges
    && o.count == |o.receipts|
  }

  ghost predicate OutcomesOk(outcomes: seq<Outcome>, nodes: seq<Node>, maxEdges: int) {
    && (forall j :: 0 <= j < |outcomes| ==> OutcomeOk(outcomes[j], nodes, maxEdges))
    && (forall i, j :: 0 <= i < j < |outcomes| ==> outcomes[i].to != outcomes[j].to)
  }

  function CountSum(outcomes: seq<Outcome>): int {
    if outcomes == [] then 0 else CountSum(outcomes[..|outcomes| - 1]) + outcomes[|outcomes| - 1].count
  }

  ghost predicate EdgeOk(e: Edge, nodes: seq<Node>, maxEdges: int) {
    && HasNodeSeeing(nodes, e.from, e.observation)
    && ValidAction(e.action)
    && e.key == EdgeOf(e.from, e.action)
    && 1 <= |e.outcomes| <= maxEdges
    && OutcomesOk(e.outcomes, nodes, maxEdges)
    && e.tested == CountSum(e.outcomes)
    && 0 <= e.noEffect <= e.tested
  }

  /** All receipt hashes cited by some outcomes, with their multiplicities. */
  function OutcomeReceipts(outcomes: seq<Outcome>): multiset<Hash> {
    if outcomes == [] then multiset{}
    else OutcomeReceipts(outcomes[..|outcomes| - 1]) + multiset(outcomes[|outcomes| - 1].receipts)
  }

  function EdgeReceipts(edges: seq<Edge>): multiset<Hash> {
    if edges == [] then multiset{}
    else EdgeReceipts(edges[..|edges| - 1]) + OutcomeReceipts(edges[|edges| - 1].outcomes)
  }

  lemma OutcomesAppend(outcomes: seq<Outcome>, o: Outcome)
    ensures OutcomeReceipts(outcomes + [o]) == OutcomeReceipts(outcomes) + multiset(o.receipts)
    ensures CountSum(outcomes + [o]) == CountSum(outcomes) + o.count
  {
    var all := outcomes + [o];
    assert all[..|outcomes|] == outcomes && all[|outcomes|] == o;
  }

  lemma EdgeReceiptsAppend(edges: seq<Edge>, e: Edge)
    ensures EdgeReceipts(edges + [e]) == EdgeReceipts(edges) + OutcomeReceipts(e.outcomes)
  {
    hide OutcomeReceipts;
    var all := edges + [e];
    assert all[..|edges|] == edges && all[|edges|] == e;
  }

  ghost predicate CitedOnce(bag: multiset<Hash>) {
    forall h :: bag[h] <= 1
  }

  ghost predicate NodesOk(nodes: seq<Node>, scope: Scope, maxEdges: int) {
    && (forall i, j :: 0 <= i < j < |nodes| ==> nodes[i].key != nodes[j].key)
    && (forall i :: 0 <= i < |nodes| ==> NodeOk(nodes[i], scope, maxEdges))
  }

  ghost predicate EdgesOk(edges: seq<Edge>, nodes: seq<Node>, maxEdges: int) {
    && (forall i, j :: 0 <= i < j < |edges| ==> edges[i].key != edges[j].key)
    && (forall i :: 0 <= i < |edges| ==> EdgeOk(edges[i], nodes, maxEdges))
    && CitedOnce(EdgeReceipts(edges))
  }

  ghost predicate CurrentOk(current: Option<BeliefKey>, nodes: seq<Node>) {
    match current
    case None => nodes == []
    case Some(k) => HasNode(nodes, k)
  }

  /** What the validator accepts, stated over whole snapshots. */
  ghost predicate Acceptable(s: Snapshot, scope: Scope, maxNodes: int, maxEdges: int) {
    && |s.nodes| <= maxNodes && |s.edges| <= maxEdges
    && NodesOk(s.nodes, scope, maxEdges)
    && EdgesOk(s.edges, s.nodes, maxEdges)
    && CurrentOk(s.current, s.nodes)
  }

  /** Node keys met so far, with the observation each carries. */
  ghost predicate Tabulates(seen: map<BeliefKey, ObservationHash>, nodes: seq<Node>) {
    && (forall k :: k in seen ==> HasNodeSeeing(nodes, k, seen[k]))
    && (forall i :: 0 <= i < |nodes| ==> nodes[i].key in seen && seen[nodes[i].key] == nodes[i].observation)
  }

  method ActionsAreDistinct(names: seq<ActionName>) returns (ok: bool)
    ensures ok <==> Distinct(names)
  {
    var seen: set<ActionName> := {};
    for i := 0 to |names|
      invariant Distinct(names[..i])
      invariant forall a :: a in seen <==> a in names[..i]
    {
      if names[i] in seen {
        assert !Distinct(names);
        return false;
      }
      seen := seen + {names[i]};
      assert names[..i + 1] == names[..i] + [names[i]];
    }
    assert names[..|names|] == names;
    return true;
  }

  function TabulateOne(seen: map<BeliefKey, ObservationHash>, ghost nodes: seq<Node>,
      n: Node): (r: map<BeliefKey, ObservationHash>)
    requires Tabulates(seen, nodes) && n.key !in seen
    ensures Tabulates(r, nodes + [n])
  {
    assert forall i :: 0 <= i < |nodes| ==> (nodes + [n])[i] == nodes[i];
    assert (nodes + [n])[|nodes|] == n;
    seen[n.key := n.observation]
  }

  method CheckActions(names: seq<ActionName>) returns (ok: bool)
    ensures ok <==> ValidActions(names)
  {
    ok := ActionsAreDistinct(names);
    ok := ok && |names| <= ACTION_COUNT;
  }

  lemma NodesStep(nodes: seq<Node>, i: nat, scope: Scope, maxEdges: int, seen: map<BeliefKey, ObservationHash>)
    requires i < |nodes| && NodesOk(nodes[..i], scope, maxEdges) && Tabulates(seen, nodes[..i])
    ensures NodesOk(nodes[..i + 1], scope, maxEdges) <==> NodeOk(nodes[i], scope, maxEdges) && nodes[i].key !in seen
    ensures nodes[..i + 1] == nodes[..i] + [nodes[i]]
  {
    hide NodeOk;
    var next := nodes[..i + 1];
    assert forall k :: 0 <= k < i ==> next[k] == nodes[..i][k];
    assert next[i] == nodes[i];
    if nodes[i].key in seen {
      var j :| 0 <= j < i && nodes[..i][j].key == nodes[i].key;
      assert next[j].key == next[i].key;
    }
  }

  lemma NodesOkPrefix(nodes: seq<Node>, i: nat, scope: Scope, maxEdges: int)
    requires i <= |nodes|
    ensures NodesOk(nodes, scope, maxEdges) ==> NodesOk(nodes[..i], scope, maxEdges)
  {
    hide NodeOk;
  }

  method ValidateNode(n: Node, scope: Scope, maxEdges: int) returns (ok: bool)
    ensures ok <==> NodeOk(n, scope, maxEdges)
  {
    ok := CheckActions(n.actions);
    ok := ok && n.scope == scope && n.levels >= 0 && 1 <= n.visits <= maxEdges + 1;
    ok := ok && n.key == KeyOf(n.scope, n.observation, n.latent);
  }

  method ValidateNodes(nodes: seq<Node>, scope: Scope, maxEdges: int)
    returns (ok: bool, seen: map<BeliefKey, ObservationHash>)
    ensures ok <==> NodesOk(nodes, scope, maxEdges)
    ensures ok ==> Tabulates(seen, nodes)
  {
    assert NodesOk(nodes[..0], scope, maxEdges) && Tabulates(map[], nodes[..0]);
    hide *;
    seen := map[];
    for i := 0 to |nodes|
      invariant NodesOk(nodes[..i], scope, maxEdges) && Tabulates(seen, nodes[..i])
    {
      NodesStep(nodes, i, scope, maxEdges, seen);
      var pass := ValidateNode(nodes[i], scope, maxEdges);
      if nodes[i].key in seen || !pass {
        NodesOkPrefix(nodes, i + 1, scope, maxEdges);
        return false, seen;
      }
      seen := TabulateOne(seen, nodes[..i], nodes[i]);
    }
    assert nodes[..|nodes|] == nodes;
    ok := true;
  }

  /** The hashes met so far: `hashes` is what the runtime keeps, `bag` counts them. */
  ghost predicate Tallies(hashes: set<Hash>, bag: multiset<Hash>) {
    && CitedOnce(bag)
    && forall h :: h in hashes <==> h in bag
  }

  function TallyOne(hashes: set<Hash>, ghost bag: multiset<Hash>, h: Hash): (all: set<Hash>)
    requires Tallies(hashes, bag) && h !in hashes
    ensures Tallies(all, bag + multiset{h})
  {
    hashes + {h}
  }

  method AddHashes(hashes: set<Hash>, receipts: seq<Hash>, ghost bag: multiset<Hash>) returns (ok: bool, all: set<Hash>)
    requires Tallies(hashes, bag)
    ensures ok <==> CitedOnce(bag + multiset(receipts))
    ensures ok ==> Tallies(all, bag + multiset(receipts))
  {
    all := hashes;
    for i := 0 to |receipts|
      invariant Tallies(all, bag + multiset(receipts[..i]))
    {
      assert receipts[..i + 1] == receipts[..i] + [receipts[i]];
      if receipts[i] in all {
        assert receipts == receipts[..i + 1] + receipts[i + 1..];
        assert (bag + multiset(receipts))[receipts[i]] >= 2;
        return false, all;
      }
      assert multiset(receipts[..i + 1]) == multiset(receipts[..i]) + multiset{receipts[i]};
      all := TallyOne(all, bag + multiset(receipts[..i]), receipts[i]);
      assert bag + multiset(receipts[..i]) + multiset{receipts[i]} == bag + multiset(receipts[..i + 1]);
    }
    assert receipts[..|receipts|] == receipts;
    ok := true;
  }

  lemma {:induction false} OutcomePrefix(outcomes: seq<Outcome>, j: nat)
    requires j <= |outcomes|
    ensures OutcomeReceipts(outcomes[..j]) <= OutcomeReceipts(outcomes)
    decreases |outcomes|
  {
    if j < |outcomes| {
      var k := |outcomes| - 1;
      OutcomePrefix(outcomes[..k], j);
      assert outcomes[..k][..j] == outcomes[..j];
    } else {
      assert outcomes[..j] == outcomes;
    }
  }

  lemma {:induction false} EdgePrefix(edges: seq<Edge>, i: nat)
    requires i <= |edges|
    ensures EdgeReceipts(edges[..i]) <= EdgeReceipts(edges)
    decreases |edges|
  {
    hide OutcomeReceipts;
    if i < |edges| {
      var k := |edges| - 1;
      EdgePrefix(edges[..k], i);
      assert edges[..k][..i] == edges[..i];
    } else {
      assert edges[..i] == edges;
    }
  }

  lemma NotCitedOnce(less: multiset<Hash>, more: multiset<Hash>)
    requires less <= more && !CitedOnce(less)
    ensures !CitedOnce(more)
  {
    var h :| less[h] > 1;
    assert more[h] > 1;
  }

  lemma TabulatedKey(seen: map<BeliefKey, ObservationHash>, nodes: seq<Node>, key: BeliefKey)
    requires Tabulates(seen, nodes)
    ensures key in seen <==> HasNode(nodes, key)
  {
    if key in seen {
      var i :| 0 <= i < |nodes| && nodes[i].key == key && nodes[i].observation == seen[key];
    }
  }

  lemma TabulatedObservation(seen: map<BeliefKey, ObservationHash>, nodes: seq<Node>, key: BeliefKey,
      observation: ObservationHash)
    requires Tabulates(seen, nodes)
    ensures (key in seen && seen[key] == observation) <==> HasNodeSeeing(nodes, key, observation)
  {
    if HasNodeSeeing(nodes, key, observation) {
      var i :| 0 <= i < |nodes| && nodes[i].key == key && nodes[i].observation == observation;
      assert nodes[i].key in seen;
    }
  }

  ghost predicate Targets(targets: set<BeliefKey>, outcomes: seq<Outcome>) {
    targets == set i | 0 <= i < |outcomes| :: outcomes[i].to
  }

  /** Whether a list of outcomes passes, as far as it goes, on top of the receipts already cited. */
  ghost predicate OutcomesPass(outcomes: seq<Outcome>, nodes: seq<Node>, maxEdges: int, bag: multiset<Hash>) {
    OutcomesOk(outcomes, nodes, maxEdges) && CitedOnce(bag + OutcomeReceipts(outcomes))
  }

  lemma NoOutcomes(outcomes: seq<Outcome>, hashes: set<Hash>, nodes: seq<Node>, maxEdges: int, bag: multiset<Hash>)
    requires Tallies(hashes, bag)
    ensures Tallies(hashes, bag + OutcomeReceipts(outcomes[..0])) && CountSum(outcomes[..0]) == 0
    ensures OutcomesPass(outcomes[..0], nodes, maxEdges, bag) && Targets({}, outcomes[..0])
  {
    assert bag + OutcomeReceipts(outcomes[..0]) == bag;
  }

  lemma OutcomesStep(outcomes: seq<Outcome>, j: nat, nodes: seq<Node>, maxEdges: int, bag: multiset<Hash>,
      targets: set<BeliefKey>)
    requires j < |outcomes| && OutcomesPass(outcomes[..j], nodes, maxEdges, bag) && Targets(targets, outcomes[..j])
    ensures bag + OutcomeReceipts(outcomes[..j + 1])
            == bag + OutcomeReceipts(outcomes[..j]) + multiset(outcomes[j].receipts)
    ensures CountSum(outcomes[..j + 1]) == CountSum(outcomes[..j]) + outcomes[j].count
    ensures Targets(targets + {outcomes[j].to}, outcomes[..j + 1])
    ensures OutcomesPass(outcomes[..j + 1], nodes, maxEdges, bag) <==>
            && OutcomeOk(outcomes[j], nodes, maxEdges) && outcomes[j].to !in targets
            && CitedOnce(bag + OutcomeReceipts(outcomes[..j]) + multiset(outcomes[j].receipts))
  {
    hide OutcomeOk, CitedOnce;
    var next := outcomes[..j + 1];
    assert next[..j] == outcomes[..j];
    assert forall i :: 0 <= i < j ==> next[i] == outcomes[..j][i];
    assert next[j] == outcomes[j];
  }

  lemma OutcomesPassPrefix(outcomes: seq<Outcome>, j: nat, nodes: seq<Node>, maxEdges: int, bag: multiset<Hash>)
    requires j <= |outcomes|
    ensures OutcomesPass(outcomes, nodes, maxEdges, bag) ==> OutcomesPass(outcomes[..j], nodes, maxEdges, bag)
  {
    hide OutcomeOk;
    OutcomePrefix(outcomes, j);
    var part := bag + OutcomeReceipts(outcomes[..j]);
    var all := bag + OutcomeReceipts(outcomes);
    assert part <= all;
    if !CitedOnce(part) {
      NotCitedOnce(part, all);
    }
  }

  method ValidateOutcome(o: Outcome, seen: map<BeliefKey, ObservationHash>, maxEdges: int, hashes: set<Hash>,
      ghost nodes: seq<Node>, ghost bag: multiset<Hash>)
    returns (ok: bool, all: set<Hash>)
    requires Tabulates(seen, nodes) && Tallies(hashes, bag)
    ensures ok <==> OutcomeOk(o, nodes, maxEdges) && CitedOnce(bag + multiset(o.receipts))
    ensures ok ==> Tallies(all, bag + multiset(o.receipts))
  {
    hide Tabulates, Tallies, CitedOnce, HasNode;
    TabulatedKey(seen, nodes, o.to);
    ok, all := AddHashes(hashes, o.receipts, bag);
    ok := ok && o.to in seen && 1 <= |o.receipts| <= maxEdges && o.count == |o.receipts|;
  }

  method ValidateOutcomes(outcomes: seq<Outcome>, seen: map<BeliefKey, ObservationHash>, maxEdges: int,
      hashes: set<Hash>, ghost nodes: seq<Node>, ghost bag: multiset<Hash>)
    returns (ok: bool, all: set<Hash>, count: int)
    requires Tabulates(seen, nodes) && Tallies(hashes, bag)
    ensures ok <==> OutcomesPass(outcomes, nodes, maxEdges, bag)
    ensures ok ==> Tallies(all, bag + OutcomeReceipts(outcomes)) && count == CountSum(outcomes)
  {
    hide *;
    NoOutcomes(outcomes, hashes, nodes, maxEdges, bag);
    all, count := hashes, 0;
    var targets: set<BeliefKey> := {};
    for j := 0 to |outcomes|
      invariant OutcomesPass(outcomes[..j], nodes, maxEdges, bag) && count == CountSum(outcomes[..j])
      invariant Tallies(all, bag + OutcomeReceipts(outcomes[..j]))
      invariant Targets(targets, outcomes[..j])
    {
      OutcomesStep(outcomes, j, nodes, maxEdges, bag, targets);
      var pass, merged := ValidateOutcome(outcomes[j], seen, maxEdges, all, nodes,
            bag + OutcomeReceipts(outcomes[..j]));
      if outcomes[j].to in targets || !pass {
        OutcomesPassPrefix(outcomes, j + 1, nodes, maxEdges, bag);
        return false, all, count;
      }
      targets, all, count := targets + {outcomes[j].to}, merged, count + outcomes[j].count;
    }
    assert outcomes[..|outcomes|] == outcomes;
    ok := true;
  }

  ghost predicate EdgeKeys(keys: set<EdgeKey>, edges: seq<Edge>) {
    keys == set i | 0 <= i < |edges| :: edges[i].key
  }

  /** What one edge must satisfy on its own, its outcomes aside. */
  ghost predicate EdgeShape(e: Edge, nodes: seq<Node>, maxEdges: int) {
    && HasNodeSeeing(nodes, e.from, e.observation)
    && ValidAction(e.action)
    && e.key == EdgeOf(e.from, e.action)
    && 1 <= |e.outcomes| <= maxEdges
    && e.tested == CountSum(e.outcomes)
    && 0 <= e.noEffect <= e.tested
  }

  lemma EdgesStep(edges: seq<Edge>, i: nat, nodes: seq<Node>, maxEdges: int, keys: set<EdgeKey>)
    requires i < |edges| && EdgesOk(edges[..i], nodes, maxEdges) && EdgeKeys(keys, edges[..i])
    ensures EdgeReceipts(edges[..i + 1]) == EdgeReceipts(edges[..i]) + OutcomeReceipts(edges[i].outcomes)
    ensures EdgeKeys(keys + {edges[i].key}, edges[..i + 1])
    ensures EdgesOk(edges[..i + 1], nodes, maxEdges) <==>
            && EdgeShape(edges[i], nodes, maxEdges) && edges[i].key !in keys
            && OutcomesPass(edges[i].outcomes, nodes, maxEdges, EdgeReceipts(edges[..i]))
  {
    hide OutcomesOk, CitedOnce, HasNodeSeeing, CountSum, OutcomeReceipts;
    var next := edges[..i + 1];
    assert next[..i] == edges[..i];
    assert forall k :: 0 <= k < i ==> next[k] == edges[..i][k];
    assert next[i] == edges[i];
  }

  lemma EdgesOkPrefix(edges: seq<Edge>, i: nat, nodes: seq<Node>, maxEdges: int)
    requires i <= |edges|
    ensures EdgesOk(edges, nodes, maxEdges) ==> EdgesOk(edges[..i], nodes, maxEdges)
  {
    hide EdgeOk;
    EdgePrefix(edges, i);
    if !CitedOnce(EdgeReceipts(edges[..i])) {
      NotCitedOnce(EdgeReceipts(edges[..i]), EdgeReceipts(edges));
    }
  }

  method ValidateEdges(edges: seq<Edge>, seen: map<BeliefKey, ObservationHash>, maxEdges: int, ghost nodes: seq<Node>)
    returns (ok: bool)
    requires Tabulates(seen, nodes)
    ensures ok <==> EdgesOk(edges, nodes, maxEdges)
  {
    assert EdgesOk(edges[..0], nodes, maxEdges) && Tallies({}, EdgeReceipts(edges[..0])) && EdgeKeys({}, edges[..0]);
    hide *;
    var hashes: set<Hash>, keys: set<EdgeKey> := {}, {};
    for i := 0 to |edges|
      invariant EdgesOk(edges[..i], nodes, maxEdges)
      invariant Tallies(hashes, EdgeReceipts(edges[..i])) && EdgeKeys(keys, edges[..i])
    {
      EdgesStep(edges, i, nodes, maxEdges, keys);
      var pass, all := ValidateEdge(edges[i], seen, maxEdges, hashes, nodes, EdgeReceipts(edges[..i]));
      if edges[i].key in keys || !pass {
        EdgesOkPrefix(edges, i + 1, nodes, maxEdges);
        return false;
      }
      hashes, keys := all, keys + {edges[i].key};
    }
    assert edges[..|edges|] == edges;
    ok := true;
  }

  method ValidateEdge(e: Edge, seen: map<BeliefKey, ObservationHash>, maxEdges: int, hashes: set<Hash>,
      ghost nodes: seq<Node>, ghost bag: multiset<Hash>)
    returns (ok: bool, all: set<Hash>)
    requires Tabulates(seen, nodes) && Tallies(hashes, bag)
    ensures ok <==> EdgeShape(e, nodes, maxEdges) && OutcomesPass(e.outcomes, nodes, maxEdges, bag)
    ensures ok ==> Tallies(all, bag + OutcomeReceipts(e.outcomes))
  {
    hide Tabulates, Tallies, OutcomesPass, HasNodeSeeing, CountSum, OutcomeReceipts;
    TabulatedObservation(seen, nodes, e.from, e.observation);
    var pass, merged, count := ValidateOutcomes(e.outcomes, seen, maxEdges, hashes, nodes, bag);
    ok, all := pass, merged;
    var a := e.action;
    var shaped := if a.at.None? then a.name != ACTION6
      else a.name == ACTION6 && 0 <= a.at.value.0 < 64 && 0 <= a.at.value.1 < 64;
    ok := ok && shaped && e.from in seen && seen[e.from] == e.observation && e.key == EdgeOf(e.from, a);
    ok := ok && 1 <= |e.outcomes| <= maxEdges && e.tested == count && 0 <= e.noEffect <= e.tested;
  }

  /** The validator accepts exactly the acceptable snapshots. */
  method ValidateSnapshot(s: Snapshot, scope: Scope, maxNodes: int, maxEdges: int) returns (ok: bool)
    ensures ok <==> Acceptable(s, scope, maxNodes, maxEdges)
  {
    hide NodesOk, EdgesOk, Tabulates, HasNode;
    if |s.nodes| > maxNodes || |s.edges| > maxEdges { return false; }
    var nodesPass, seen := ValidateNodes(s.nodes, scope, maxEdges);
    if !nodesPass { return false; }
    var edgesPass := ValidateEdges(s.edges, seen, maxEdges, s.nodes);
    if !edgesPass { return false; }
    if s.current.Some? {
      TabulatedKey(seen, s.nodes, s.current.value);
      if s.current.value !in seen { return false; }
    }
    NoKeysNoNodes(seen, s.nodes);
    ok := (seen == map[]) == s.current.None?;
  }

  lemma NoKeysNoNodes(seen: map<BeliefKey, ObservationHash>, nodes: seq<Node>)
    requires Tabulates(seen, nodes)
    ensures seen == map[] <==> nodes == []
    ensures forall k :: HasNode(nodes, k) ==> nodes != []
  {
    if nodes != [] {
      assert nodes[0].key in seen;
    }
    forall k | k in seen ensures nodes != [] {
      assert HasNodeSeeing(nodes, k, seen[k]);
    }
  }

  // ---------------------------------------------------------------- graphs as values

  datatype Graph = Graph(nodes: OrderedMap<BeliefKey, Node>, edges: OrderedMap<EdgeKey, Edge>,
        current: Option<BeliefKey>)

  ghost function MakeNode(scope: Scope, next: Next, o: Observation, visits: int): Node {
    Node(next.key, scope, o.hash, o.frame, next.latent, o.state, o.levels, o.actions, visits)
  }

  ghost function GenesisOf(scope: Scope, o: Observation): Next {
    Next(KeyOf(scope, o.hash, Genesis(o.hash)), Genesis(o.hash))
  }

  ghost function Initialized(scope: Scope, g: Graph, o: Observation): Graph {
    var first := GenesisOf(scope, o);
    g.(nodes := g.nodes.Set(first.key, MakeNode(scope, first, o, 1)), current := Some(first.key))
  }

  function NextOf(scope: Scope, from: Node, action: Action, o: Observation, sequence: int): Next {
    var latent := Step(from.latent, from.key, action, o.hash, sequence);
    Next(KeyOf(scope, o.hash, latent), latent)
  }

  /** The place of the first outcome leading to `to`, or one past the end. */
  function TargetIndex(outcomes: seq<Outcome>, to: BeliefKey): (i: nat)
    ensures i <= |outcomes|
    ensures i < |outcomes| ==> outcomes[i].to == to
    ensures forall j :: 0 <= j < i ==> outcomes[j].to != to
  {
    if outcomes == [] || outcomes[0].to == to then 0 else 1 + TargetIndex(outcomes[1..], to)
  }

  ghost function AddOutcome(outcomes: seq<Outcome>, to: BeliefKey, receipt: Hash): seq<Outcome> {
    var i := TargetIndex(outcomes, to);
    if i < |outcomes| then outcomes[i := Outcome(to, outcomes[i].receipts + [receipt], outcomes[i].count + 1)]
    else outcomes + [Outcome(to, [receipt], 1)]
  }

  ghost function VisitedNode(scope: Scope, g: Graph, t: Transition): Node {
    match g.nodes.Get(t.next.key)
    case Some(n) => MakeNode(scope, Next(n.key, n.latent), t.observation, n.visits + 1)
    case None => MakeNode(scope, t.next, t.observation, 1)
  }

  ghost function TakenEdge(from: Node, prior: Option<Edge>, to: BeliefKey, t: Transition): Edge {
    var blank := Edge(EdgeOf(from.key, t.action), from.key, from.observation, t.action, [], 0, 0);
    var e := prior.GetOr(blank);
    blank.(outcomes := AddOutcome(e.outcomes, to, t.receipt), tested := e.tested + 1, noEffect :=
          e.noEffect + if t.noEffect then 1 else 0)
  }

  /** The outcome for `to` takes one more receipt; it is opened if there is none. */
  method TakeOutcome(outcomes: seq<Outcome>, to: BeliefKey, receipt: Hash) returns (all: seq<Outcome>)
    ensures all == AddOutcome(outcomes, to, receipt)
  {
    for i := 0 to |outcomes|
      invariant forall j :: 0 <= j < i ==> outcomes[j].to != to
    {
      if outcomes[i].to == to {
        assert TargetIndex(outcomes, to) == i;
        return outcomes[i := Outcome(to, outcomes[i].receipts + [receipt], outcomes[i].count + 1)];
      }
    }
    assert TargetIndex(outcomes, to) == |outcomes|;
    all := outcomes + [Outcome(to, [receipt], 1)];
  }

  method TakeEdge(from: Node, prior: Option<Edge>, to: BeliefKey, t: Transition) returns (edge: Edge)
    ensures edge == TakenEdge(from, prior, to, t)
  {
    var known := if prior.Some? then prior.value.outcomes else [];
    var tested, noEffect := 0, 0;
    if prior.Some? {
      tested, noEffect := prior.value.tested, prior.value.noEffect;
    }
    if t.noEffect { noEffect := noEffect + 1; }
    var outcomes := TakeOutcome(known, to, t.receipt);
    edge := Edge(EdgeOf(from.key, t.action), from.key, from.observation, t.action, outcomes, tested + 1, noEffect);
  }

  /** The graph after a transition out of its current node. */
  ghost function Recorded(scope: Scope, g: Graph, from: Node, t: Transition): Graph {
    var to := VisitedNode(scope, g, t);
    var key := EdgeOf(from.key, t.action);
    var edge := TakenEdge(from, g.edges.Get(key), to.key, t);
    Graph(g.nodes.Set(to.key, to), g.edges.Set(key, edge), Some(to.key))
  }

  function SnapshotOf(g: Graph): Snapshot
    requires g.nodes.Valid() && g.edges.Valid()
  {
    Snapshot(g.nodes.Values(), g.edges.Values(), g.current)
  }

  ghost predicate Keyed(g: Graph) {
    && g.nodes.Valid() && g.edges.Valid()
    && (forall i :: 0 <= i < |g.nodes.keys| ==> g.nodes.at[g.nodes.keys[i]].key == g.nodes.keys[i])
    && (forall i :: 0 <= i < |g.edges.keys| ==> g.edges.at[g.edges.keys[i]].key == g.edges.keys[i])
  }

  /** A graph a run of at most `n` transitions can have. */
  ghost predicate Sound(scope: Scope, g: Graph, n: nat) {
    Keyed(g) && Acceptable(SnapshotOf(g), scope, n + 1, n)
  }

  lemma KeyedNode(g: Graph, k: BeliefKey)
    requires Keyed(g)
    ensures k in g.nodes.at <==> HasNode(g.nodes.Values(), k)
    ensures k in g.nodes.at ==> g.nodes.at[k].key == k && g.nodes.at[k] in g.nodes.Values()
  {
    if k in g.nodes.at {
      assert k in Elements(g.nodes.keys);
      var i :| 0 <= i < |g.nodes.keys| && g.nodes.keys[i] == k;
      assert g.nodes.Values()[i].key == k;
    }
    if HasNode(g.nodes.Values(), k) {
      var i :| 0 <= i < |g.nodes.Values()| && g.nodes.Values()[i].key == k;
      assert g.nodes.keys[i] in Elements(g.nodes.keys);
    }
  }

  // ---------------------------------------------------------------- recording keeps the graph sound

  lemma {:induction false} OutcomeUpdate(outcomes: seq<Outcome>, i: nat, o: Outcome)
    requires i < |outcomes|
    ensures OutcomeReceipts(outcomes[i := o]) + multiset(outcomes[i].receipts)
            == OutcomeReceipts(outcomes) + multiset(o.receipts)
    ensures CountSum(outcomes[i := o]) + outcomes[i].count == CountSum(outcomes) + o.count
    decreases |outcomes|
  {
    hide *;
    var k, next := |outcomes| - 1, outcomes[i := o];
    assert outcomes == outcomes[..k] + [outcomes[k]];
    OutcomesAppend(outcomes[..k], outcomes[k]);
    if i < k {
      OutcomeUpdate(outcomes[..k], i, o);
      assert next == outcomes[..k][i := o] + [outcomes[k]];
      OutcomesAppend(outcomes[..k][i := o], outcomes[k]);
      BagsRegroup(OutcomeReceipts(outcomes[..k][i := o]), OutcomeReceipts(outcomes[..k]),
            multiset(outcomes[i].receipts), multiset(o.receipts), multiset(outcomes[k].receipts));
    } else {
      assert next == outcomes[..k] + [o];
      OutcomesAppend(outcomes[..k], o);
    }
  }

  lemma {:induction false} EdgeUpdate(edges: seq<Edge>, i: nat, e: Edge)
    requires i < |edges|
    ensures EdgeReceipts(edges[i := e]) + OutcomeReceipts(edges[i].outcomes)
            == EdgeReceipts(edges) + OutcomeReceipts(e.outcomes)
    decreases |edges|
  {
    hide *;
    var k, next := |edges| - 1, edges[i := e];
    assert edges == edges[..k] + [edges[k]];
    EdgeReceiptsAppend(edges[..k], edges[k]);
    if i < k {
      EdgeUpdate(edges[..k], i, e);
      assert next == edges[..k][i := e] + [edges[k]];
      EdgeReceiptsAppend(edges[..k][i := e], edges[k]);
      BagsRegroup(EdgeReceipts(edges[..k][i := e]), EdgeReceipts(edges[..k]), OutcomeReceipts(edges[i].outcomes),
            OutcomeReceipts(e.outcomes), OutcomeReceipts(edges[k].outcomes));
    } else {
      assert next == edges[..k] + [e];
      EdgeReceiptsAppend(edges[..k], e);
    }
  }

  /** One more outcome: one more receipt, one more count. */
  lemma AddOutcomeCounts(outcomes: seq<Outcome>, to: BeliefKey, receipt: Hash)
    ensures var all := AddOutcome(outcomes, to, receipt);
            OutcomeReceipts(all) == OutcomeReceipts(outcomes) + multiset{receipt}
                && CountSum(all) == CountSum(outcomes) + 1
  {
    var i := TargetIndex(outcomes, to);
    var all := AddOutcome(outcomes, to, receipt);
    if i < |outcomes| {
      OutcomeUpdate(outcomes, i, all[i]);
      assert multiset(all[i].receipts) == multiset(outcomes[i].receipts) + multiset{receipt};
      BagsCancel(OutcomeReceipts(all), OutcomeReceipts(outcomes), multiset(outcomes[i].receipts), multiset{receipt});
    } else {
      OutcomesAppend(outcomes, all[i]);
    }
  }

  /** Every node keeps its key and observation. */
  ghost predicate Covers(more: seq<Node>, nodes: seq<Node>) {
    forall k, o :: HasNodeSeeing(nodes, k, o) ==> HasNodeSeeing(more, k, o)
  }

  lemma CoversNode(more: seq<Node>, nodes: seq<Node>, k: BeliefKey)
    requires Covers(more, nodes) && HasNode(nodes, k)
    ensures HasNode(more, k)
  {
    var i :| 0 <= i < |nodes| && nodes[i].key == k;
    assert HasNodeSeeing(nodes, k, nodes[i].observation);
    assert HasNodeSeeing(more, k, nodes[i].observation);
  }

  lemma OutcomesStayOk(outcomes: seq<Outcome>, nodes: seq<Node>, more: seq<Node>, n: nat, m: nat)
    requires OutcomesOk(outcomes, nodes, n) && Covers(more, nodes) && n <= m
    ensures OutcomesOk(outcomes, more, m)
  {
    hide HasNode, Covers;
    forall j | 0 <= j < |outcomes| ensures OutcomeOk(outcomes[j], more, m) {
      CoversNode(more, nodes, outcomes[j].to);
    }
  }

  lemma EdgesStayOk(edges: seq<Edge>, nodes: seq<Node>, more: seq<Node>, n: nat, m: nat)
    requires EdgesOk(edges, nodes, n) && Covers(more, nodes) && n <= m
    ensures EdgesOk(edges, more, m)
  {
    hide OutcomesOk, CitedOnce, HasNodeSeeing;
    forall i | 0 <= i < |edges| ensures EdgeOk(edges[i], more, m) {
      OutcomesStayOk(edges[i].outcomes, nodes, more, n, m);
      assert HasNodeSeeing(nodes, edges[i].from, edges[i].observation);
    }
  }

  lemma AddOutcomeOk(outcomes: seq<Outcome>, to: BeliefKey, receipt: Hash, nodes: seq<Node>, n: nat)
    requires OutcomesOk(outcomes, nodes, n) && HasNode(nodes, to)
    ensures OutcomesOk(AddOutcome(outcomes, to, receipt), nodes, n + 1)
  {
    hide HasNode;
    var i := TargetIndex(outcomes, to);
    var all := AddOutcome(outcomes, to, receipt);
    forall j | 0 <= j < |all| ensures OutcomeOk(all[j], nodes, n + 1) {
      if j < |outcomes| {
        assert OutcomeOk(outcomes[j], nodes, n);
      }
    }
  }

  lemma TakenEdgeOk(from: Node, prior: Option<Edge>, to: BeliefKey, t: Transition, nodes: seq<Node>, n: nat)
    requires HasNodeSeeing(nodes, from.key, from.observation) && HasNode(nodes, to) && ValidAction(t.action)
    requires prior.Some? ==> EdgeOk(prior.value, nodes, n) && prior.value.key == EdgeOf(from.key, t.action)
    ensures EdgeOk(TakenEdge(from, prior, to, t), nodes, n + 1)
    ensures var e := TakenEdge(from, prior, to, t);
            OutcomeReceipts(e.outcomes)
                == (if prior.Some? then OutcomeReceipts(prior.value.outcomes) else multiset{}) + multiset{t.receipt}
  {
    hide HasNode, HasNodeSeeing, OutcomesOk, CountSum, AddOutcome;
    var outcomes := if prior.Some? then prior.value.outcomes else [];
    NoOutcomesOk(nodes, n);
    AddOutcomeOk(outcomes, to, t.receipt, nodes, n);
    AddOutcomeCounts(outcomes, to, t.receipt);
    AddOutcomeLength(outcomes, to, t.receipt);
  }

  lemma NoOutcomesOk(nodes: seq<Node>, n: nat)
    ensures OutcomesOk([], nodes, n) && CountSum([]) == 0
  {
  }

  lemma AddOutcomeLength(outcomes: seq<Outcome>, to: BeliefKey, receipt: Hash)
    ensures 1 <= |AddOutcome(outcomes, to, receipt)| <= |outcomes| + 1
  {
  }

  lemma ReceiptsGrow(edges: seq<Edge>, i: nat, e: Edge, receipt: Hash)
    requires i <= |edges|
    requires i < |edges| ==> OutcomeReceipts(e.outcomes) == OutcomeReceipts(edges[i].outcomes) + multiset{receipt}
    requires i == |edges| ==> OutcomeReceipts(e.outcomes) == multiset{receipt}
    ensures EdgeReceipts(if i < |edges| then edges[i := e] else edges + [e]) == EdgeReceipts(edges) + multiset{receipt}
  {
    hide OutcomeReceipts;
    if i < |edges| {
      EdgeUpdate(edges, i, e);
      BagsCancel(EdgeReceipts(edges[i := e]), EdgeReceipts(edges), OutcomeReceipts(edges[i].outcomes),
            multiset{receipt});
    } else {
      EdgeReceiptsAppend(edges, e);
    }
  }

  lemma EdgesPut(edges: seq<Edge>, i: nat, e: Edge, nodes: seq<Node>, n: nat, receipt: Hash)
    requires EdgesOk(edges, nodes, n) && EdgeOk(e, nodes, n) && i <= |edges|
    requires i < |edges| ==>
             edges[i].key == e.key && OutcomeReceipts(e.outcomes)
                 == OutcomeReceipts(edges[i].outcomes) + multiset{receipt}
    requires i == |edges| ==> OutcomeReceipts(e.outcomes) == multiset{receipt} && forall k :: 0 <= k < |edges| ==>
             edges[k].key != e.key
    requires receipt !in EdgeReceipts(edges)
    ensures EdgesOk(if i < |edges| then edges[i := e] else edges + [e], nodes, n)
  {
    hide EdgeOk, OutcomeReceipts, EdgeReceipts;
    ReceiptsGrow(edges, i, e, receipt);
  }

  /** What the controller guarantees of a transition it records. */
  ghost predicate Recordable(scope: Scope, g: Graph, t: Transition)
    requires g.edges.Valid()
  {
    && t.next.key == KeyOf(scope, t.observation.hash, t.next.latent)
    && ValidAction(t.action) && ValidActions(t.observation.actions) && t.observation.levels >= 0
    && t.receipt !in EdgeReceipts(g.edges.Values())
  }

  lemma NodesPut(g: Graph, scope: Scope, t: Transition, n: nat) returns (i: nat)
    requires Keyed(g) && NodesOk(g.nodes.Values(), scope, n) && Recordable(scope, g, t)
    ensures var h := g.nodes.Set(t.next.key, VisitedNode(scope, g, t));
            && h.Valid() && NodesOk(h.Values(), scope, n + 1) && Covers(h.Values(), g.nodes.Values())
            && VisitedNode(scope, g, t).key == t.next.key && HasNode(h.Values(), t.next.key)
            && |h.Values()| <= |g.nodes.Values()| + 1
            && (forall i :: 0 <= i < |h.keys| ==> h.at[h.keys[i]].key == h.keys[i])
  {
    hide ValidActions, EdgeReceipts;
    var to := VisitedNode(scope, g, t);
    KeyedNode(g, t.next.key);
    i := g.nodes.SetValues(t.next.key, to);
    var before := g.nodes.Values();
    var after := g.nodes.Set(t.next.key, to).Values();
    assert after[i] == to;
    forall k, o | HasNodeSeeing(before, k, o) ensures HasNodeSeeing(after, k, o) {
      var j :| 0 <= j < |before| && before[j].key == k && before[j].observation == o;
      assert after[j].key == k && after[j].observation == o;
    }
  }

  lemma KeyedEdge(g: Graph, k: EdgeKey)
    requires Keyed(g) && k in g.edges.at
    ensures g.edges.at[k].key == k && g.edges.at[k] in g.edges.Values()
  {
    assert k in Elements(g.edges.keys);
    var i :| 0 <= i < |g.edges.keys| && g.edges.keys[i] == k;
    assert g.edges.Values()[i].key == k;
  }

  lemma NewKeyIsNew(g: Graph, k: EdgeKey)
    requires Keyed(g) && k !in g.edges.at
    ensures forall i :: 0 <= i < |g.edges.Values()| ==> g.edges.Values()[i].key != k
  {
    forall i | 0 <= i < |g.edges.Values()| ensures g.edges.Values()[i].key != k {
      assert g.edges.keys[i] in Elements(g.edges.keys);
    }
  }

  lemma FromIsSeen(g: Graph, from: Node)
    requires Keyed(g) && from.key in g.nodes.at && g.nodes.at[from.key] == from
    ensures HasNodeSeeing(g.nodes.Values(), from.key, from.observation)
  {
    KeyedNode(g, from.key);
    var i :| 0 <= i < |g.nodes.Values()| && g.nodes.Values()[i] == from;
  }

  lemma EdgesPutGraph(g: Graph, e: Edge, nodes: seq<Node>, n: nat, receipt: Hash)
    requires Keyed(g) && EdgesOk(g.edges.Values(), nodes, n) && EdgeOk(e, nodes, n)
    requires receipt !in EdgeReceipts(g.edges.Values())
    requires OutcomeReceipts(e.outcomes) ==
             (if e.key in g.edges.at then OutcomeReceipts(g.edges.at[e.key].outcomes) else multiset{})
                 + multiset{receipt}
    ensures var h := g.edges.Set(e.key, e);
            && h.Valid() && EdgesOk(h.Values(), nodes, n) && |h.Values()| <= |g.edges.Values()| + 1
            && (forall i :: 0 <= i < |h.keys| ==> h.at[h.keys[i]].key == h.keys[i])
            && EdgeReceipts(h.Values()) == EdgeReceipts(g.edges.Values()) + multiset{receipt}
  {
    hide EdgesOk, EdgeOk, EdgeReceipts, OutcomeReceipts;
    var edges := g.edges.Values();
    var i := g.edges.SetValues(e.key, e);
    if e.key in g.edges.at {
      KeyedEdge(g, e.key);
    } else {
      NewKeyIsNew(g, e.key);
    }
    EdgesPut(edges, i, e, nodes, n, receipt);
    ReceiptsGrow(edges, i, e, receipt);
  }

  lemma EdgeOfGraphIsOk(g: Graph, k: EdgeKey, nodes: seq<Node>, n: nat)
    requires Keyed(g) && EdgesOk(g.edges.Values(), nodes, n) && k in g.edges.at
    ensures EdgeOk(g.edges.at[k], nodes, n) && g.edges.at[k].key == k
  {
    hide EdgeOk;
    KeyedEdge(g, k);
    var i :| 0 <= i < |g.edges.Values()| && g.edges.Values()[i] == g.edges.at[k];
  }

  /** Recording a transition out of a known node keeps the graph sound, one action further on. */
  lemma RecordedIsSound(scope: Scope, g: Graph, from: Node, t: Transition, n: nat)
    requires Sound(scope, g, n) && Recordable(scope, g, t)
    requires from.key in g.nodes.at && g.nodes.at[from.key] == from
    ensures Sound(scope, Recorded(scope, g, from, t), n + 1)
    ensures EdgeReceipts(Recorded(scope, g, from, t).edges.Values())
            == EdgeReceipts(g.edges.Values()) + multiset{t.receipt}
  {
    hide *;
    SoundParts(scope, g, n);
    var nodes := g.nodes.Values();
    var i := NodesPut(g, scope, t, n);
    var to := VisitedNode(scope, g, t);
    var more := g.nodes.Set(t.next.key, to).Values();
    FromIsSeen(g, from);
    CoverOne(more, nodes, from.key, from.observation);
    EdgesStayOk(g.edges.Values(), nodes, more, n, n);
    EdgesStayOk(g.edges.Values(), nodes, more, n, n + 1);
    RecordedEdge(scope, g, from, t, n, more, to);
    RecordedParts(scope, g, from, t, n);
  }

  lemma SoundParts(scope: Scope, g: Graph, n: nat)
    requires Sound(scope, g, n)
    ensures Keyed(g) && g.nodes.Valid() && g.edges.Valid()
    ensures NodesOk(g.nodes.Values(), scope, n) && EdgesOk(g.edges.Values(), g.nodes.Values(), n)
  {
    hide NodesOk, EdgesOk;
  }

  lemma RecordedEdge(scope: Scope, g: Graph, from: Node, t: Transition, n: nat, more: seq<Node>, to: Node)
    requires Keyed(g) && Recordable(scope, g, t) && to == VisitedNode(scope, g, t)
    requires EdgesOk(g.edges.Values(), more, n) && EdgesOk(g.edges.Values(), more, n + 1)
    requires HasNodeSeeing(more, from.key, from.observation) && HasNode(more, to.key)
    ensures var e := TakenEdge(from, g.edges.Get(EdgeOf(from.key, t.action)), to.key, t);
            var h := g.edges.Set(EdgeOf(from.key, t.action), e);
            && h.Valid() && EdgesOk(h.Values(), more, n + 1) && |h.Values()| <= |g.edges.Values()| + 1
            && (forall i :: 0 <= i < |h.keys| ==> h.at[h.keys[i]].key == h.keys[i])
            && EdgeReceipts(h.Values()) == EdgeReceipts(g.edges.Values()) + multiset{t.receipt}
  {
    hide EdgesOk, EdgeOk, EdgeReceipts, OutcomeReceipts, HasNodeSeeing, HasNode, AddOutcome;
    var key := EdgeOf(from.key, t.action);
    if key in g.edges.at {
      EdgeOfGraphIsOk(g, key, more, n);
    }
    var e := TakenEdge(from, g.edges.Get(key), to.key, t);
    TakenEdgeOk(from, g.edges.Get(key), to.key, t, more, n);
    EdgesPutGraph(g, e, more, n + 1, t.receipt);
  }

  lemma RecordedParts(scope: Scope, g: Graph, from: Node, t: Transition, n: nat)
    requires Sound(scope, g, n)
    requires var to := VisitedNode(scope, g, t);
             var nodes := g.nodes.Set(t.next.key, to);
             var edges := g.edges.Set(EdgeOf(from.key, t.action),
                   TakenEdge(from, g.edges.Get(EdgeOf(from.key, t.action)), to.key, t));
             && to.key == t.next.key && nodes.Valid() && edges.Valid()
             && NodesOk(nodes.Values(), scope, n + 1) && EdgesOk(edges.Values(), nodes.Values(), n + 1)
             && HasNode(nodes.Values(), to.key) && |nodes.Values()| <= |g.nodes.Values()| + 1
                 && |edges.Values()| <= |g.edges.Values()| + 1
             && (forall i :: 0 <= i < |nodes.keys| ==> nodes.at[nodes.keys[i]].key == nodes.keys[i])
             && (forall i :: 0 <= i < |edges.keys| ==> edges.at[edges.keys[i]].key == edges.keys[i])
    ensures Sound(scope, Recorded(scope, g, from, t), n + 1)
    ensures Recorded(scope, g, from, t).edges ==
            g.edges.Set(EdgeOf(from.key, t.action),
                  TakenEdge(from, g.edges.Get(EdgeOf(from.key, t.action)), VisitedNode(scope, g, t).key, t))
  {
    hide NodesOk, EdgesOk, HasNode, TakenEdge, VisitedNode;
  }

  lemma CoverOne(more: seq<Node>, nodes: seq<Node>, k: BeliefKey, o: ObservationHash)
    requires Covers(more, nodes) && HasNodeSeeing(nodes, k, o)
    ensures HasNodeSeeing(more, k, o)
  {
  }

  const EMPTY: Graph := Graph(EmptyMap<BeliefKey, Node>(), EmptyMap<EdgeKey, Edge>(), None)

  lemma InitializedIsSound(scope: Scope, o: Observation)
    requires ValidActions(o.actions) && o.levels >= 0
    ensures Sound(scope, Initialized(scope, EMPTY, o), 0)
  {
    var g := Initialized(scope, EMPTY, o);
    var first := MakeNode(scope, GenesisOf(scope, o), o, 1);
    var i := EMPTY.nodes.SetValues(first.key, first);
    assert g.nodes.Values()[0] == first;
  }

  lemma SoundForLonger(scope: Scope, g: Graph, n: nat, m: nat)
    requires Sound(scope, g, n) && n <= m
    ensures Sound(scope, g, m)
  {
    hide NodeOk, EdgesOk;
    forall i | 0 <= i < |g.nodes.Values()| ensures NodeOk(g.nodes.Values()[i], scope, m) {
      WidenNode(g.nodes.Values()[i], scope, n, m);
    }
    assert Covers(g.nodes.Values(), g.nodes.Values());
    EdgesStayOk(g.edges.Values(), g.nodes.Values(), g.nodes.Values(), n, m);
  }

  lemma WidenNode(node: Node, scope: Scope, n: nat, m: nat)
    requires NodeOk(node, scope, n) && n <= m
    ensures NodeOk(node, scope, m)
  {
  }

  // ---------------------------------------------------------------- the observable action counts

  type Counts = map<(ObservationHash, ActionName), int>

  /** How often an action was tried from an observation, over all hidden states behind it. */
  function TestedSum(edges: seq<Edge>, o: ObservationHash, name: ActionName): int {
    if edges == [] then 0
    else
      var e := edges[|edges| - 1];
      TestedSum(edges[..|edges| - 1], o, name) + if e.observation == o && e.action.name == name then e.tested else 0
  }

  function CountAt(counts: Counts, o: ObservationHash, name: ActionName): int {
    if (o, name) in counts then counts[(o, name)] else 0
  }

  ghost predicate CountsAgree(counts: Counts, edges: seq<Edge>) {
    && (forall o, name :: CountAt(counts, o, name) == TestedSum(edges, o, name))
    && (forall k :: k in counts ==> counts[k] > 0)
  }

  function Bump(counts: Counts, o: ObservationHash, name: ActionName, tries: int): Counts {
    counts[(o, name) := CountAt(counts, o, name) + tries]
  }

  lemma {:induction false} TestedUpdate(edges: seq<Edge>, i: nat, e: Edge, o: ObservationHash, name: ActionName)
    requires i < |edges| && edges[i].observation == e.observation && edges[i].action == e.action
    ensures TestedSum(edges[i := e], o, name) ==
            TestedSum(edges, o, name) + if e.observation == o && e.action.name == name then e.tested - edges[i].tested
                else 0
    decreases |edges|
  {
    var k, next := |edges| - 1, edges[i := e];
    assert TestedSum(next, o, name) == TestedSum(next[..k], o, name) + if next[k].observation == o
           && next[k].action.name == name then next[k].tested else 0;
    if i < k {
      TestedUpdate(edges[..k], i, e, o, name);
      assert next[..k] == edges[..k][i := e];
    } else {
      assert next[..k] == edges[..k];
    }
  }

  lemma TestedAppend(edges: seq<Edge>, e: Edge, o: ObservationHash, name: ActionName)
    ensures TestedSum(edges + [e], o, name) ==
            TestedSum(edges, o, name) + if e.observation == o && e.action.name == name then e.tested else 0
  {
    assert (edges + [e])[..|edges|] == edges;
  }

  /** Raising one edge's count, or adding an edge, moves exactly one observable count. */
  lemma CountsPut(counts: Counts, edges: seq<Edge>, i: nat, e: Edge, tries: int)
    requires CountsAgree(counts, edges) && i <= |edges| && tries > 0
    requires i < |edges| ==>
             edges[i].observation == e.observation && edges[i].action == e.action && e.tested == edges[i].tested + tries
    requires i == |edges| ==> e.tested == tries
    requires CountAt(counts, e.observation, e.action.name) >= 0
    ensures CountsAgree(Bump(counts, e.observation, e.action.name, tries), if i < |edges| then edges[i := e]
              else edges + [e])
  {
    var after := if i < |edges| then edges[i := e] else edges + [e];
    var bumped := Bump(counts, e.observation, e.action.name, tries);
    forall o, name ensures CountAt(bumped, o, name) == TestedSum(after, o, name) {
      if i < |edges| {
        TestedUpdate(edges, i, e, o, name);
      } else {
        TestedAppend(edges, e, o, name);
      }
    }
  }

  /** The counts are determined by the edges. */
  lemma CountsAreDetermined(a: Counts, b: Counts, edges: seq<Edge>)
    requires CountsAgree(a, edges) && CountsAgree(b, edges)
    ensures a == b
  {
    hide TestedSum;
    forall k ensures k in a <==> k in b {
      assert CountAt(a, k.0, k.1) == CountAt(b, k.0, k.1);
    }
    forall k | k in a ensures a[k] == b[k] {
      assert CountAt(a, k.0, k.1) == CountAt(b, k.0, k.1);
    }
  }

  lemma CountsArePositive(counts: Counts, edges: seq<Edge>, o: ObservationHash, name: ActionName)
    requires CountsAgree(counts, edges)
    ensures CountAt(counts, o, name) >= 0
  {
  }

  /** The prior edge under a key leaves from the same observation. */
  lemma PriorEdgeMatches(scope: Scope, g: Graph, from: Node, t: Transition, n: nat)
    requires Sound(scope, g, n) && from.key in g.nodes.at && g.nodes.at[from.key] == from
    requires EdgeOf(from.key, t.action) in g.edges.at
    ensures var e := g.edges.at[EdgeOf(from.key, t.action)];
            e.observation == from.observation && e.action == t.action && e.tested >= 1
  {
    hide OutcomesOk, CitedOnce;
    EdgeOfGraphIsOk(g, EdgeOf(from.key, t.action), g.nodes.Values(), n);
    var e := g.edges.at[EdgeOf(from.key, t.action)];
    FromIsSeen(g, from);
    SameKeySameObservation(g.nodes.Values(), scope, n, from.key, from.observation, e.observation);
    PositiveCounts(e.outcomes, g.nodes.Values(), n);
  }

  lemma SameKeySameObservation(nodes: seq<Node>, scope: Scope, n: nat, k: BeliefKey, a: ObservationHash,
      b: ObservationHash)
    requires NodesOk(nodes, scope, n) && HasNodeSeeing(nodes, k, a) && HasNodeSeeing(nodes, k, b)
    ensures a == b
  {
    var i :| 0 <= i < |nodes| && nodes[i].key == k && nodes[i].observation == a;
    var j :| 0 <= j < |nodes| && nodes[j].key == k && nodes[j].observation == b;
    assert i == j;
  }

  lemma {:induction false} PositiveCounts(outcomes: seq<Outcome>, nodes: seq<Node>, n: nat)
    requires OutcomesOk(outcomes, nodes, n)
    ensures CountSum(outcomes) >= |outcomes|
  {
    hide HasNode;
    if outcomes != [] {
      var k := |outcomes| - 1;
      assert OutcomeOk(outcomes[k], nodes, n);
      assert forall i :: 0 <= i < k ==> outcomes[..k][i] == outcomes[i];
      PositiveCounts(outcomes[..k], nodes, n);
    }
  }

  lemma RecordedCounts(scope: Scope, g: Graph, from: Node, t: Transition, n: nat, counts: Counts)
    requires Sound(scope, g, n) && from.key in g.nodes.at && g.nodes.at[from.key] == from
    requires CountsAgree(counts, g.edges.Values())
    ensures Recorded(scope, g, from, t).edges.Valid()
    ensures CountsAgree(Bump(counts, from.observation, t.action.name, 1), Recorded(scope, g, from, t).edges.Values())
  {
    hide Acceptable, CountsAgree, AddOutcome, Bump;
    var key := EdgeOf(from.key, t.action);
    var e := TakenEdge(from, g.edges.Get(key), VisitedNode(scope, g, t).key, t);
    var i := g.edges.SetValues(key, e);
    if key in g.edges.at {
      PriorEdgeMatches(scope, g, from, t, n);
      assert g.edges.Values()[i] == g.edges.at[key];
    }
    CountsArePositive(counts, g.edges.Values(), e.observation, e.action.name);
    CountsPut(counts, g.edges.Values(), i, e, 1);
  }

  // ---------------------------------------------------------------- the frontier

  datatype FrontierEdge = FrontierEdge(from: BeliefKey, observation: ObservationHash, action: ActionName, tested: int,
        priority: real)

  function WithoutReset(names: seq<ActionName>): seq<ActionName> {
    if names == [] then []
    else (if names[0] == RESET then [] else [names[0]]) + WithoutReset(names[1..])
  }

  function Available(o: Observation): seq<ActionName> {
    match o.state
    case NOT_PLAYED => [RESET]
    case GAME_OVER => [RESET]
    case WIN => []
    case NOT_FINISHED => WithoutReset(o.actions)
  }

  /** The place of an action name in alphabetical order. */
  function NameOrder(name: ActionName): nat {
    match name
    case ACTION1 => 1 case ACTION2 => 2 case ACTION3 => 3 case ACTION4 => 4
    case ACTION5 => 5 case ACTION6 => 6 case ACTION7 => 7 case RESET => 8
  }

  function Candidate(from: BeliefKey, counts: Counts, o: ObservationHash, name: ActionName): FrontierEdge {
    var tested := CountAt(counts, o, name);
    FrontierEdge(from, o, name, tested, if tested >= 0 then 1.0 / (1 + tested) as real else 0.0)
  }

  predicate MoreUrgent(a: FrontierEdge, b: FrontierEdge) {
    a.priority > b.priority || (a.priority == b.priority && NameOrder(a.action) <= NameOrder(b.action))
  }

  function Candidates(from: BeliefKey, counts: Counts, o: Observation): (cs: seq<FrontierEdge>)
    ensures |cs| == |Available(o)|
  {
    seq(|Available(o)|, i requires 0 <= i < |Available(o)| => Candidate(from, counts, o.hash, Available(o)[i]))
  }

  function SortedCandidates(from: BeliefKey, counts: Counts, o: Observation): seq<FrontierEdge> {
    Sort(MoreUrgent, Candidates(from, counts, o))
  }

  function FrontierOf(from: BeliefKey, counts: Counts, o: Observation, limit: nat): seq<FrontierEdge> {
    var sorted := SortedCandidates(from, counts, o);
    if |sorted| <= limit then sorted else sorted[..limit]
  }

  lemma UrgencyOrders()
    ensures Orders(MoreUrgent)
  {
  }

  lemma MoreTriesLessUrgent(a: int, b: int)
    requires 0 <= b < a
    ensures 1.0 / (1 + a) as real < 1.0 / (1 + b) as real
  {
    var x, y := (1 + a) as real, (1 + b) as real;
    assert x * y > 0.0 && 1.0 / y - 1.0 / x == (x - y) / (x * y);
  }

  lemma UrgentMeansLessTried(a: int, b: int)
    requires 0 <= a && 0 <= b && 1.0 / (1 + a) as real >= 1.0 / (1 + b) as real
    ensures a <= b
  {
    if a > b {
      MoreTriesLessUrgent(a, b);
    }
  }

  lemma UrgencyByCount(from: BeliefKey, counts: Counts, edges: seq<Edge>, o: Observation, a: FrontierEdge,
      b: FrontierEdge)
    requires CountsAgree(counts, edges) && a in Candidates(from, counts, o) && b in Candidates(from, counts, o)
    requires MoreUrgent(a, b)
    ensures a.tested <= b.tested
  {
    hide Available, TestedSum;
    CountsArePositive(counts, edges, o.hash, a.action);
    CountsArePositive(counts, edges, o.hash, b.action);
    UrgentMeansLessTried(a.tested, b.tested);
  }

  lemma SortedByCount(from: BeliefKey, counts: Counts, edges: seq<Edge>, o: Observation)
    requires CountsAgree(counts, edges)
    ensures var sorted := SortedCandidates(from, counts, o);
            && multiset(sorted) == multiset(Candidates(from, counts, o)) && |sorted| == |Available(o)|
            && forall i, j :: 0 <= i < j < |sorted| ==> sorted[i].tested <= sorted[j].tested
  {
    hide TestedSum, Available, Insert, Sort, Orders, MoreUrgent, CountsAgree, Candidates;
    var cs, sorted := Candidates(from, counts, o), SortedCandidates(from, counts, o);
    UrgencyOrders();
    SortSorts(MoreUrgent, cs);
    forall i, j | 0 <= i < j < |sorted| ensures sorted[i].tested <= sorted[j].tested {
      assert sorted[i] in multiset(sorted) && sorted[j] in multiset(sorted);
      assert sorted[i] in multiset(cs) && sorted[j] in multiset(cs);
      UrgencyByCount(from, counts, edges, o, sorted[i], sorted[j]);
    }
  }

  lemma FrontierIsPrefix(from: BeliefKey, counts: Counts, o: Observation, limit: nat)
    ensures FrontierOf(from, counts, o, limit) <= SortedCandidates(from, counts, o)
    ensures |FrontierOf(from, counts, o, limit)| == if limit < |SortedCandidates(from, counts, o)| then limit
            else |SortedCandidates(from, counts, o)|
  {
  }

  /** While the game runs the actions on offer but a reset; before and after it a reset; none once it is won. */
  ghost predicate OnOffer(o: Observation, name: ActionName) {
    match o.state
    case WIN => false
    case NOT_FINISHED => name in o.actions && name != RESET
    case NOT_PLAYED => name == RESET
    case GAME_OVER => name == RESET
  }

  lemma AvailableAreOnOffer(o: Observation)
    ensures forall name :: name in Available(o) <==> OnOffer(o, name)
  {
    forall name ensures name in WithoutReset(o.actions) <==> name in o.actions && name != RESET {
      NoReset(o.actions, name);
    }
  }

  lemma {:induction false} NoReset(names: seq<ActionName>, name: ActionName)
    ensures name in WithoutReset(names) <==> name in names && name != RESET
  {
    if names != [] {
      NoReset(names[1..], name);
    }
  }

  /** The names of the actions sort as ACTION1 to ACTION7 and then RESET. */
  ghost predicate NamesAscend(a: ActionName, b: ActionName) {
    var names := [ACTION1, ACTION2, ACTION3, ACTION4, ACTION5, ACTION6, ACTION7, RESET];
    exists i, j :: 0 <= i <= j < 8 && names[i] == a && names[j] == b
  }

  lemma OrderAscends(a: ActionName, b: ActionName)
    requires NameOrder(a) <= NameOrder(b)
    ensures NamesAscend(a, b)
  {
    var names := [ACTION1, ACTION2, ACTION3, ACTION4, ACTION5, ACTION6, ACTION7, RESET];
    assert names[NameOrder(a) - 1] == a && names[NameOrder(b) - 1] == b;
  }

  /** The frontier offers available actions only, with their true counts: least tried first, then by name. */
  lemma FrontierIsTrue(from: BeliefKey, counts: Counts, edges: seq<Edge>, o: Observation, limit: nat)
    requires CountsAgree(counts, edges)
    ensures var f := FrontierOf(from, counts, o, limit);
            && |f| == (if limit < |Available(o)| then limit else |Available(o)|)
            && (forall i :: 0 <= i < |f| ==>
                  var n := TestedSum(edges, o.hash, f[i].action);
                  && OnOffer(o, f[i].action) && n >= 0
                  && f[i] == FrontierEdge(from, o.hash, f[i].action, n, 1.0 / (1 + n) as real))
            && (forall i, j :: 0 <= i < j < |f| ==>
                  || f[i].tested < f[j].tested
                  || (f[i].tested == f[j].tested && NamesAscend(f[i].action, f[j].action)))
    ensures forall name :: name in Available(o) <==> OnOffer(o, name)
  {
    hide *;
    var cs, sorted := Candidates(from, counts, o), SortedCandidates(from, counts, o);
    AvailableAreOnOffer(o);
    SortedByCount(from, counts, edges, o);
    SortedByName(from, counts, o);
    FrontierIsPrefix(from, counts, o, limit);
    var f := FrontierOf(from, counts, o, limit);
    forall i | 0 <= i < |f|
      ensures var n := TestedSum(edges, o.hash, f[i].action);
              && OnOffer(o, f[i].action) && n >= 0
              && f[i] == FrontierEdge(from, o.hash, f[i].action, n, 1.0 / (1 + n) as real)
    {
      assert f[i] == sorted[i] && f[i] in multiset(sorted) && f[i] in multiset(cs);
      CandidateIsTrue(from, counts, edges, o, f[i]);
    }
  }

  lemma SortedByName(from: BeliefKey, counts: Counts, o: Observation)
    ensures var sorted := SortedCandidates(from, counts, o);
            forall i, j :: 0 <= i < j < |sorted| && sorted[i].tested == sorted[j].tested ==>
              NamesAscend(sorted[i].action, sorted[j].action)
  {
    hide Available, Insert, Sort, Orders, NameOrder, NamesAscend, Candidate;
    var cs, sorted := Candidates(from, counts, o), SortedCandidates(from, counts, o);
    UrgencyOrders();
    SortSorts(MoreUrgent, cs);
    forall i, j | 0 <= i < j < |sorted| && sorted[i].tested == sorted[j].tested
      ensures NamesAscend(sorted[i].action, sorted[j].action)
    {
      assert sorted[i] in multiset(sorted) && sorted[j] in multiset(sorted);
      assert sorted[i] in multiset(cs) && sorted[j] in multiset(cs);
      SamePriority(from, counts, o, sorted[i], sorted[j]);
      assert MoreUrgent(sorted[i], sorted[j]);
      OrderAscends(sorted[i].action, sorted[j].action);
    }
  }

  lemma SamePriority(from: BeliefKey, counts: Counts, o: Observation, a: FrontierEdge, b: FrontierEdge)
    requires a in Candidates(from, counts, o) && b in Candidates(from, counts, o) && a.tested == b.tested
    ensures a.priority == b.priority
  {
  }

  /** No candidate left out was tried less often than one offered. */
  lemma FrontierPrefersUntried(from: BeliefKey, counts: Counts, edges: seq<Edge>, o: Observation, limit: nat, i: nat,
      c: FrontierEdge)
    requires CountsAgree(counts, edges)
    requires var f := FrontierOf(from, counts, o, limit); i < |f| && c in Candidates(from, counts, o) && c !in f
    ensures FrontierOf(from, counts, o, limit)[i].tested <= c.tested
  {
    hide *;
    var cs, sorted := Candidates(from, counts, o), SortedCandidates(from, counts, o);
    SortedByCount(from, counts, edges, o);
    FrontierIsPrefix(from, counts, o, limit);
    var f := FrontierOf(from, counts, o, limit);
    assert c in multiset(cs) && c in multiset(sorted);
    assert sorted == f + sorted[|f|..] && c in sorted[|f|..];
    var j :| 0 <= j < |sorted[|f|..]| && sorted[|f|..][j] == c;
    assert sorted[|f| + j] == c;
  }

  lemma CandidateIsTrue(from: BeliefKey, counts: Counts, edges: seq<Edge>, o: Observation, c: FrontierEdge)
    requires CountsAgree(counts, edges) && c in Candidates(from, counts, o)
    ensures var n := TestedSum(edges, o.hash, c.action);
            && c.action in Available(o) && n >= 0
            && c == FrontierEdge(from, o.hash, c.action, n, 1.0 / (1 + n) as real)
  {
    hide TestedSum, Available;
    CountsArePositive(counts, edges, o.hash, c.action);
  }

  // ---------------------------------------------------------------- the graph object

  class BeliefGraph {
    const scope: Scope
    var nodes: OrderedMap<BeliefKey, Node>
    var edges: OrderedMap<EdgeKey, Edge>
    var counts: Counts
    var current: Option<BeliefKey>

    constructor (scope: Scope)
      ensures this.scope == scope && State() == EMPTY && counts == map[]
    {
      this.scope := scope;
      nodes, edges, counts, current := EmptyMap(), EmptyMap(), map[], None;
    }

    function State(): Graph
      reads this
    {
      Graph(nodes, edges, current)
    }

    /** The graph of a run of at most `n` transitions, with its counts in step. */
    ghost predicate Within(n: nat)
      reads this
    {
      Sound(scope, State(), n) && CountsAgree(counts, edges.Values())
    }

    method Initialize(o: Observation) returns (r: Result<Node, string>)
      modifies this
      ensures r.Ok? <==> o.game == scope.game
      ensures r.Ok? ==>
              State() == Initialized(scope, old(State()), o) && r.value == MakeNode(scope, GenesisOf(scope, o), o, 1)
      ensures r.Err? ==> State() == old(State())
      ensures counts == old(counts)
      ensures r.Ok? && old(State()) == EMPTY && counts == map[] && ValidActions(o.actions) && o.levels >= 0 ==>
              Within(0)
    {
      if o.game != scope.game {
        return Err("observation belongs to a foreign opaque game scope");
      }
      var latent := Genesis(o.hash);
      var key := KeyOf(scope, o.hash, latent);
      var node := Node(key, scope, o.hash, o.frame, latent, o.state, o.levels, o.actions, 1);
      nodes, current := nodes.Set(key, node), Some(key);
      if old(State()) == EMPTY && ValidActions(o.actions) && o.levels >= 0 {
        InitializedIsSound(scope, o);
      }
      r := Ok(node);
    }

    function Current(): (r: Result<Node, string>)
      reads this
      ensures r.Ok? <==> current.Some? && current.value in nodes.at
    {
      match current
      case None => Err("belief graph is not initialized")
      case Some(k) => if k in nodes.at then Ok(nodes.at[k]) else Err("belief graph current node is missing")
    }

    lemma CurrentIsKnown(n: nat)
      requires Within(n)
      ensures current.Some? ==>
              Current().Ok? && Current().value.key == current.value && nodes.at[current.value] == Current().value
    {
      if current.Some? {
        KeyedNode(State(), current.value);
      }
    }

    function PreviewNext(action: Action, o: Observation, sequence: int): (r: Result<Next, string>)
      reads this
    {
      match Current()
      case Ok(from) => Ok(NextOf(scope, from, action, o, sequence))
      case Err(e) => Err(e)
    }

    /** The node the transition leads to, with one more visit if it is known. */
    method Visit(t: Transition) returns (to: Node)
      ensures to == VisitedNode(scope, State(), t)
    {
      var o := t.observation;
      if t.next.key in nodes.at {
        var n := nodes.at[t.next.key];
        return Node(n.key, scope, o.hash, o.frame, n.latent, o.state, o.levels, o.actions, n.visits + 1);
      }
      to := Node(t.next.key, scope, o.hash, o.frame, t.next.latent, o.state, o.levels, o.actions, 1);
    }

    method RecordTransition(t: Transition, ghost n: nat) returns (r: Result<Node, string>)
      requires Within(n) && Recordable(scope, State(), t)
      modifies this
      ensures r.Ok? <==> old(current.Some?)
      ensures r.Err? ==> State() == old(State()) && counts == old(counts)
      ensures r.Ok? ==>
              old(Current().Ok?) && State() == Recorded(scope, old(State()), old(Current().value), t) && Within(n + 1)
      ensures r.Ok? ==> current == Some(r.value.key) && r.value == VisitedNode(scope, old(State()), t)
    {
      hide Sound, CountsAgree, Recordable, EdgeReceipts, AddOutcome;
      CurrentIsKnown(n);
      var found := Current();
      if found.Err? { return Err(found.error); }
      var from := found.value;
      ghost var before := State();
      RecordedIsSound(scope, before, from, t, n);
      RecordedCounts(scope, before, from, t, n, counts);
      var to := Visit(t);
      nodes := nodes.Set(to.key, to);
      var key := EdgeOf(from.key, t.action);
      var edge := TakeEdge(from, edges.Get(key), to.key, t);
      edges := edges.Set(key, edge);
      counts := Bump(counts, from.observation, t.action.name, 1);
      current := Some(to.key);
      r := Ok(to);
    }

    function Frontier(o: Observation, limit: int): (r: Result<seq<FrontierEdge>, string>)
      reads this
      ensures r.Ok? <==> 1 <= limit <= 256 && current.Some? && current.value in nodes.at
      ensures r.Ok? ==> r.value == FrontierOf(nodes.at[current.value].key, counts, o, limit)
    {
      if limit < 1 || limit > 256 then Err("graph frontier limit must be an integer in 1..256")
      else
        match Current()
        case Ok(n) => Ok(FrontierOf(n.key, counts, o, limit))
        case Err(e) => Err(e)
    }

    function TakeSnapshot(): (s: Snapshot)
      requires nodes.Valid() && edges.Valid()
      reads this
    {
      SnapshotOf(State())
    }

    /** Loading accepts exactly the acceptable snapshots, and then holds that snapshot and its counts. */
    method Load(s: Snapshot) returns (ok: bool)
      modifies this
      ensures ok <==> Acceptable(s, scope, MAX_RUN_ACTIONS + 1, MAX_RUN_ACTIONS)
      ensures ok ==> Within(MAX_RUN_ACTIONS) && TakeSnapshot() == s
      ensures !ok ==> State() == old(State()) && counts == old(counts)
    {
      hide NodesOk, EdgesOk, CountsAgree;
      ok := ValidateSnapshot(s, scope, MAX_RUN_ACTIONS + 1, MAX_RUN_ACTIONS);
      if !ok { return; }
      LoadNodes(s.nodes, MAX_RUN_ACTIONS);
      LoadEdges(s.edges, s.nodes, MAX_RUN_ACTIONS);
      current := s.current;
    }

    method LoadNodes(ns: seq<Node>, ghost n: nat)
      requires NodesOk(ns, scope, n)
      modifies this`nodes
      ensures nodes.Valid() && nodes.Values() == ns
      ensures forall j :: 0 <= j < |nodes.keys| ==> nodes.at[nodes.keys[j]].key == nodes.keys[j]
    {
      hide NodeOk;
      nodes := EmptyMap();
      for i := 0 to |ns|
        invariant nodes.Valid() && nodes.Values() == ns[..i]
        invariant forall j :: 0 <= j < i ==> nodes.keys[j] == ns[j].key
      {
        forall j | 0 <= j < |nodes.keys| ensures nodes.keys[j] != ns[i].key {}
        assert ns[i].key !in Elements(nodes.keys);
        ghost var at := nodes.SetValues(ns[i].key, ns[i]);
        nodes := nodes.Set(ns[i].key, ns[i]);
      }
      forall j | 0 <= j < |nodes.keys| ensures nodes.at[nodes.keys[j]].key == nodes.keys[j] {
        assert nodes.Values()[j] == ns[j];
      }
    }

    method LoadEdges(es: seq<Edge>, ghost ns: seq<Node>, ghost n: nat)
      requires EdgesOk(es, ns, n)
      modifies this`edges, this`counts
      ensures edges.Valid() && edges.Values() == es && CountsAgree(counts, es)
      ensures forall j :: 0 <= j < |edges.keys| ==> edges.at[edges.keys[j]].key == edges.keys[j]
    {
      hide EdgeOk, CitedOnce, CountsAgree, TestedSum, Bump;
      edges, counts := EmptyMap(), map[];
      NothingCounted();
      for i := 0 to |es|
        invariant edges.Valid() && edges.Values() == es[..i] && CountsAgree(counts, es[..i])
        invariant forall j :: 0 <= j < i ==> edges.keys[j] == es[j].key
      {
        var e := es[i];
        assert e.key !in Elements(edges.keys);
        ghost var at := edges.SetValues(e.key, e);
        edges := edges.Set(e.key, e);
        EdgeWasTested(es, i, ns, n);
        CountsArePositive(counts, es[..i], e.observation, e.action.name);
        CountsPut(counts, es[..i], i, e, e.tested);
        counts := Bump(counts, e.observation, e.action.name, e.tested);
        assert es[..i + 1] == es[..i] + [e];
      }
      assert es[..|es|] == es;
      forall j | 0 <= j < |edges.keys| ensures edges.at[edges.keys[j]].key == edges.keys[j] {
        assert edges.Values()[j] == es[j];
      }
    }
  }

  lemma NothingCounted()
    ensures CountsAgree(map[], [])
  {
  }

  lemma EdgeWasTested(es: seq<Edge>, i: nat, ns: seq<Node>, n: nat)
    requires EdgesOk(es, ns, n) && i < |es|
    ensures es[i].tested >= 1
  {
    hide OutcomesOk, CitedOnce;
    assert EdgeOk(es[i], ns, n);
    PositiveCounts(es[i].outcomes, ns, n);
  }

  /** Keyed graphs with the same snapshot are the same graph. */
  lemma SnapshotDetermines(a: Graph, b: Graph)
    requires Keyed(a) && Keyed(b) && SnapshotOf(a) == SnapshotOf(b)
    ensures a == b
  {
    SameValuesSameNodes(a, b);
    SameValuesSameEdges(a, b);
  }

  lemma SameValuesSameNodes(a: Graph, b: Graph)
    requires Keyed(a) && Keyed(b) && a.nodes.Values() == b.nodes.Values()
    ensures a.nodes == b.nodes
  {
    forall i | 0 <= i < |a.nodes.keys| ensures a.nodes.keys[i] == b.nodes.keys[i] {
      assert a.nodes.Values()[i] == b.nodes.Values()[i];
    }
    assert a.nodes.at.Keys == b.nodes.at.Keys;
    forall k | k in a.nodes.at ensures a.nodes.at[k] == b.nodes.at[k] {
      var i :| 0 <= i < |a.nodes.keys| && a.nodes.keys[i] == k;
      assert a.nodes.Values()[i] == b.nodes.Values()[i];
    }
  }

  lemma SameValuesSameEdges(a: Graph, b: Graph)
    requires Keyed(a) && Keyed(b) && a.edges.Values() == b.edges.Values()
    ensures a.edges == b.edges
  {
    forall i | 0 <= i < |a.edges.keys| ensures a.edges.keys[i] == b.edges.keys[i] {
      assert a.edges.Values()[i] == b.edges.Values()[i];
    }
    assert a.edges.at.Keys == b.edges.at.Keys;
    forall k | k in a.edges.at ensures a.edges.at[k] == b.edges.at[k] {
      var i :| 0 <= i < |a.edges.keys| && a.edges.keys[i] == k;
      assert a.edges.Values()[i] == b.edges.Values()[i];
    }
  }

  /** The snapshot of any run within the action limit is accepted, and the loaded graph answers alike. */
  method Reload(g: BeliefGraph, h: BeliefGraph, ghost n: nat)
    requires g.Within(n) && n <= MAX_RUN_ACTIONS && h != g && h.scope == g.scope
    modifies h
    ensures h.State() == g.State() && h.counts == g.counts && h.Within(n)
    ensures forall o, limit :: h.Frontier(o, limit) == g.Frontier(o, limit)
    ensures h.Current() == g.Current() && h.TakeSnapshot() == g.TakeSnapshot()
  {
    hide Acceptable, CountsAgree, FrontierOf;
    SoundForLonger(g.scope, g.State(), n, MAX_RUN_ACTIONS);
    var ok := h.Load(g.TakeSnapshot());
    SnapshotDetermines(g.State(), h.State());
    CountsAreDetermined(g.counts, h.counts, g.edges.Values());
  }
}
